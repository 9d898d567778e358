/**
 * The theme initialisation script that the root layout injects ahead of the
 * page (src/app/layout.tsx): it resolves the theme exactly as the provider's
 * mount effect does and applies only the dark marker, so the first paint
 * already shows the right theme. Unlike the provider, it swallows any
 * exception.
 */
module ThemeInitScript {
  import opened Wrappers
  import opened Theme

  /**
   * Runs the script. The result is the resolved theme, or `None` when storage
   * or the colour-scheme query threw and the error was swallowed; in that
   * case the class list is untouched.
   */
  method RunThemeInitScript(b: Browser) returns (resolved: Option<string>)
    modifies b`classList
    ensures resolved.None? <==> b.storageBlocked || b.mediaQueryThrows
    ensures resolved.None? ==> b.classList == old(b.classList)
    ensures resolved.Some? ==>
      && resolved.value == ResolveTheme(GetItem(b.storage, ThemeKey), b.prefersDark)
      && (DarkClass in b.classList <==> resolved.value == Dark)
      && b.classList - {DarkClass} == old(b.classList) - {DarkClass}
  {
    if b.storageBlocked || b.mediaQueryThrows {
      return None;
    }
    var savedTheme := GetItem(b.storage, ThemeKey);
    var resolvedTheme := ResolveTheme(savedTheme, b.prefersDark);
    if resolvedTheme == Dark {
      b.classList := b.classList + {DarkClass};
    } else {
      b.classList := b.classList - {DarkClass};
    }
    resolved := Some(resolvedTheme);
  }

  /**
   * A page load. The server-rendered root element carries no class, the
   * script runs before the first paint, and the provider is then created and
   * mounted. When storage works, the dark marker at first paint already
   * matches the theme the provider settles on. The provider's first commit
   * re-applies the 'light' it was created with, so the marker is always off
   * between that commit and the re-render: a stored 'dark' is removed and
   * added back.
   */
  method LoadPage(b: Browser) returns (darkAtFirstPaint: bool, darkAfterFirstCommit: bool, provider: ThemeProvider)
    requires DarkClass !in b.classList
    modifies b`classList
    ensures fresh(provider) && provider.browser == b && provider.Committed()
    ensures b.storageBlocked || b.mediaQueryThrows ==> !darkAtFirstPaint
    ensures !darkAfterFirstCommit
    ensures !b.storageBlocked && !b.mediaQueryThrows ==>
      && (darkAtFirstPaint <==> provider.theme == Dark)
      && provider.DocumentShowsTheme()
  {
    var _ := RunThemeInitScript(b);
    darkAtFirstPaint := DarkClass in b.classList;
    provider := new ThemeProvider(b);
    var outcome := provider.FirstCommit();
    darkAfterFirstCommit := DarkClass in b.classList;
    if outcome == Done {
      provider.Rerender();
    }
  }
}
