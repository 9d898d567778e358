/**
 * The light/dark theme preference (src/context/ThemeContext.tsx).
 *
 * The browser is a class holding the two things the provider touches:
 * `localStorage` as a map from key to string and the class list of the root
 * element as a set. Whether storage access throws (storage disabled) and
 * whether the colour-scheme query throws are fixed facts about the browser,
 * and so is the "prefers dark" answer. The provider has no try/catch: an
 * exception from storage escapes, which the model reports as `Thrown`
 * without changing anything.
 */
module Theme {
  import opened Wrappers

  const ThemeKey := "theme"
  const Light := "light"
  const Dark := "dark"
  const DarkClass := "dark"
  const TransitionClass := "theme-transitioning"
  const NoProviderMessage := "useTheme must be used within ThemeProvider"

  /** Whether a step ran to completion or an exception escaped from it. */
  datatype Outcome = Done | Thrown

  /** `localStorage.getItem(key)` on a readable storage. */
  function GetItem(storage: map<string, string>, key: string): (r: Option<string>)
    ensures r.Some? <==> key in storage
    ensures r.Some? ==> r.value == storage[key]
  {
    if key in storage then Some(storage[key]) else None
  }

  /**
   * `savedTheme || (prefersDark ? 'dark' : 'light')`. The stored value is not
   * checked: any non-empty string becomes the theme.
   */
  function ResolveTheme(saved: Option<string>, prefersDark: bool): (t: string)
    ensures t != ""
    ensures saved.Some? && saved.value != "" ==> t == saved.value
    ensures saved.None? || saved.value == "" ==> (t == Dark <==> prefersDark)
    ensures saved.None? || saved.value == "" ==> (t == Light <==> !prefersDark)
  {
    if saved.Some? && saved.value != "" then saved.value
    else if prefersDark then Dark else Light
  }

  /** The toggle: 'light' becomes 'dark', anything else becomes 'light'. */
  function Toggled(t: string): (r: string)
    ensures r == Dark <==> t == Light
    ensures r == Light <==> t != Light
    ensures r != t
  {
    if t == Light then Dark else Light
  }

  /** Toggling twice restores 'light' and 'dark'. */
  lemma ToggleTwiceRestores(t: string)
    requires t == Light || t == Dark
    ensures Toggled(Toggled(t)) == t
  {
  }

  /** An unrecognised stored value is still a theme, and toggling it gives 'light'. */
  lemma UnvalidatedStoredTheme(prefersDark: bool)
    ensures ResolveTheme(Some("blue"), prefersDark) == "blue"
    ensures Toggled("blue") == Light
  {
  }

  /** With nothing stored, the system preference decides. */
  lemma NoStoredThemeFollowsSystem(storage: map<string, string>)
    requires ThemeKey !in storage
    ensures ResolveTheme(GetItem(storage, ThemeKey), true) == Dark
    ensures ResolveTheme(GetItem(storage, ThemeKey), false) == Light
  {
  }

  /** A stored value takes precedence over the system preference. */
  lemma StoredThemeWins(storage: map<string, string>, prefersDark: bool)
    requires ThemeKey in storage && storage[ThemeKey] != ""
    ensures ResolveTheme(GetItem(storage, ThemeKey), prefersDark) == storage[ThemeKey]
    ensures ResolveTheme(GetItem(storage, ThemeKey), prefersDark) == ResolveTheme(GetItem(storage, ThemeKey), !prefersDark)
  {
  }

  /**
   * `useTheme`: the context value when a provider is above the caller,
   * otherwise the error it throws.
   */
  function UseTheme<C>(context: Option<C>): (r: Result<C, string>)
    ensures r.Failure? <==> context.None?
    ensures r.Success? ==> r.value == context.value
    ensures r.Failure? ==> r.error == NoProviderMessage
  {
    match context
    case None => Failure(NoProviderMessage)
    case Some(c) => Success(c)
  }

  /** The parts of the browser the theme code reads and writes. */
  class Browser {
    var storage: map<string, string>
    var classList: set<string>
    const prefersDark: bool
    const storageBlocked: bool
    const mediaQueryThrows: bool

    constructor (storage: map<string, string>, classList: set<string>,
                 prefersDark: bool, storageBlocked: bool, mediaQueryThrows: bool)
      ensures this.storage == storage && this.classList == classList
      ensures this.prefersDark == prefersDark && this.storageBlocked == storageBlocked
      ensures this.mediaQueryThrows == mediaQueryThrows
    {
      this.storage := storage;
      this.classList := classList;
      this.prefersDark := prefersDark;
      this.storageBlocked := storageBlocked;
      this.mediaQueryThrows := mediaQueryThrows;
    }

    /**
     * `updateDocumentTheme` up to its timer: the transition marker is
     * present, the dark marker is present exactly for 'dark', and every other
     * class is left alone. Removing the transition marker 300 ms later is not
     * modelled.
     */
    method UpdateDocumentTheme(theme: string)
      modifies this`classList
      ensures TransitionClass in classList
      ensures DarkClass in classList <==> theme == Dark
      ensures classList - {TransitionClass, DarkClass} == old(classList) - {TransitionClass, DarkClass}
    {
      if TransitionClass !in classList {
        classList := classList + {TransitionClass};
      }
      if theme == Dark {
        classList := classList + {DarkClass};
      } else {
        classList := classList - {DarkClass};
      }
    }
  }

  /**
   * `ThemeProvider`: the theme state, bound to one browser. `committedTheme`
   * is the theme of the last render whose effects have run; it differs from
   * `theme` only between a state update and the re-render that commits it.
   */
  class ThemeProvider {
    var theme: string
    var committedTheme: string
    const browser: Browser

    /** The state before the mount effect has run is 'light', and that is what the first render commits. */
    constructor (browser: Browser)
      ensures this.browser == browser && theme == Light && committedTheme == Light
    {
      this.browser := browser;
      theme := Light;
      committedTheme := Light;
    }

    /** No state update is waiting for a re-render. */
    predicate Committed()
      reads this
    {
      theme == committedTheme
    }

    /** The theme and the document agree: the dark marker is there exactly for 'dark'. */
    predicate DocumentShowsTheme()
      reads this, browser
    {
      DarkClass in browser.classList <==> theme == Dark
    }

    /**
     * The effects of the first commit, in declaration order. The mount effect
     * resolves the initial theme, queues it as the new state and applies it;
     * the theme effect then applies the theme of the render being committed,
     * which is still the old one. So the document ends this step showing the
     * committed theme, not the resolved one: a stored 'dark' is taken off
     * again until the re-render. Reading storage or the colour-scheme query
     * may throw, and nothing catches it.
     */
    method FirstCommit() returns (outcome: Outcome)
      requires Committed()
      modifies this`theme, browser`classList
      ensures outcome == Thrown <==> browser.storageBlocked || browser.mediaQueryThrows
      ensures outcome == Thrown ==> theme == old(theme) && browser.classList == old(browser.classList)
      ensures outcome == Done ==>
        && theme == ResolveTheme(GetItem(browser.storage, ThemeKey), browser.prefersDark)
        && (DarkClass in browser.classList <==> committedTheme == Dark)
        && TransitionClass in browser.classList
        && browser.classList - {TransitionClass, DarkClass} == old(browser.classList) - {TransitionClass, DarkClass}
    {
      if browser.storageBlocked || browser.mediaQueryThrows {
        return Thrown;
      }
      var savedTheme := GetItem(browser.storage, ThemeKey);
      var initialTheme := ResolveTheme(savedTheme, browser.prefersDark);
      theme := initialTheme;
      browser.UpdateDocumentTheme(initialTheme);
      browser.UpdateDocumentTheme(committedTheme);
      outcome := Done;
    }

    /**
     * The re-render after a state update: the theme effect runs again only
     * when the theme differs from the one last committed.
     */
    method Rerender()
      modifies this`committedTheme, browser`classList
      ensures Committed()
      ensures old(Committed()) ==> browser.classList == old(browser.classList)
      ensures !old(Committed()) ==>
        && DocumentShowsTheme()
        && TransitionClass in browser.classList
        && browser.classList - {TransitionClass, DarkClass} == old(browser.classList) - {TransitionClass, DarkClass}
    {
      if theme != committedTheme {
        committedTheme := theme;
        browser.UpdateDocumentTheme(theme);
      }
    }

    /**
     * Mounting as a whole: the first commit, then the re-render when the
     * resolved theme differs from 'light'. The end state is stated here; the
     * state in between is the one `FirstCommit` leaves.
     */
    method Mount() returns (outcome: Outcome)
      requires Committed()
      modifies this, browser`classList
      ensures Committed()
      ensures outcome == Thrown <==> browser.storageBlocked || browser.mediaQueryThrows
      ensures outcome == Thrown ==> theme == old(theme) && browser.classList == old(browser.classList)
      ensures outcome == Done ==>
        && theme == ResolveTheme(GetItem(browser.storage, ThemeKey), browser.prefersDark)
        && DocumentShowsTheme()
        && TransitionClass in browser.classList
        && browser.classList - {TransitionClass, DarkClass} == old(browser.classList) - {TransitionClass, DarkClass}
    {
      outcome := FirstCommit();
      if outcome == Done {
        Rerender();
      }
    }

    /**
     * `toggleTheme`: flips the theme and writes the new value under 'theme';
     * the re-render's theme effect then applies it. A click comes from a
     * committed render, so no other update is pending. If `setItem` throws,
     * the error leaves the state updater and nothing changes.
     */
    method ToggleTheme() returns (outcome: Outcome)
      requires Committed()
      modifies this, browser`storage, browser`classList
      ensures Committed()
      ensures outcome == Thrown <==> browser.storageBlocked
      ensures outcome == Thrown ==>
        && theme == old(theme)
        && browser.storage == old(browser.storage) && browser.classList == old(browser.classList)
      ensures outcome == Done ==>
        && theme == Toggled(old(theme))
        && browser.storage == old(browser.storage)[ThemeKey := theme]
        && DocumentShowsTheme()
        && TransitionClass in browser.classList
        && browser.classList - {TransitionClass, DarkClass} == old(browser.classList) - {TransitionClass, DarkClass}
    {
      var newTheme := Toggled(theme);
      if browser.storageBlocked {
        return Thrown;
      }
      browser.storage := browser.storage[ThemeKey := newTheme];
      theme := newTheme;
      Rerender();
      outcome := Done;
    }
  }
}
