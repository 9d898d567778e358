# bengreene.dev: the logic under the pages

The site is a static portfolio built from React pages. Nearly all of it is
markup. This project models the small amount of real logic underneath and
proves properties about it in Dafny:

- **Feedback form** (`FormRules`, `FeedbackPage`). This covers blank detection
  through `trim()`, the email shape check
  `^[^\s@]+@[^\s@]+\.[^\s@]+$`, and the required-field rules of
  `validateForm`, which stop early when the `website` honeypot is filled in.
  It also covers `handleChange` and the state flow of `handleSubmit` over
  `formData`, `errors`, `isSubmitting` and `submitStatus`.
  `submitToGoogleSheet` is an oracle: the submission either resolves with
  `{success, message}` or throws.
- **Asset paths** (`BasePath`). `getAssetPath` makes a path absolute and puts
  the configured base path in front of it.
- **Theme preference** (`Theme`, `ThemeInitScript`). The provider resolves the
  theme from storage or the system preference when it mounts, toggles
  between light and dark, and keeps the `dark` and `theme-transitioning`
  classes on the root element up to date. The layout's inline script
  resolves the same theme before the first paint.
- **Wrap-around navigation** (`Navigation`, `Carousel`, `PageLightbox`,
  `HomePage`, `DadTrackPage`). This is the carousel's `goToSlide`, plus the
  open flag and current index of the lightboxes on the home page
  (3 screenshots) and the DadTrack page (6 features).
- **Image viewer** (`ImageLightbox`). It covers key dispatch, what is
  rendered for a given index (nothing, an empty wrapper, or the overlay with
  its counter), and the effect that locks page scrolling while the viewer is
  open.
- **Form wrapper** (`FormWrapper`). This is the `isSubmitting` guard that
  lets only one submission through at a time.

Four behaviours of the code that the model keeps as they are:

- A stored theme is not validated. Any non-empty stored string becomes the
  theme (src/context/ThemeContext.tsx:19-21), so `"blue"` is a theme and
  toggling it gives `'light'`.
- `ThemeProvider` has no try/catch. When storage is blocked, `Mount` and
  `ToggleTheme` report `Thrown` and change nothing. Only the layout script
  catches errors (src/app/layout.tsx:29).
- The provider's first commit runs the mount effect and then the theme
  effect of the same render, which still holds `'light'`
  (src/context/ThemeContext.tsx:15-33). For a resolved `'dark'` the `dark`
  class is therefore added, removed, and added back by the re-render.
  `FirstCommit` states the class list in between, and `LoadPage` shows that
  it never holds `dark`.
- The comment is required on the feedback page ('Feedback is required').

Conventions used in the model:

- JavaScript's `%` truncates toward zero. `Navigation.JsRem` writes it out,
  and the lemmas show that on the indices the pages use it agrees with
  one-step ring arithmetic (`Succ`, `Pred`).
- The browser is the class `Theme.Browser`. It holds `localStorage` as a
  `map<string, string>` and the root element's class list as a set. It also
  records three fixed facts: the "prefers dark" answer, whether storage
  access throws, and whether the colour-scheme query throws.
- React state updates are modelled as sequential assignments. Every async
  handler is split at its `await` into a `Begin…` method and a `Finish…`
  method, so the in-flight state can be observed and a second submit can
  arrive while the first is still pending.

## Model

| member | source | states |
|---|---|---|
| `Navigation.JsRem` | src/components/Carousel.tsx:30 | JavaScript's remainder lies in [0, n) for a non-negative dividend and in (-n, 0] for a negative one |
| `Navigation.JsRemNonNegative` | src/app/page.tsx:53 | on a non-negative dividend JavaScript's `%` equals Dafny's Euclidean `%` |
| `Navigation.Advance` | src/app/page.tsx:52-54 | any number of forward steps from a valid index stays in range |
| `Navigation.JsShiftedInRange` | src/components/Carousel.tsx:29-31 | `(index + n) % n` is in [0, n) for every index ≥ -n, keeps an index already in range, maps -n..-1 to index + n and n to 0 |
| `Navigation.JsRemNonNegativeRange` | src/components/Carousel.tsx:30 | only an index below -n can leave `(index + n) % n` out of range |
| `Navigation.JsNextIsSucc` | src/app/page.tsx:52-54 | the lightbox's `(prev + 1) % n` is one step forward on the ring, with n-1 wrapping to 0 |
| `Navigation.JsShiftedNextIsSucc` | src/components/Carousel.tsx:37-39 | the carousel's `(i + 1 + n) % n` is the same forward step |
| `Navigation.JsPrevIsPred` | src/app/page.tsx:56-58 | `(prev - 1 + n) % n` is one step back, with 0 wrapping to n-1 |
| `Navigation.SuccPredInverse` | src/app/page.tsx:52-58 | next and previous undo each other on every valid index |
| `Navigation.AdvanceWithoutWrap` | src/app/page.tsx:52-54 | k forward steps that do not pass the last slot land on i + k |
| `Navigation.AdvanceAdditive` | src/app/page.tsx:52-54 | a + b forward steps are a steps followed by b steps |
| `Navigation.FullTurn` | src/app/page.tsx:52-54 | n forward steps on n slots return to the starting index |
| `BasePath.StartsWithSlash` | src/lib/basePath.ts:32 | `path.startsWith("/")` holds exactly when "/" is a prefix of the path |
| `BasePath.NormalizePath` | src/lib/basePath.ts:32 | the result starts with '/'; it equals the input exactly when the input already starts with '/'; otherwise it is '/' followed by the input |
| `BasePath.GetAssetPath` | src/lib/basePath.ts:30-41 | with no base path the result is the normalised path; otherwise it is the base path followed by the normalised path; it always ends with the normalised path |
| `BasePath.StripBasePath` | src/lib/basePath.ts:40 | taking a prefix off succeeds exactly when the string starts with that prefix, and the prefix plus the remainder give back the string |
| `BasePath.NormalizeIdempotent` | src/lib/basePath.ts:32 | normalising twice equals normalising once |
| `BasePath.StripUndoesPrefix` | src/lib/basePath.ts:39-40 | removing the base path from any asset path gives back the normalised path |
| `BasePath.AssetPathAbsolute` | src/lib/basePath.ts:32-40 | with an empty base path, or one starting with '/', every asset path starts with '/' |
| `BasePath.DocumentedExamples` | src/lib/basePath.ts:23-28 | "/images/photo.png" gives itself with no base path and "/bengreene.dev/images/photo.png" under "/bengreene.dev"; "images/photo.png" also gives "/images/photo.png" |
| `FormRules.IsWhitespace` | src/app/feedback/page.tsx:29-35 | the character class of `\s` and `trim()`; '@' and '.' are never whitespace |
| `FormRules.AsciiWhitespace` | src/app/feedback/page.tsx:29-35 | on ASCII it is exactly space, tab, line feed, carriage return, vertical tab and form feed |
| `FormRules.LeadingWhitespace` | src/app/feedback/page.tsx:29 | the length of the whitespace run `trim()` removes at the front: every character before it is whitespace and the one after it (if any) is not |
| `FormRules.TrimStart` | src/app/feedback/page.tsx:29 | the result is a suffix of the input, does not start with whitespace, and everything removed was whitespace |
| `FormRules.TrimEnd` | src/app/feedback/page.tsx:29 | the result is a prefix of the input, does not end with whitespace, and everything removed was whitespace |
| `FormRules.Trim` | src/app/feedback/page.tsx:29 | `s.trim()`: no longer than s, and neither its first nor its last character is whitespace |
| `FormRules.BlankTrimsToEmpty` | src/app/feedback/page.tsx:29 | a whitespace-only string trims to "" |
| `FormRules.TrimmedEmptyIsBlank` | src/app/feedback/page.tsx:29 | a string that trims to "" is whitespace only |
| `FormRules.IsBlank` | src/app/feedback/page.tsx:29 | `!s.trim()`; its meaning is stated by `TrimmedEmptyIffBlank` |
| `FormRules.TrimmedEmptyIffBlank` | src/app/feedback/page.tsx:29 | `s.trim()` is empty exactly when every character of s is whitespace, so `IsBlank` is the test `!s.trim()` |
| `FormRules.IndexOf` | src/app/feedback/page.tsx:35 | the first occurrence of a character, or none exactly when it does not occur |
| `FormRules.IsValidEmail` | src/app/feedback/page.tsx:35 | the regular-expression test; an accepted address has at least five characters and starts and ends with a character of `[^\s@]`; `EmailCheckMatchesPattern` states that it accepts exactly what the expression matches |
| `FormRules.AllPlainSlice` | src/app/feedback/page.tsx:35 | every slice of a run of `[^\s@]` characters is itself such a run |
| `FormRules.EmailCheckSound` | src/app/feedback/page.tsx:35 | every string the shape check accepts splits as the regular expression requires |
| `FormRules.EmailCheckComplete` | src/app/feedback/page.tsx:35 | every split the regular expression allows passes the shape check |
| `FormRules.EmailCheckMatchesPattern` | src/app/feedback/page.tsx:35 | the shape check accepts exactly the strings the regular expression matches (both directions) |
| `FormRules.EmailAcceptsExample` | src/app/feedback/page.tsx:35 | "ada@example.com" is accepted |
| `FormRules.EmailRejectsMissingDot` | src/app/feedback/page.tsx:35 | "foo@bar" is rejected |
| `FormRules.EmailRejectsMissingAt` | src/app/feedback/page.tsx:35 | "foo.com" is rejected |
| `FormRules.EmailRejectsEmptyLocalPart` | src/app/feedback/page.tsx:35 | "@bar.com" is rejected |
| `FormRules.ErrorsFor` | src/app/feedback/page.tsx:22-41 | given the outcome of each rule, the map has an entry exactly for each violated rule, with that rule's message, and no other keys |
| `FormRules.ValidationErrors` | src/app/feedback/page.tsx:29-41 | only name, email and comment can have errors; each is flagged exactly when its rule fails, with the source's message; an email is 'required' when blank and otherwise 'invalid' when the shape check fails |
| `FormRules.ValidEmailIsNotBlank` | src/app/feedback/page.tsx:33-37 | a well-shaped email is never blank, so the two email messages exclude each other |
| `FormRules.NoErrorsIffAllFieldsPass` | src/app/feedback/page.tsx:39-44 | the error map is empty exactly when the name is filled, the email is well-shaped and the comment is filled |
| `FormRules.OnlyEmailFlagged` | src/app/feedback/page.tsx:33-37 | a present but ill-shaped email, with the other fields filled, yields the single error 'Please enter a valid email address' |
| `FeedbackPage.EmptyForm` | src/app/feedback/page.tsx:13 | the initial form has exactly the four inputs, all empty |
| `FeedbackPage.FeedbackPayload` | src/app/feedback/page.tsx:69-74 | the payload has exactly name, email, comment and type 'feedback', copied from the form, and never the honeypot |
| `FeedbackPage.NoKeysIffEmpty` | src/app/feedback/page.tsx:44 | `Object.keys(newErrors).length === 0` holds exactly for the empty map |
| `FeedbackPage.Feedback.constructor` | src/app/feedback/page.tsx:13-19 | empty form, no errors, not submitting, no status |
| `FeedbackPage.Feedback.SubmitButtonEnabled` | src/app/feedback/page.tsx:216 | `disabled={isSubmitting}`: the button is enabled exactly while no submission is in flight; it has no contract, and `SubmitTwiceWhilePending` shows what it guards |
| `FeedbackPage.Feedback.ValidateForm` | src/app/feedback/page.tsx:21-45 | a filled honeypot returns false and leaves the errors untouched; otherwise the errors become `ValidationErrors` of the fields and the result is true exactly when there are none |
| `FeedbackPage.Feedback.HandleChange` | src/app/feedback/page.tsx:47-56 | only the named field changes; its error is reset to '' only when it was non-empty; every other error is untouched |
| `FeedbackPage.Feedback.BeginSubmit` | src/app/feedback/page.tsx:58-74 | a failed validation sends nothing and leaves `isSubmitting` and the status alone; a passed one sets `isSubmitting`, clears the status and sends `FeedbackPayload` of the form |
| `FeedbackPage.Feedback.FinishSubmit` | src/app/feedback/page.tsx:76-124 | success clears the form and shows the thank-you message; a failed result keeps the form and shows its message; a throw keeps the form and shows the generic message; `isSubmitting` ends false |
| `FeedbackPage.Feedback.HandleSubmit` | src/app/feedback/page.tsx:58-125 | the whole handler: something is sent exactly when the honeypot is empty and there are no errors; if nothing is sent the form, flag and status are unchanged; otherwise the outcome decides as in `FinishSubmit` and `isSubmitting` ends false |
| `FeedbackPage.SubmitTwiceWhilePending` | src/app/feedback/page.tsx:58-74 | `handleSubmit` has no guard of its own: a second submit while the first call is awaited also passes validation and sends the same payload; between the two the button is disabled (line 216) |
| `FeedbackPage.SubmitFeedback` | src/app/feedback/page.tsx:58-81 | valid inputs typed in and submitted with a successful call send exactly those fields plus the type, clear the form and show success |
| `Theme.GetItem` | src/context/ThemeContext.tsx:19 | the stored value for a key, or none exactly when the key is absent |
| `Theme.ResolveTheme` | src/context/ThemeContext.tsx:19-21 | a non-empty stored value wins whatever it says; otherwise 'dark' exactly when the system prefers dark and 'light' exactly when it does not; the result is never empty |
| `Theme.Toggled` | src/context/ThemeContext.tsx:37 | 'light' maps to 'dark', every other value maps to 'light', and the result always differs from the input |
| `Theme.ToggleTwiceRestores` | src/context/ThemeContext.tsx:37-38 | toggling twice from 'light' or 'dark' gives back the start |
| `Theme.UnvalidatedStoredTheme` | src/context/ThemeContext.tsx:19-21 | a stored "blue" becomes the theme, and toggling it gives 'light' |
| `Theme.NoStoredThemeFollowsSystem` | src/context/ThemeContext.tsx:20-21 | with no stored theme, 'dark' when the system prefers dark, otherwise 'light' |
| `Theme.StoredThemeWins` | src/context/ThemeContext.tsx:21 | a stored non-empty theme is used and the system preference does not matter |
| `Theme.UseTheme` | src/context/ThemeContext.tsx:70-76 | the context value when a provider is present; otherwise the error 'useTheme must be used within ThemeProvider' |
| `Theme.Browser.UpdateDocumentTheme` | src/context/ThemeContext.tsx:50-63 | afterwards 'theme-transitioning' is present, 'dark' is present exactly for the theme 'dark', and every other class is unchanged (a set cannot hold a class twice) |
| `Theme.ThemeProvider.constructor` | src/context/ThemeContext.tsx:14-15 | before mounting, the theme is 'light', and that is the theme the first render commits |
| `Theme.ThemeProvider.FirstCommit` | src/context/ThemeContext.tsx:17-33 | blocked storage or a failing query throws and changes nothing; otherwise the state becomes `ResolveTheme` of storage and preference, while the document shows the committed theme ('dark' present exactly when it is 'dark'), the transition marker is on and other classes are kept |
| `Theme.ThemeProvider.Rerender` | src/context/ThemeContext.tsx:31-33 | afterwards the theme is committed; the theme effect runs only when the theme changed, and then the document shows the theme with other classes kept; otherwise the class list is unchanged |
| `Theme.ThemeProvider.Mount` | src/context/ThemeContext.tsx:17-33 | the first commit and then the re-render: blocked storage or a failing query throws and changes nothing; otherwise the theme is `ResolveTheme` of storage and preference, committed, the document shows it, and other classes are kept |
| `Theme.ThemeProvider.ToggleTheme` | src/context/ThemeContext.tsx:35-41 | blocked storage throws and changes nothing; otherwise the theme is toggled, storage 'theme' holds the new theme, and the document shows it |
| `ThemeInitScript.RunThemeInitScript` | src/app/layout.tsx:18-33 | any exception is swallowed and the class list is left as it was; otherwise the resolved theme is `ResolveTheme`, 'dark' is present exactly when it resolves to 'dark', and other classes are kept |
| `ThemeInitScript.LoadPage` | src/app/layout.tsx:78-85 | starting from a root element without `dark`: when storage works, `dark` at first paint matches the theme the provider settles on; when it does not, there is no `dark` at first paint; after the provider's first commit there is never `dark` |
| `Carousel.DotsActive` | src/components/Carousel.tsx:88-95 | one dot per slide; dot i is active exactly when i is the current index |
| `Carousel.CountTrue` | src/components/Carousel.tsx:88-95 | a count of active dots is at most the number of dots |
| `Carousel.CountTrueNone` | src/components/Carousel.tsx:88-95 | a row with no active dot counts zero |
| `Carousel.CountTrueSingle` | src/components/Carousel.tsx:88-95 | a row whose only active dot is k counts one |
| `Carousel.ExactlyOneActiveDot` | src/components/Carousel.tsx:88-95 | with the index in range, exactly one dot is active, the current one |
| `Carousel.Carousel.constructor` | src/components/Carousel.tsx:27 | the initial index is 0 |
| `Carousel.Carousel.GoToSlide` | src/components/Carousel.tsx:29-31 | the index becomes `(index + n) % n` with JavaScript's remainder; it is in range whenever index ≥ -n; an index already in range is kept |
| `Carousel.Carousel.GoToPrevious` | src/components/Carousel.tsx:33-35 | one step back, with 0 wrapping to n-1, staying in range |
| `Carousel.Carousel.GoToNext` | src/components/Carousel.tsx:37-39 | one step forward, with n-1 wrapping to 0, staying in range |
| `Carousel.Carousel.Dots` | src/components/Carousel.tsx:86-100 | the rendered dot row has one dot per slide and, in a valid state, exactly one active dot at the current index |
| `ImageLightbox.KeyAction` | src/components/ImageLightbox.tsx:32-43 | closed: no action; Escape closes whatever the image count; the arrows step back or forward only with more than one image; every other key does nothing |
| `ImageLightbox.Render` | src/components/ImageLightbox.tsx:29-182 | an index that addresses no image renders nothing; the overlay appears exactly when open and the index is valid; it shows that image, and shows arrows and the counter `index + 1 / length` only with several images; the help text depends on the image count |
| `ImageLightbox.CounterInBounds` | src/components/ImageLightbox.tsx:88-92 | a shown counter reads a position between 1 and the number of images |
| `ImageLightbox.LightboxEffect.Cleanup` | src/components/ImageLightbox.tsx:49-52 | the cleanup restores body overflow to '' and removes the listener |
| `ImageLightbox.LightboxEffect.Sync` | src/components/ImageLightbox.tsx:32-53 | a listener is installed exactly when open; open means overflow 'hidden'; closing runs the previous cleanup, if any |
| `ImageLightbox.LightboxEffect.KeyDown` | src/components/ImageLightbox.tsx:35-47 | with no listener installed a key does nothing; otherwise it is dispatched by `KeyAction` |
| `PageLightbox.LightboxState.constructor` | src/app/page.tsx:40-41 | initially closed, on index 0 |
| `PageLightbox.LightboxState.OpenLightbox` | src/app/page.tsx:43-46 | opens on the given index |
| `PageLightbox.LightboxState.CloseLightbox` | src/app/page.tsx:48-50 | closes and keeps the index |
| `PageLightbox.LightboxState.GoToNext` | src/app/page.tsx:52-54 | the index becomes `(prev + 1) % n`, a forward step that stays in range when it started in range; the open flag is kept |
| `PageLightbox.LightboxState.GoToPrevious` | src/app/page.tsx:56-58 | the index becomes `(prev - 1 + n) % n`, a backward step that stays in range when it started in range; the open flag is kept |
| `HomePage.Screenshots` | src/app/page.tsx:19-38 | there are three screenshots |
| `HomePage.NewHomeLightbox` | src/app/page.tsx:40-41 | the home page's lightbox has three images and starts closed on index 0 |
| `HomePage.HomeWrapAround` | src/app/page.tsx:52-58 | previous from 0 gives 2 and next from 2 gives 0 |
| `HomePage.HomeFullTurn` | src/app/page.tsx:52-54 | three forward steps return to the start |
| `HomePage.NextThreeTimes` | src/app/page.tsx:52-54 | three `goToNext` calls on the page state return to the same index |
| `HomePage.HomeEveryIndexShows` | src/app/page.tsx:267-275 | every valid index shows that screenshot with the counter `i + 1 / 3` |
| `DadTrackPage.Features` | src/app/dadtrack/page.tsx:17-60 | six features, in order, with their titles and base-path-resolved screenshots |
| `DadTrackPage.FeatureImage` | src/app/dadtrack/page.tsx:283-288 | the `features.map` callback: the screenshot is the source, the title is both alt text and title, and the description is the caption |
| `DadTrackPage.LightboxImages` | src/app/dadtrack/page.tsx:283-288 | the viewer gets one image per feature, in the same order, built from that feature |
| `DadTrackPage.NewDadTrackLightbox` | src/app/dadtrack/page.tsx:96-97 | the DadTrack lightbox has six images and starts closed on index 0 |
| `DadTrackPage.DadTrackWrapAround` | src/app/dadtrack/page.tsx:108-114 | previous from 0 gives 5 and next from 5 gives 0 |
| `DadTrackPage.DadTrackFullTurn` | src/app/dadtrack/page.tsx:108-110 | six forward steps return to the start |
| `DadTrackPage.NextSixTimes` | src/app/dadtrack/page.tsx:108-110 | six `goToNext` calls on the page state return to the same index |
| `DadTrackPage.EveryFeatureHasImage` | src/app/dadtrack/page.tsx:281-294 | every valid index shows that feature's screenshot and title |
| `FormWrapper.FormWrapper.constructor` | src/components/form/FormWrapper.tsx:18 | not submitting, no calls yet |
| `FormWrapper.FormWrapper.BeginSubmit` | src/components/form/FormWrapper.tsx:20-27 | accepted exactly when not already submitting and a callback exists; a refused submit changes nothing; an accepted one sets the flag first, then calls the callback once |
| `FormWrapper.FormWrapper.FinishSubmit` | src/components/form/FormWrapper.tsx:28-32 | a rejection is caught and logged, never rethrown; the flag is false afterwards either way |
| `FormWrapper.FormWrapper.HandleSubmit` | src/components/form/FormWrapper.tsx:20-33 | a duplicate or handler-less submit is a no-op; otherwise exactly one call is made with the flag set, and the flag is false at the end |
| `FormWrapper.DoubleSubmit` | src/components/form/FormWrapper.tsx:22 | a second submit while the first is pending is ignored: one call in total, and the form is ready again afterwards |

## Left out

- `src/lib/formSubmit.ts` is not part of this model. It sends a `fetch` in `no-cors` mode and logs to the console. The feedback page sees only its outcome, which is a parameter here.
- Confetti and timers are not modelled. This covers the three confetti bursts and the `setTimeout` that removes `theme-transitioning` after 300 ms. Only the immediate class changes are kept.
- Markup, styling and framer-motion animation are not modelled. This includes TiltCard, Parallax and the other animation components, MobileMenu, Header, Footer, Card, Button and the form inputs.
- The about page, the waitlist redirect, page metadata, `src/lib/constants.ts` and `next.config.ts` are not modelled. They are static content, configuration or foreign calls.
- Empty lists are excluded. In JavaScript, `x % 0` gives NaN, and a carousel with no slides reads a missing slide while rendering. Every slide and image count here is a positive number.
- The counter's text is not modelled. The model gives its two numbers; turning them into digits is React's work.
- React behaviour outside plain sequential updates is not modelled: batching, StrictMode double invocation, and re-renders that do not change state.
- The DadTrack description texts are a parameter of `DadTrackPage.Features` instead of literals. They are page copy and play no part in any property.
- `FeedbackPage.Feedback.SubmitButtonEnabled`: has no contract of its own. On the feedback page a second submit is blocked only because the button is disabled (src/app/feedback/page.tsx:216), and `SubmitTwiceWhilePending` shows that two submit events reaching `handleSubmit` both go through. The browser rule that a disabled button sends no submit event is not modelled.
- `Navigation.JsRem`: states only the range and the sign of the remainder, not the congruence `a ≡ r (mod n)`. The congruence needs nonlinear arithmetic. `JsRemNonNegative` ties JavaScript's `%` to Dafny's `%` wherever the dividend is non-negative, which covers every call site.
- `Theme.ThemeProvider.Mount`: a storage failure is modelled as a thrown error that leaves everything unchanged. What React does with the escaping error (an error boundary, an unmounted tree) is not modelled.
- `Theme.ThemeProvider.ToggleTheme`: `setItem` throws inside the state updater (src/context/ThemeContext.tsx:36-39), which React runs again during the next render, so the error surfaces there rather than in the click handler. The model reports `Thrown` from the toggle with nothing changed; where React raises the error and what it does with it are not modelled.
- `Theme.ThemeProvider.FirstCommit`: the model orders the first commit before the re-render and states the class list in between. Whether a browser paints a frame between the two is up to React's scheduler and is not modelled.
