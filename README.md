# Arcio session, overlay, navigation and form logic in Dafny

This project models the behavioural core of a React Native client for browsing and hosting game worlds. Its data and its network calls are mocked. The model covers:

- **The session store** (`AuthContext`). A reducer over four actions (start, success, failure, logout) folds over an `AuthState` (`user`, `isAuthenticated`, `isLoading`). `AuthStore` is the provider's store. Its `Login`, `Signup`, `VerifyOtp` and `Logout` dispatch the same action sequences as the source, with the simulated delay between two dispatches abstracted away. The store keeps a ghost log of every action dispatched into it. Its invariant says the state is the fold of that log from the initial state, and that a user is present exactly when the session is authenticated.
- **The overlay store** (`OverlayContext`). A class holds `{isVisible, position}`. Four mutators each install the result of a pure updater.
- **The navigators** (`AppNavigation`). The root stack registers Main or Auth, depending only on `isAuthenticated`. The model also holds the Auth stack's screens, the Main drawer's screen and the provider nesting.
- **The login form** (`LoginScreen`). Required-field checks run on the trimmed values and build an error map keyed by field. Editing a field clears that field's error. `login` is called only for a valid form, and it gets the untrimmed data.
- **The OTP form** (`OtpVerificationScreen`). Input is reduced to its first six ASCII digits, the Continue gate is modelled, and `verifyOTP` is called only for a code the OTP validator accepts.
- **The dashboard list** (`MainScreen`). The model holds the three mock worlds and the search filter: a blank query keeps everything, otherwise the result is the worlds whose lower-cased name or owner contains the lower-cased query. It also holds the empty-state versus cards decision.
- **The error boundary** (`ErrorHandling`). It has two states, fine and error with a message, plus a retry and the fallback-versus-children decision.

Two modules support these. `Types` holds the shared records of `src/types/index.ts`. `Text` holds the JavaScript string built-ins the screens use: `trim`, `toLowerCase` and `includes`.

Two consequences of the code are worth stating:
- A start from a signed-in state keeps `user` and `isAuthenticated` and only sets `isLoading` (src/context/AuthContext.tsx:34-38, `AuthContext.Reduce`). So "authenticated and loading" is reachable when a consumer calls `login` on a signed-in store. No screen of the app does this. Every operation that dispatches a start (`login`, `signup`, `verifyOTP`) is started from the Auth flow, which is unmounted while authenticated, and their buttons are disabled while loading.
- In the app no malformed code reaches the store. Continue is the only way to submit, the code only ever holds sanitised input, and Continue is pressable only for six ASCII digits (`OtpScreenState.ContinueEnabled`, `OtpScreenState.PressContinue`). `HandleVerifyOtp` on its own is guarded only by the validator, which this model takes as a parameter.

## Model

| member | source | states |
|---|---|---|
| `AuthContext.Reduce` | src/context/AuthContext.tsx:32-63 | only a start leaves the store loading; a start keeps user and authentication as they were; success signs in with the payload; failure and logout clear the user and authentication; every action keeps "user present iff authenticated" |
| `AuthContext.RunAppend` | src/context/AuthContext.tsx:70 | dispatching two batches of actions in turn gives the same state as dispatching their concatenation |
| `AuthContext.RunKeepsConsistent` | src/context/AuthContext.tsx:32-63 | any sequence of actions from a state where a user is present iff authenticated ends in such a state |
| `AuthContext.ReachableConsistent` | src/context/AuthContext.tsx:25-63 | every state reachable from the initial state has a user exactly when it is authenticated |
| `AuthContext.FailureAndLogoutReset` | src/context/AuthContext.tsx:46-59 | failure and logout give the same state from any input: the initial state (no user, not authenticated, not loading) |
| `AuthContext.LogoutIdempotent` | src/context/AuthContext.tsx:53-59 | logging out twice gives the same state as logging out once |
| `AuthContext.LoginUser` | src/context/AuthContext.tsx:84-90 | the login mock user has id "1" and the identifier as username; its email is the identifier if that contains '@', otherwise the identifier + "@example.com"; so the email always contains '@' and begins with the identifier |
| `AuthContext.LoginActions` | src/context/AuthContext.tsx:77-92 | `login` dispatches two actions: the first puts any state into loading, and the second then settles it signed in as the mock user for the credentials |
| `AuthContext.SignupActions` | src/context/AuthContext.tsx:105-112 | `signup` dispatches two actions: the first puts any state into loading, and the second then settles it in the initial, signed-out state |
| `AuthContext.VerifyOtpActions` | src/context/AuthContext.tsx:125-143 | `verifyOTP` dispatches two actions: the first puts any state into loading, and the second then settles it signed in as the verified user when the code is "123456" and signed out otherwise |
| `AuthContext.LoginSignsIn` | src/context/AuthContext.tsx:76-93 | from any state, login's start-then-success ends signed in as the mock user, not loading |
| `AuthContext.SignupStaysSignedOut` | src/context/AuthContext.tsx:104-113 | from any state, signup's start-then-failure ends with no user, not authenticated, not loading |
| `AuthContext.VerifyOtpOutcome` | src/context/AuthContext.tsx:124-144 | verifyOTP ends authenticated iff the code is "123456", then as user {1, newuser, newuser@example.com}; any other code ends signed out with no user |
| `AuthContext.AuthStore.constructor` | src/context/AuthContext.tsx:70 | the store starts in the initial state with an empty dispatch log |
| `AuthContext.AuthStore.Dispatch` | src/context/AuthContext.tsx:70 | the new state is the reducer applied to the old state; the action is appended to the log; the store invariant is kept |
| `AuthContext.AuthStore.Login` | src/context/AuthContext.tsx:76-98 | dispatches start then success with the mock user, returns true, and ends signed in as that user |
| `AuthContext.AuthStore.Signup` | src/context/AuthContext.tsx:104-118 | dispatches start then failure, returns true, and ends in the initial state |
| `AuthContext.AuthStore.VerifyOtp` | src/context/AuthContext.tsx:124-149 | dispatches start then success or failure; returns true iff the code is "123456"; ends signed in as the verified user exactly then and signed out otherwise |
| `AuthContext.AuthStore.Logout` | src/context/AuthContext.tsx:154-156 | dispatches logout alone and ends in the initial state from any state |
| `OverlayContext.ToggleTwiceRestores` | src/context/OverlayContext.tsx:36-41 | toggling twice restores the original state |
| `OverlayContext.HideShowIdempotent` | src/context/OverlayContext.tsx:56-71 | hide and show are idempotent, and each overrides the visibility set before it |
| `OverlayContext.MoveCommutesWithVisibility` | src/context/OverlayContext.tsx:36-71 | moving and changing visibility touch disjoint parts of the state, so they commute |
| `OverlayContext.OverlayProvider.constructor` | src/context/OverlayContext.tsx:18-24 | the overlay starts hidden at (50, 100) |
| `OverlayContext.OverlayProvider.ToggleOverlay` | src/context/OverlayContext.tsx:36-41 | negates visibility and keeps the position |
| `OverlayContext.OverlayProvider.UpdateOverlayPosition` | src/context/OverlayContext.tsx:46-51 | sets the position to exactly (x, y) and keeps visibility |
| `OverlayContext.OverlayProvider.HideOverlay` | src/context/OverlayContext.tsx:56-61 | hidden afterwards, position kept |
| `OverlayContext.OverlayProvider.ShowOverlay` | src/context/OverlayContext.tsx:66-71 | visible afterwards, position kept |
| `AppNavigation.RootScreens` | src/navigation/AppNavigation.tsx:68-80 | the root stack registers exactly one screen: Main iff authenticated, Auth iff not |
| `AppNavigation.AuthStackShape` | src/navigation/AppNavigation.tsx:29-42 | the Auth stack starts at Login and registers Login, Signup and OTPVerification, each once |
| `AppNavigation.MainDrawerShape` | src/navigation/AppNavigation.tsx:60 | the Main drawer registers exactly one screen, Home |
| `AppNavigation.ProvidersNest` | src/navigation/AppNavigation.tsx:85-95 | providers nest as error boundary, auth provider, overlay provider, root navigator, each once |
| `AppNavigation.RouteFollowsSession` | src/navigation/AppNavigation.tsx:68-80 | in every reachable session state, the dashboard is registered iff a user is signed in, and the login flow iff none is |
| `LoginScreen.WithField` | src/screens/LoginScreen.tsx:44 | the edited field gets the new value and the other field keeps its value |
| `LoginScreen.FormErrors` | src/screens/LoginScreen.tsx:54-67 | a field is a key of the error map exactly when its trimmed value is empty, with "Username or email is required" or "Password is required" as the message |
| `LoginScreen.FormValidIff` | src/screens/LoginScreen.tsx:54-67 | the error map is empty exactly when both fields hold a non-whitespace character |
| `LoginScreen.LoginScreenState.constructor` | src/screens/LoginScreen.tsx:34-38 | the form starts with both fields empty and no errors |
| `LoginScreen.LoginScreenState.UpdateField` | src/screens/LoginScreen.tsx:43-49 | only the named field changes; only that field's error is cleared, and only if one was shown |
| `LoginScreen.LoginScreenState.ValidateForm` | src/screens/LoginScreen.tsx:54-67 | the shown errors become exactly the form's errors; the result is true iff there are none |
| `LoginScreen.LoginScreenState.HandleLogin` | src/screens/LoginScreen.tsx:72-88 | an invalid form leaves the store untouched; a valid one dispatches login's actions for the untrimmed form data and navigates to Main |
| `OtpVerificationScreen.DigitsOnly` | src/screens/OTPVerificationScreen.tsx:44 | removing non-digits leaves only '0'..'9' and never lengthens the input |
| `OtpVerificationScreen.DigitsOnlyAppend` | src/screens/OTPVerificationScreen.tsx:44 | the digits of a concatenation are the digits of each part, in order |
| `OtpVerificationScreen.DigitsOnlyKeepsDigits` | src/screens/OTPVerificationScreen.tsx:44 | a string of digits is left unchanged |
| `OtpVerificationScreen.Sanitize` | src/screens/OTPVerificationScreen.tsx:44 | the result holds only digits, has at most 6 characters, and is the first at most 6 digits of the input in their order |
| `OtpVerificationScreen.SanitizeIdempotent` | src/screens/OTPVerificationScreen.tsx:44 | sanitising an already sanitised value changes nothing |
| `OtpVerificationScreen.SanitizeIgnoresNonDigit` | src/screens/OTPVerificationScreen.tsx:43-44 | typing a non-digit character leaves the code unchanged |
| `OtpVerificationScreen.SanitizeCompleteIff` | src/screens/OTPVerificationScreen.tsx:44 | the code reaches 6 characters exactly when the input has at least 6 digits, and then it is a six-digit code |
| `OtpVerificationScreen.OtpScreenState.constructor` | src/screens/OTPVerificationScreen.tsx:36-37 | the code and the error start empty |
| `OtpVerificationScreen.OtpScreenState.HandleOtpChange` | src/screens/OTPVerificationScreen.tsx:42-51 | the code becomes the sanitised input, any error is cleared, and the code stays all digits and at most 6 long |
| `OtpVerificationScreen.OtpScreenState.ContinueEnabled` | src/screens/OTPVerificationScreen.tsx:116-122 | Continue can be pressed iff the code has 6 characters and no request is loading; then the code is six digits |
| `OtpVerificationScreen.OtpScreenState.ValidateForm` | src/screens/OTPVerificationScreen.tsx:56-62 | returns the validator's verdict; on refusal the error becomes "Please enter a valid 6-digit OTP code", otherwise it is kept |
| `OtpVerificationScreen.OtpScreenState.HandleVerifyOtp` | src/screens/OTPVerificationScreen.tsx:67-83 | a refused code leaves the store untouched; an accepted one dispatches verifyOTP's actions and navigates to Main iff the code is "123456", otherwise raises the failure alert |
| `OtpVerificationScreen.OtpScreenState.PressContinue` | src/screens/OTPVerificationScreen.tsx:116-122 | a press of the enabled Continue runs the submit; whatever the validator accepts, if anything is dispatched the code is six ASCII digits and the dispatch is verifyOTP's actions; the screen navigates to Main iff the validator accepts and the code is "123456" |
| `MainScreen.FilterMatching` | src/screens/MainScreen.tsx:74-77 | the result holds exactly the worlds whose lower-cased name or owner contains the lower-cased query, each as many times as in the input, as an order-preserving subsequence of the input |
| `MainScreen.SearchWorlds` | src/screens/MainScreen.tsx:70-80 | a query that is blank after trimming gives the whole list; otherwise the untrimmed query selects the matching worlds, each as many times as in the list; the result is always a subsequence of the list |
| `MainScreen.SearchIgnoresCase` | src/screens/MainScreen.tsx:74-77 | two queries that differ only in letter case give the same list |
| `MainScreen.SubsequenceKeepsDistinctIds` | src/screens/MainScreen.tsx:173-176 | leaving worlds out of a list with distinct ids keeps the ids distinct, and adds no world |
| `MainScreen.MockIdsDistinct` | src/screens/MainScreen.tsx:33-61 | the mock worlds have distinct ids |
| `MainScreen.RenderWorlds` | src/screens/MainScreen.tsx:173-184 | the "No worlds found" state shows exactly for an empty list; otherwise there is one card per world, in order, keyed by id |
| `MainScreen.MainScreenState.Rendered` | src/screens/MainScreen.tsx:173-184 | while the list was filtered for the current query, the empty state shows exactly for an empty list and the cards shown have distinct keys |
| `MainScreen.RenderedKeysDistinct` | src/screens/MainScreen.tsx:173-176 | for every query, the cards shown have distinct keys |
| `MainScreen.MainScreenState.constructor` | src/screens/MainScreen.tsx:64-65 | the query starts empty and the list starts as all mock worlds |
| `MainScreen.MainScreenState.SetSearchQuery` | src/screens/MainScreen.tsx:70-80 | after a query change and its effect, the list is the search result for the new query |
| `ErrorHandling.DerivedStateFromError` | src/components/ErrorBoundary.tsx:27-32 | after an error, `hasError` is true and the message is the error's message |
| `ErrorHandling.ErrorBoundary.constructor` | src/components/ErrorBoundary.tsx:22-25 | the boundary starts without an error |
| `ErrorHandling.ErrorBoundary.CatchError` | src/components/ErrorBoundary.tsx:27-32 | a caught error installs the derived error state |
| `ErrorHandling.ErrorBoundary.HandleRetry` | src/components/ErrorBoundary.tsx:38-40 | retry resets to the initial state: no error, no message |
| `ErrorHandling.ErrorBoundary.Render` | src/components/ErrorBoundary.tsx:42-72 | the fallback is rendered iff an error is held, otherwise the children are; details show iff it is a development build and the message is non-empty, and they are that message |
| `ErrorHandling.RetryRendersChildren` | src/components/ErrorBoundary.tsx:38-72 | after an error the fallback shows, and after a retry the children show again |
| `Text.TrimStart` | src/screens/LoginScreen.tsx:57 | drops exactly the longest all-whitespace prefix |
| `Text.TrimEnd` | src/screens/MainScreen.tsx:71 | drops exactly the longest all-whitespace suffix |
| `Text.Trim` | src/screens/LoginScreen.tsx:57 | `trim` keeps a contiguous part of the string starting after the longest whitespace prefix; neither end of it is whitespace, and every character outside it is |
| `Text.IsBlank` | src/screens/MainScreen.tsx:71 | `trim() === ''` (and `!trim()`) holds exactly when every character is JavaScript whitespace |
| `Text.ToLower` | src/screens/MainScreen.tsx:75-76 | lower-casing keeps the length and maps each character on its own |
| `Text.ToLowerKeepsBlank` | src/screens/MainScreen.tsx:71-76 | lower-casing a query does not change whether it is blank |
| `Text.Includes` | src/screens/MainScreen.tsx:75-76 | `includes` is true exactly when the substring occurs at some index |

## Left out

- Timers and promises. Each auth operation is its atomic action sequence. Overlapping calls, stale resolutions that overwrite newer state, and updates after unmount are concurrency behaviour and are not modelled.
- The `catch` branches of `login`, `signup` and `verifyOTP`. Nothing in their `try` blocks can throw in the mock, so those branches are unreachable.
- The reducer's `default` branch. It cannot be reached with the four typed actions.
- Framework calls. `navigation.navigate`, `Alert.alert`, `console.log`/`console.error` (including `componentDidCatch`), React's setState batching and re-render scheduling are left out. A screen's submit returns an outcome value that names the navigation or alert it triggers.
- `validateOTP`. It is in `src/utils/validation.ts`, which is not part of this model, so it is a function parameter of the OTP form's methods.
- The signup screen. It depends on the same validation module.
- Presentational components, styles, `CustomDrawerContent`, `App.tsx` font loading and `scripts/dev-helper.js`. These are outside the modelled core.
- `FloatingOverlay` drawing and its press handler, which only logs. The overlay's state and its updaters are modelled in `OverlayContext`.
- `LoginScreen.LoginScreenState.UpdateField`: clearing an error removes the key from the map. The source sets the key to `undefined`. The screen only reads whether a key holds a truthy message, so the two are indistinguishable there.
- `Text.ToLower`: lower-cases only ASCII 'A'..'Z'. JavaScript's full Unicode case mapping is not modelled, so the case-insensitivity results hold for ASCII letters only.
- Trimming uses JavaScript's fixed WhiteSpace and LineTerminator code points, which is the full set `trim` strips.
- Overlay coordinates are `real`. JavaScript numbers are IEEE doubles, but coordinates are only assigned and never computed, so no rounding can arise.
