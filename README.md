# muslim-app-fe: session, registration, verification, theme and root navigation

A Dafny model of the logic inside a React Native front-end for a Muslim
prayer-times app. The app has a sign-in flow (login, registration, e-mail OTP
verification, logout), an onboarding flag, a light/dark theme and a root
navigator that switches between onboarding, sign-in and the main screens.
Everything else in the app is layout.

Modules, one per source file, plus `RegistrationFlow` and three shared ones:

- `AuthContext` (`auth_context.dfy`): `AuthProvider` as a class with the
  fields `userToken`, `isLoading` and `hasOnBoarded`. Its methods are the two
  startup loads, `completeOnBoarding`, `login`, `register`, `verifyEmail` and
  `logout`. Each remote call is an `ApiOutcome`: the response body it returned
  (only the fields the session reads), or the message it threw. Each method
  returns the request body it sent. The device identifier is a parameter. The
  push token is the stub's constant `null`.
- `RegisterForm` (`register_form.dfy`): `registerReducer`, then the eleven
  checks of `handleRegister` as an ordered list with their messages. It also
  has the regular expressions as predicates over strings and the screen class
  whose `HandleRegister` runs the four blocks of checks and calls `register`.
- `VerifyEmail` (`verify_email.dfy`): the guard and error text of
  `handleVerifyOtp`, as a function over how the awaited call ends, and the
  screen class that calls the session's `VerifyEmail`.
- `ThemeContext` (`theme_context.dfy`): the checking of a stored preference,
  the `isDark` derivation, `changeTheme`, `toggleTheme`, the two palettes and
  the choice between them, and `ThemeProvider` as a class.
- `AppStack` (`app_stack.dfy`): the navigator's three-way choice of screen.
- `RegistrationFlow` (`registration_flow.dfy`): the hand-over from the
  registration screen to the verification screen (see Findings).
- `Optional`, `JsText`, `Storage`: `null`-able values; JavaScript white space,
  `trim()` and truthiness; the device key-value store (AsyncStorage) as a
  class `Store` over a `map<string, string>`. Whether a storage call throws is
  a parameter. The session and the theme provider share one `Store`.

Each session operation is one atomic step. Its `isLoading = true` at the start
and `false` in `finally` are both performed. Only the final `false` can be
observed.

The code keeps no user profile. It keeps no device identifier of its own: it
asks `DeviceInfo` on each `login`, `register` and `logout`. `logout` clears the
token only when the remote call returns. There is no `lastError`, and there is
no guard against a second operation starting while one is in flight. The
verification reply is read only in the `{status, data: {token}}` shape.

## Model

| member | source | states |
|---|---|---|
| `AuthContext.AuthProvider.constructor` | src/context/auth-context.tsx:26-28 | on mount there is no token, loading is on and onboarding is not complete |
| `AuthContext.AuthProvider.LoadOnBoardingStatus` | src/context/auth-context.tsx:39-48 | the flag becomes true only when the stored value is exactly `"true"`; a failed read or another value leaves it unchanged; it never goes from true to false |
| `AuthContext.AuthProvider.LoadUserToken` | src/context/auth-context.tsx:55-67 | a stored token is adopted only when it is a non-empty string; absence, `""` or a failed read keep the current token; loading is off afterwards in every case |
| `AuthContext.Mount` | src/context/auth-context.tsx:25-72 | after mount and both loads, loading is off; the flag is set iff the stored value is `"true"` and the read succeeded; the token is the stored one iff that is non-empty and the read succeeded, else none |
| `AuthContext.AuthProvider.CompleteOnBoarding` | src/context/auth-context.tsx:30-37 | `"true"` is written under `hasOnBoarded` and the flag is set only when that write succeeds; a failed write changes nothing |
| `AuthContext.CompleteOnBoardingAgain` | src/context/auth-context.tsx:30-37 | once the flag is set and persisted, completing onboarding again leaves the flag, the store, the token and loading as they were |
| `AuthContext.LoginToken` | src/context/auth-context.tsx:80-81 | a login reply hands over a token iff it returned a body whose `token` is a non-empty string, and that token is the body's |
| `AuthContext.AuthProvider.Login` | src/context/auth-context.tsx:74-93 | sends e-mail, password, device id and a null push token; returns true iff the reply carries a truthy token and storing it succeeds; that token is adopted even when the write fails; otherwise the token and the store are unchanged; loading ends off |
| `AuthContext.RegisterAccepted` | src/context/auth-context.tsx:102 | the only registration reply counted as a success is a returned body whose `status` is `"success"`; a thrown call, a missing body or another status is not |
| `AuthContext.AuthProvider.Register` | src/context/auth-context.tsx:95-112 | returns true iff the reply's `status` is `"success"`; the body's `email`, `password` and `username` keys receive this method's `username`, `email` and `password` arguments (the client's parameter order); the token and the store are untouched; loading ends off |
| `AuthContext.VerifyToken` | src/context/auth-context.tsx:117-118 | a verification reply hands over a token iff its `status` is `"success"` and its `data.token` is non-empty; a thrown call or a missing body hands over none |
| `AuthContext.AuthProvider.VerifyEmail` | src/context/auth-context.tsx:114-130 | sends the e-mail and OTP as given; adopts and persists `data.token` exactly as login does; returns true iff it was adopted and stored; otherwise the token and the store are unchanged; loading ends off |
| `AuthContext.AuthProvider.Logout` | src/context/auth-context.tsx:132-145 | sends the current token, or `""` without one; the token is cleared iff the remote call returns; the stored token is removed iff the call returns and the removal succeeds; a remote failure keeps the session; loading ends off |
| `RegisterForm.Reduce` | src/screens/auth/register-screen.tsx:38-51 | the field the action names takes the payload; each of the other three fields keeps its value |
| `RegisterForm.ReduceDetermined` | src/screens/auth/register-screen.tsx:38-51 | any form that agrees with that description is the reducer's result |
| `RegisterForm.RegisterScreen.Dispatch` | src/screens/auth/register-screen.tsx:57 | dispatching an action replaces the form by the reducer's result |
| `RegisterForm.RegisterScreen.constructor` | src/screens/auth/register-screen.tsx:55-57 | the screen starts with four empty fields and no error |
| `RegisterForm.MatchesUsernameRegex` | src/screens/auth/register-screen.tsx:101 | the anchored pattern, run one character at a time, accepts exactly the non-empty strings whose every character is a letter `a-z`/`A-Z`, a digit, `_`, `.` or `-` |
| `RegisterForm.MatchesEmailRegex` | src/screens/auth/register-screen.tsx:111-112 | the e-mail pattern accepts exactly the strings with no white space, exactly one `@` that is not first, and after it a `.` with text on both sides |
| `RegisterForm.EmailSplitsImpliesShape` | src/screens/auth/register-screen.tsx:111-112 | a string that splits as the e-mail pattern splits it has no white space, exactly one `@` (not first), and after it a `.` with text on both sides |
| `RegisterForm.EmailShapeImpliesSplits` | src/screens/auth/register-screen.tsx:111-112 | every string of that shape splits that way, at its `@` and a `.` after it |
| `RegisterForm.FindsInRange` | src/screens/auth/register-screen.tsx:126-130 | a left-to-right search for one character of a range succeeds iff some character of the string lies in the range |
| `RegisterForm.HasUppercase` | src/screens/auth/register-screen.tsx:126 | `/[A-Z]/` finds a match iff the password has an upper-case ASCII letter somewhere |
| `RegisterForm.HasDigit` | src/screens/auth/register-screen.tsx:130 | `/[0-9]/` finds a match iff the password has an ASCII digit somewhere |
| `RegisterForm.Fails` | src/screens/auth/register-screen.tsx:93-140 | no check rejects a form with a username of 3 or more pattern characters, an e-mail of the accepted shape, a password of 6 or more characters with an upper-case letter and a digit, and an equal confirmation |
| `RegisterForm.BlankUsernameUnmatched` | src/screens/auth/register-screen.tsx:93-101 | a username that is blank after `trim()` also fails the username pattern, so the blank check only picks the message |
| `RegisterForm.BlankEmailUnshaped` | src/screens/auth/register-screen.tsx:107-112 | an e-mail that is blank after `trim()` also lacks the shape the e-mail pattern accepts |
| `RegisterForm.Message` | src/screens/auth/register-screen.tsx:94-141 | each check reports its own text, so the error line tells which check failed: reading the text back gives the check |
| `RegisterForm.FirstFailing` | src/screens/auth/register-screen.tsx:89-143 | the position found is that of a failing check with every earlier check passing, or the end of the list when none fails |
| `RegisterForm.FirstReport` | src/screens/auth/register-screen.tsx:89-143 | no message iff every check of the list passes; otherwise the message of a check that fails while all checks before it pass |
| `RegisterForm.Validate` | src/screens/auth/register-screen.tsx:89-143 | `err` is empty iff all eleven checks pass; otherwise it holds the message of the first check, in source order, that rejects the form, and the form is then not acceptable |
| `RegisterForm.FirstFailingConcat` | src/screens/auth/register-screen.tsx:92-143 | running one list of checks after another fails at the first list's first failure, or else at the second list's, offset by the first list's length |
| `RegisterForm.FirstReportConcat` | src/screens/auth/register-screen.tsx:92-143 | the message reported for two lists run in sequence is the first list's, or else the second's |
| `RegisterForm.ValidateByGroups` | src/screens/auth/register-screen.tsx:92-143 | the whole chain reports what the username, e-mail, password and confirmation blocks report, tried in that order |
| `RegisterForm.ReportsFirstFailure` | src/screens/auth/register-screen.tsx:89-143 | when a check fails and all before it pass, the reported message is that check's |
| `RegisterForm.AcceptableIsValid` | src/screens/auth/register-screen.tsx:92-143 | a username of 3 or more characters from `[a-zA-Z0-9_.-]`, an e-mail of the accepted shape, a password of 6 or more characters with an upper-case letter and a digit, and an equal confirmation pass every check |
| `RegisterForm.ValidIsAcceptable` | src/screens/auth/register-screen.tsx:92-143 | a form that passes every check has exactly those properties |
| `RegisterForm.ValidateNoneIffAcceptable` | src/screens/auth/register-screen.tsx:92-143 | the chain reports no error iff the form has those properties |
| `RegisterForm.CheckUsername` | src/screens/auth/register-screen.tsx:92-104 | blank-after-trim, then untrimmed length below 3, then a character outside the class, each with its own message; the first that applies is reported |
| `RegisterForm.CheckEmail` | src/screens/auth/register-screen.tsx:106-115 | blank-after-trim, then a mismatch of the e-mail pattern; the first that applies is reported |
| `RegisterForm.CheckPassword` | src/screens/auth/register-screen.tsx:117-133 | empty, then shorter than 6, then no `A-Z`, then no `0-9`; the first that applies is reported |
| `RegisterForm.CheckConfirmation` | src/screens/auth/register-screen.tsx:135-143 | empty, then different from the password; the first that applies is reported |
| `RegisterForm.RegisterScreen.HandleRegister` | src/screens/auth/register-screen.tsx:89-155 | the error is cleared and then set to the first failing check's message; `register` is called iff no check fails, exactly once, and each of e-mail, password and username reaches its own body key; navigation happens iff the registration reply is a success; a failed check leaves the session untouched |
| `JsText.Trim` | src/screens/auth/register-screen.tsx:93 | `trim()` gives a slice of its input that neither starts nor ends with white space, and every character cut off on either side is white space |
| `JsText.TrimStartSpec` | src/screens/auth/register-screen.tsx:93 | removing leading white space keeps a suffix that does not start with white space, and everything removed is white space |
| `JsText.TrimEndSpec` | src/screens/auth/register-screen.tsx:107 | removing trailing white space keeps a prefix that does not end with white space, and everything removed is white space |
| `JsText.TrimEmptyIffBlank` | src/screens/auth/register-screen.tsx:93 | `trim()` yields the empty string iff every character is white space |
| `VerifyEmail.EmailFromRoute` | src/screens/auth/verify-email-screen.tsx:52 | the e-mail is the route parameter when present, and `""` otherwise |
| `VerifyEmail.Blocked` | src/screens/auth/verify-email-screen.tsx:53 | the guard stops the submit iff the e-mail or the OTP consists only of white space; without an `email` route parameter it always stops |
| `VerifyEmail.SubmitError` | src/screens/auth/verify-email-screen.tsx:50-62 | a blank e-mail or OTP gives `'Email and OTP are required.'`; a resolved call leaves no error whatever its result; a rejected call gives its message, or `'Email verification failed.'` when that is empty |
| `VerifyEmail.SubmitErrorNeverBlank` | src/screens/auth/verify-email-screen.tsx:53-61 | the error text set by a submit is never the empty string |
| `VerifyEmail.VerifyEmailScreen.constructor` | src/screens/auth/verify-email-screen.tsx:14-15 | the screen starts with an empty code and no error |
| `VerifyEmail.VerifyEmailScreen.SetOtp` | src/screens/auth/verify-email-screen.tsx:75 | the OTP input replaces the code |
| `VerifyEmail.VerifyEmailScreen.HandleVerifyOtp` | src/screens/auth/verify-email-screen.tsx:50-62 | `verifyEmail` is called iff the guard lets the submit through, with the untrimmed e-mail and OTP; the error is the guard's message or none, because the session's call always resolves; after a call the token is adopted and persisted as `verifyEmail` does and loading is off; a blocked submit leaves the session untouched |
| `ThemeContext.ParseTheme` | src/context/theme-context.tsx:88-90 | a stored value is adopted iff it is one of `light`, `dark`, `system`, and the adopted preference is stored under that very name |
| `ThemeContext.ThemeNameRoundTrip` | src/context/theme-context.tsx:88-99 | the name a preference is saved under is read back as that preference |
| `ThemeContext.IsDarkFor` | src/context/theme-context.tsx:78-84 | under `system` the app is dark iff the system scheme is dark; otherwise iff the preference is `dark` |
| `ThemeContext.ToggleTarget` | src/context/theme-context.tsx:186 | the toggle picks an explicit preference (never `system`) under which the app is light when it was dark and dark when it was light, whatever the system scheme |
| `ThemeContext.ColorsFor` | src/context/theme-context.tsx:110-179 | the palette is the dark one iff the app is dark, the light one iff it is not |
| `ThemeContext.ThemeProvider.constructor` | src/context/theme-context.tsx:68-70 | the provider starts with preference `system` and light |
| `ThemeContext.ThemeProvider.RefreshIsDark` | src/context/theme-context.tsx:78-84 | after the effect, `isDark` agrees with the preference and the system scheme |
| `ThemeContext.ThemeProvider.SystemSchemeChanged` | src/context/theme-context.tsx:68 | the system colour scheme is an input that the platform replaces |
| `ThemeContext.ThemeProvider.LoadThemePreference` | src/context/theme-context.tsx:86-95 | a stored preference is adopted iff the read succeeds and it is one of the three names; otherwise the preference is unchanged |
| `ThemeContext.ThemeProvider.ChangeTheme` | src/context/theme-context.tsx:97-108 | the preference becomes the new one even when saving fails; the store holds its name iff the write succeeded |
| `ThemeContext.ThemeProvider.ToggleTheme` | src/context/theme-context.tsx:186 | the preference becomes `light` when the app was dark and `dark` otherwise, and is saved as by `changeTheme` |
| `ThemeContext.ThemeProvider.Colors` | src/context/theme-context.tsx:179 | the provider hands out the dark palette iff `isDark` |
| `ThemeContext.ToggleAndRefresh` | src/context/theme-context.tsx:78-186 | a toggle followed by the effect negates `isDark` and swaps the palette, also under the `system` preference |
| `ThemeContext.ChangeThenRestart` | src/context/theme-context.tsx:86-108 | after a preference is saved, a newly mounted provider loads that preference |
| `AppStack.ScreenFor` | src/navigations/app-stack-navigator.tsx:23-31 | onboarding iff not onboarded, whatever the token; main iff onboarded with a non-empty token; sign-in iff onboarded with a null or empty token; so exactly one screen |
| `AppStack.LoginAndRoute` | src/navigations/app-stack-navigator.tsx:23-31 | login leaves the onboarding flag alone; a user onboarded before a login whose reply carries a token sees the main screens, even when storing the token fails and `login` returns false; a login reply without a token keeps the screen |
| `AppStack.LogoutAndRoute` | src/navigations/app-stack-navigator.tsx:23-31 | logout leaves the onboarding flag alone; a user onboarded before a logout whose call returns sees the sign-in screens; a logout call that throws keeps the screen |
| `AppStack.RegisterKeepsScreen` | src/navigations/app-stack-navigator.tsx:23-31 | registering, whatever the form and the reply, does not change the root screen: it touches neither the token nor the onboarding flag |
| `AppStack.VerifyAndRoute` | src/navigations/app-stack-navigator.tsx:23-31 | a user onboarded before a verification that passes the guard and is answered with a token sees the main screens; a submit the guard stops, or one answered without a token, keeps the screen |
| `AppStack.ChangeThemeKeepsScreen` | src/navigations/app-stack-navigator.tsx:23-31 | changing the theme, even through the store the session uses, does not change the root screen |
| `RegistrationFlow.AsWrittenRouteUnregistered` | src/screens/auth/register-screen.tsx:149 | the route navigated to after registering is neither among the sign-in stack's routes nor one of the root navigator's `on-boarding`, `main` and `auth` |
| `RegistrationFlow.AsWrittenVerifyAlwaysBlocked` | src/screens/auth/register-screen.tsx:149 | the verification screen opened by that navigation has no e-mail, so every submit stops with `'Email and OTP are required.'` |
| `RegistrationFlow.VerifyNavigation` | src/screens/auth/register-screen.tsx:149 | the intended navigation names a registered route and carries the registered e-mail |
| `RegistrationFlow.IntendedVerifyNotBlocked` | src/screens/auth/verify-email-screen.tsx:52-58 | with the intended navigation, after a form that passed every check, any non-blank OTP passes the guard and `verifyEmail` receives the registered e-mail |

## Findings

| source | as written | input that shows it | evidently intended | confidence | as-written member | corrected member |
|---|---|---|---|---|---|---|
| src/screens/auth/register-screen.tsx:149 | after a successful registration the screen navigates without route parameters | any accepted form and any OTP: the verification screen reads `route.params?.email` as `''` and stops every submit with `'Email and OTP are required.'` | pass the registered e-mail, `{ email: state.email }` | high, not executed | `RegistrationFlow.AsWrittenVerifyAlwaysBlocked` | `RegistrationFlow.IntendedVerifyNotBlocked` |
| src/screens/auth/register-screen.tsx:149 | the route name `verify-email` is navigated to | any accepted form: the sign-in stack registers `login-screen`, `register-screen` and `verify-email-screen` (src/navigations/auth-stack-navigator.tsx:11-13), so no navigator handles the action | `verify-email-screen` | high, not executed | `RegistrationFlow.AsWrittenRouteUnregistered` | `RegistrationFlow.VerifyNavigation` |

`RegisterScreen.HandleRegister` keeps the as-written navigation, because the
model follows the code. The intended flow from registration to verification is
stated through `RegistrationFlow.VerifyNavigation`.

## Left out

- The HTTP client (src/api/auth.ts) is not modelled. Each of its four calls becomes an `ApiOutcome`. `Threw` carries the text of a thrown error, but no contract uses it because the session only logs it.
- `DeviceInfo.getUniqueId` is a parameter. If it throws, the session takes the same catch path as a failed remote call. The only extra effect is that no request is sent, and the model does not represent that case.
- Console logging, and the effect-cleanup `setUserToken(null)` on unmount (src/context/auth-context.tsx:69-71), are not modelled.
- React scheduling is not modelled: render batching, the order in which effects run, and two operations in flight at the same time. Each operation is one atomic step, and `RefreshIsDark` stands for the `isDark` effect.
- The transient `isLoading = true` during an operation is not observable in an atomic step. The model states only the final `false`.
- The reducer's `default` branch is not modelled. The declared action type makes it unreachable.
- The catch blocks in `handleRegister` (src/screens/auth/register-screen.tsx:152-154) and `handleVerifyOtp` around the context's calls are not reachable in this app. The context's `register` and `verifyEmail` catch every error themselves. `SubmitError` still models the verify screen's catch for a rejected call.
- The register screen reads an `error` from the session, but the session does not provide one. It is always `undefined` and never shown, so it is not modelled.
- `handleResendOtp` has an empty body. Navigation to the login screen, layout, styling, the login screen, the onboarding carousel, the tab bar and location services are UI or device I/O with no logic to model.
- JavaScript strings are modelled as sequences of Unicode scalar values. `length` is the sequence length rather than the count of UTF-16 code units. White space is the set that `trim()` and `\s` use.
- The values returned by the remote API are modelled by the fields the session reads. A response field of a non-string type is not modelled.
