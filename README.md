# SchoolHub client-side authentication, modelled in Dafny

This project models the two client-side authentication components of SchoolHub.

- **The one-time-passcode login page** (`app/auth/login/page.tsx`, module `Login`).
  It has an email phase and a code phase. One busy flag gates both submit buttons.
  The code field keeps only the digits 0-9.
- **The navigation bar** (`components/navigation.tsx`, module `Navigation`).
  It shows which links are visible and which one is active. It picks the Login or Logout control and shows the user's name.
  It also observes the identity provider's session: an initial fetch, a change listener, and sign-out.

Shared values are in module `AuthTypes`. These are the provider's user and session, how a provider call settles, and the effect log.
Module `Strings` models JavaScript's `split` with a one-character separator. The navigation bar uses it to show the part of an email before the `@`.

Each asynchronous handler is split at its `await` into two methods:

- a Submit or Click method, which runs the code before the `await`;
- a Resolved method, which runs the code after it.

Other events can come between the two, for example pressing Back while a code is being verified. This follows the source, which has no guard against that.
`Handle*` methods compose the two halves for the case where nothing comes in between.
Provider calls that change provider-side state, and router calls, are appended to an `effects` log in the order they are issued.
`getUser` has no side effects, so it is not logged.
The answer of each provider call is a parameter of the Resolved method.

Where the design description and the code disagree, the model follows the code:

- Sign-out navigates home and closes the panel whenever the `signOut` promise fulfils, even with an `{ error }` answer, because the code does not inspect the result. It does not wait for a confirmed sign-out. If the promise rejects, the `await` throws, there is no `try`, and neither the navigation nor the closing happens (`SignOutThrew`).
- Nothing stops a pending initial fetch from updating state after unmount. `InitialFetchResolved` therefore does not require the component to be mounted.
- The code field does not truncate anything itself. Its `maxLength` makes the browser keep the raw value to at most 6 characters, and the filter then removes the non-digits. `EditCode` takes that bound as a precondition.
- The error paragraph is rendered with `error && …`. A failure whose message is the empty string therefore sets a non-null error that is not shown (`ErrorShown`, `FailureMessageShown`).

## Model

| member | source | states |
|---|---|---|
| `Login.DigitsOnly` | app/auth/login/page.tsx:127 | the filtered code is all digits and no longer than the input |
| `Login.DigitsOnlyIsSubsequence` | app/auth/login/page.tsx:127 | the filter only deletes: the kept digits are a subsequence of the input, in their original order |
| `Login.DigitsOnlyKeepsEveryDigit` | app/auth/login/page.tsx:127 | every digit of the input is kept, as many times as it occurs, and no other character is |
| `Login.DigitsOnlyFixesDigitStrings` | app/auth/login/page.tsx:127 | the filter leaves a string unchanged if and only if the string is all digits |
| `Login.DigitsOnlyIdempotent` | app/auth/login/page.tsx:127 | filtering an already filtered code changes nothing |
| `Login.DigitsOnlyAppend` | app/auth/login/page.tsx:127 | the filter works character by character: filtering a concatenation concatenates the filtered parts |
| `Login.VerifyEnabled` | app/auth/login/page.tsx:145 | Verify is enabled if and only if Send would be (not loading) and the code has exactly 6 characters |
| `Login.SendEnabled` | app/auth/login/page.tsx:106 | Send is enabled if and only if no call is outstanding |
| `Login.ErrorShown` | app/auth/login/page.tsx:105 | an error paragraph is shown if and only if the error is non-null and non-empty |
| `AuthTypes.MessageOr` | app/auth/login/page.tsx:74 | the caught value's message when it is an `Error`, the fallback otherwise |
| `Login.FailureMessageShown` | app/auth/login/page.tsx:50-51 | after a failed send or verify, the error is shown if and only if the caught value is not an `Error` (so a default message is used) or its message is non-empty |
| `Login.LoginPage.constructor` | app/auth/login/page.tsx:14-18 | initial state: empty email and code, email phase, no error, not loading, nothing logged |
| `Login.LoginPage.CheckAuthResolved` | app/auth/login/page.tsx:21-32 | on mount, a reported user adds exactly `push("/")`; no user adds nothing; no other state changes |
| `Login.LoginPage.EditEmail` | app/auth/login/page.tsx:102 | the email changes only in the email phase; the code-phase field is read-only (line 116) |
| `Login.LoginPage.EditCode` | app/auth/login/page.tsx:124-127 | the stored code is the digits of the field value: all digits, at most 6, a subsequence of what was typed |
| `Login.LoginPage.SubmitEmail` | app/auth/login/page.tsx:34-46 | sets loading, clears the error, requests a code for the email with user creation on; both submits are then disabled |
| `Login.LoginPage.SendResolved` | app/auth/login/page.tsx:47-54 | success enters the code phase; failure keeps the email phase with the message or "Failed to send OTP"; loading always ends |
| `Login.LoginPage.SubmitCode` | app/auth/login/page.tsx:57-68 | only a complete 6-digit code can be submitted; sets loading, clears the error, logs `verifyOtp(email, code, "email")` |
| `Login.LoginPage.VerifyResolved` | app/auth/login/page.tsx:70-77 | success logs `push("/")` then `refresh()`; failure sets the message or "Invalid OTP" and logs nothing; the phase is untouched; loading always ends |
| `Login.LoginPage.Back` | app/auth/login/page.tsx:136-140 | returns to the email phase with an empty code and no error; the email is kept |
| `Login.LoginPage.HandleSendOTP` | app/auth/login/page.tsx:34-55 | the whole handler: one request logged, code phase if and only if success, error exactly on failure, not loading at the end |
| `Login.LoginPage.HandleVerifyOTP` | app/auth/login/page.tsx:57-78 | the whole handler: the phase stays the code phase; navigation (push then refresh) if and only if success; not loading at the end |
| `Navigation.NavigationItems` | components/navigation.tsx:71 | the public links always come first, and more links follow if and only if a user is present |
| `Navigation.NavigationItemsShape` | components/navigation.tsx:71 | the public links always come first; the protected links follow exactly when a user is present; "/add-school" is visible if and only if there is a user |
| `Navigation.NavigationItemsDistinct` | components/navigation.tsx:13-32 | the visible links have pairwise distinct names (the React keys) and targets |
| `Navigation.IsActive` | components/navigation.tsx:93 | a link is active if and only if the current path equals its target; `ActiveItemsAtMostOne` shows that at most one visible link is |
| `Navigation.ActiveItems` | components/navigation.tsx:93 | the highlighted links are visible links whose target is the current path |
| `Navigation.ActiveItemsAtMostOne` | components/navigation.tsx:93 | with distinct targets, at most one link is highlighted, and one is if and only if the path is among the targets |
| `Navigation.OneActiveLink` | components/navigation.tsx:91-93 | on the bar, at most one visible link is highlighted, and one is if and only if the path is a visible target |
| `Navigation.DesktopAuthControl` | components/navigation.tsx:116-141 | Logout is shown if and only if loading is over and there is a user; Login if and only if loading is over and there is none |
| `Navigation.MobileAuthControl` | components/navigation.tsx:165-198 | the panel shows a control if and only if loading is over: Logout if and only if there is a user, Login if and only if there is none |
| `Navigation.AuthControlsAgree` | components/navigation.tsx:165-198 | the mobile panel shows the desktop's control once loading is over, and no control while loading |
| `Navigation.DesktopUserLabel` | components/navigation.tsx:122 | the name shown is the part of the email before the first '@': it has no '@', it is a prefix of the email, and it stops exactly at the first '@' |
| `Navigation.MobileUserLabel` | components/navigation.tsx:171 | the panel shows the whole email, present exactly when the desktop name is, and the desktop name is a prefix of it |
| `Navigation.LabelsAgreeWithoutAt` | components/navigation.tsx:171 | for an email without '@', the desktop name equals the full email shown on mobile |
| `Strings.Split` | components/navigation.tsx:122 | `split` returns at least one piece, and no piece contains the separator |
| `Strings.JoinSplit` | components/navigation.tsx:122 | joining the pieces of a split with the separator gives back the string |
| `Strings.SplitJoin` | components/navigation.tsx:122 | splitting a join of separator-free pieces gives back the pieces |
| `Strings.BeforeFirst` | components/navigation.tsx:122 | the first piece has no separator, is a prefix of the string, and ends at the first separator |
| `Strings.BeforeFirstWhole` | components/navigation.tsx:122 | a string without the separator is its own first piece |
| `Navigation.NavBar.constructor` | components/navigation.tsx:35-37 | initial state: panel closed, no user, loading |
| `Navigation.NavBar.Mount` | components/navigation.tsx:52-57 | mounting issues one fetch and registers exactly one listener |
| `Navigation.NavBar.Unmount` | components/navigation.tsx:62 | the cleanup removes that listener |
| `Navigation.NavBar.MountThenUnmount` | components/navigation.tsx:55-62 | after mount then unmount, the number of listeners is what it was before |
| `Navigation.NavBar.InitialFetchResolved` | components/navigation.tsx:44-49 | the fetched user replaces the user and loading ends; only `user` and `isLoading` change |
| `Navigation.NavBar.AuthStateChanged` | components/navigation.tsx:57-60 | the user becomes the session's user, or none without a session; loading ends; "/add-school" is visible if and only if there is a session |
| `Navigation.NavBar.SetOpen` | components/navigation.tsx:146 | the panel is opened or closed as requested |
| `Navigation.NavBar.MobileItemClicked` | components/navigation.tsx:215 | clicking a link in the open panel closes it and changes nothing else |
| `Navigation.NavBar.MobileLoginClicked` | components/navigation.tsx:189 | clicking the mobile Login button closes the panel and changes nothing else |
| `Navigation.NavBar.SignOutClicked` | components/navigation.tsx:65-66 | a loaded, signed-in user's Logout logs the provider's sign-out |
| `Navigation.NavBar.SignOutResolved` | components/navigation.tsx:67-68 | after the sign-out promise fulfils, with whatever value, `push("/")` is logged and the panel is closed; the user is left for the listener |
| `Navigation.NavBar.SignOutThrew` | components/navigation.tsx:65-69 | when the sign-out promise rejects, the handler stops at the `await`: nothing is logged, the panel and the user are unchanged |
| `Navigation.NavBar.HandleSignOut` | components/navigation.tsx:65-69 | the whole handler: sign-out, then, only if the promise fulfils, `push("/")` and the panel closed; on rejection only the sign-out call is logged and the panel is unchanged |

Loading never comes back in the navigation bar. Only the constructor sets `isLoading` to true. The two events that touch it set it to false, and no other method has it in its `modifies` frame.

## Left out

- The provider's client (`getUser`, `onAuthStateChange`, `signInWithOtp`, `verifyOtp`, `signOut`) is foreign code. The model takes its answers as parameters: a user or none, a session or none, success or a caught value, a fulfilled or a rejected promise.
- A rejection that escapes `handleSignOut` becomes an unhandled promise rejection in the browser; the model only records that the handler stops.
- The auth-change listener ignores the event name. The model leaves the name out.
- `e.preventDefault()` and form submission are browser behaviour. So are `type="email"`, `required` and the enforcement of `maxLength`. The model only assumes the resulting bound on the code field's value.
- Navigation by `Link` clicks is done by the framework. Only `router.push` and `router.refresh` calls are logged.
- `usePathname` is a parameter (`pathname`) of the view functions.
- Rendering, class names, icons and the `cn` helper are presentation only.
- Two things about asynchrony are not modelled. One is the order in which the initial fetch and an early auth-change event arrive. The other is any re-run of the effect other than mount and unmount. Each answer is one atomic event.
