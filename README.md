# Client authentication session — Dafny model

This project models the client-side authentication session of a small login and
registration frontend:

- **Session store** (`auth_slices.dfy`, module `AuthSlices`). The login slice
  (`token`, `isAuthenticated`, `isLoading`, `error`) and the registration slice
  (`isRegistered`, `isLoading`, `error`). Each is a class with one method per action,
  and each method assigns fields in place. The two async thunks `loginUser` and
  `registerUser` are modelled as explicit calls: `Pending()`, then `Fulfilled(..)` or
  `Rejected(msg)`. The function that picks the action a resolved call dispatches holds
  the thunks' error normalisation, which turns a failed call into a message.
  - The pure reducers `LoginReduce` and `RegisterReduce` specify the class methods.
  - `LoginRun` and `RegisterRun` replay a sequence of dispatched actions. This is how
    the lemmas state properties of whole sessions, including the last-resolved-wins
    race between a logout and a late reply.
- **Gateway outcomes** (`auth_service.dfy`, module `AuthService`). A call to the
  authentication API is a resolved `Result`: the login reply `{timestamp, data: {token}}`,
  or a failure. A failure has either no HTTP response, or a response whose `data` is
  missing, plain text or an object with an optional `message`.
- **Form validation** (`auth_schema.dfy`, module `AuthSchema`). These are the login and
  registration field checks and their exact messages. Each yields the set of violation
  messages per field. The library's email test is not visible, so it is a parameter
  `isEmail`. Lengths are JavaScript lengths in UTF-16 code units (`Utf16Length`).
- **Navigation gate** (`app.dfy`, module `App`). `ProtectedRoute` and `PublicRoute`
  decide between rendering and redirecting, based only on `isAuthenticated`. The router
  table maps `/`, `/login` and `/register`. `Navigate` follows the redirects that
  rendering a `<Navigate>` causes.

What the code does and does not guarantee, as the model states it:

- `isAuthenticated` and `isLoading` are not kept exclusive. A login started
  while signed in is both (`LoadingWhileAuthenticated`).
- A rejected login does not clear `token` or `isAuthenticated` (`RejectionKeepsSession`).
- `fulfilled` does not touch `error`. The error is null after a success only because
  `pending` cleared it (`PendingThenFulfilled`).
- The invariant that does hold, and is proved for every action sequence, is that
  `isAuthenticated` is true exactly when `token` is non-null.
- The router table has no `/dashboard` entry. A signed-in visitor to `/`, `/login` or
  `/register` therefore ends on a path the table does not match (`SignedInEndsAtDashboard`).
  `ProtectedRoute` is defined but not used by the table.

## Model

| member | source | states |
|---|---|---|
| `AuthSlices.RejectMessage` | src/store/slices/authSlices.ts:39-44 | the rejection text is never empty; with no response body it is "Network error occurred"; with a body it is the server's truthy `message` verbatim, else the fallback |
| `AuthSlices.LoginUserSettles` | src/store/slices/authSlices.ts:35-45 | a successful call dispatches fulfilled with the reply unchanged; a failed one dispatches rejected with a non-empty message: the network text when there is no response body, the server's truthy `message` verbatim whenever there is one, else "Failed to login" |
| `AuthSlices.RegisterUserSettles` | src/store/slices/authSlices.ts:51-60 | success dispatches fulfilled; failure dispatches rejected with the network text when there is no response body, the server's truthy `message` verbatim whenever there is one, else "Failed to register" |
| `AuthSlices.ThunksDifferOnlyInFallback` | src/store/slices/authSlices.ts:39-58 | the two thunks give the same message exactly when the failure has no body or carries a truthy server message |
| `AuthSlices.InitialLoginConsistent` | src/store/slices/authSlices.ts:18-23 | the initial login state is anonymous, idle and satisfies `isAuthenticated == (token != null)` |
| `AuthSlices.LoginReduceConsistent` | src/store/slices/authSlices.ts:66-89 | every login action preserves `isAuthenticated == (token != null)` |
| `AuthSlices.LoginRunConsistent` | src/store/slices/authSlices.ts:66-89 | any sequence of login actions preserves that invariant |
| `AuthSlices.ReachableLoginConsistent` | src/store/slices/authSlices.ts:18-89 | every state reachable from the initial state satisfies the invariant |
| `AuthSlices.LoginPendingEffect` | src/store/slices/authSlices.ts:77-80 | pending sets loading, clears the error and keeps token and authentication |
| `AuthSlices.LoginFulfilledEffect` | src/store/slices/authSlices.ts:81-85 | from any state, even an inconsistent one, fulfilled yields a consistent session holding exactly the reply's `data.token`, not loading, with the error it had before |
| `AuthSlices.PendingThenFulfilled` | src/store/slices/authSlices.ts:77-85 | pending then fulfilled ends in `{token, true, false, null}` from any state |
| `AuthSlices.LoginRejectedEffect` | src/store/slices/authSlices.ts:86-89 | rejected keeps `token` and `isAuthenticated`, so the result is consistent exactly when the state before was; the error is the payload and loading ends |
| `AuthSlices.RejectionKeepsSession` | src/store/slices/authSlices.ts:77-89 | a failed attempt made while signed in keeps the session and its token |
| `AuthSlices.LoadingWhileAuthenticated` | src/store/slices/authSlices.ts:77-80 | pending while signed in gives a state that is both authenticated and loading |
| `AuthSlices.LogoutEffect` | src/store/slices/authSlices.ts:66-70 | logout clears token, authentication and error and keeps `isLoading`; from an idle state the result is the initial state |
| `AuthSlices.LateFulfilmentAfterLogout` | src/store/slices/authSlices.ts:66-85 | a reply that resolves after a logout still signs the session in with its token |
| `AuthSlices.LoginScenario` | src/store/slices/authSlices.ts:35-45 | a reply with token "abc123" takes the initial store to `{"abc123", true, false, null}` |
| `AuthSlices.LoginSlice.constructor` | src/store/slices/authSlices.ts:18-23 | the slice starts in the initial login state |
| `AuthSlices.LoginSlice.Logout` | src/store/slices/authSlices.ts:66-70 | clears token, authentication and error; `isLoading` unchanged; re-establishes the invariant |
| `AuthSlices.LoginSlice.ClearLoginError` | src/store/slices/authSlices.ts:71-73 | only `error` changes, to null |
| `AuthSlices.LoginSlice.Pending` | src/store/slices/authSlices.ts:77-80 | loading on, error cleared, token and authentication unchanged |
| `AuthSlices.LoginSlice.Fulfilled` | src/store/slices/authSlices.ts:81-85 | loading off, token is the reply's token, authenticated, error unchanged; establishes the invariant |
| `AuthSlices.LoginSlice.Rejected` | src/store/slices/authSlices.ts:86-89 | loading off, error is the payload, token and authentication unchanged |
| `AuthSlices.ResetYieldsInitial` | src/store/slices/authSlices.ts:100-104 | reset gives exactly the initial registration state |
| `AuthSlices.RegisterLifecycleEffect` | src/store/slices/authSlices.ts:108-119 | fulfilled registers and ends loading; pending and rejected never change `isRegistered` |
| `AuthSlices.OnlyResetUnregisters` | src/store/slices/authSlices.ts:97-119 | the only action that turns `isRegistered` from true to false is reset |
| `AuthSlices.RegisteredUntilReset` | src/store/slices/authSlices.ts:97-119 | once registered, any action sequence without a reset keeps `isRegistered` true |
| `AuthSlices.RegisterScenario` | src/store/slices/authSlices.ts:51-60 | a reply `{message: "email taken"}` takes the initial slice to `{false, false, "email taken"}` |
| `AuthSlices.RegisterSlice.constructor` | src/store/slices/authSlices.ts:25-29 | the slice starts in the initial registration state |
| `AuthSlices.RegisterSlice.ClearRegisterError` | src/store/slices/authSlices.ts:97-99 | only `error` changes, to null |
| `AuthSlices.RegisterSlice.ResetState` | src/store/slices/authSlices.ts:100-104 | the slice is back in its initial state |
| `AuthSlices.RegisterSlice.Pending` | src/store/slices/authSlices.ts:108-111 | loading on, error cleared, `isRegistered` unchanged |
| `AuthSlices.RegisterSlice.Fulfilled` | src/store/slices/authSlices.ts:112-115 | loading off, registered, error unchanged |
| `AuthSlices.RegisterSlice.Rejected` | src/store/slices/authSlices.ts:116-119 | loading off, error is the payload, `isRegistered` unchanged |
| `AuthSchema.Utf16Length` | src/schema/authSchema.tsx:8-11 | the JavaScript length of a string is between its number of characters and twice that, and zero only for the empty string |
| `AuthSchema.Utf16LengthBmp` | src/schema/authSchema.tsx:24-26 | on text inside the Basic Multilingual Plane the JavaScript length is the character count |
| `AuthSchema.EmailIssues` | src/schema/authSchema.tsx:4-7 | "Email is required" exactly for the empty email; "Invalid email format" exactly when it is not email-shaped; no other message |
| `AuthSchema.LoginIssuesOf` | src/schema/authSchema.tsx:3-13 | email issues as above; "Password is required" exactly for an empty password; "Password must be at least 8 characters" exactly when its length is below 8 |
| `AuthSchema.LoginAcceptedExactly` | src/schema/authSchema.tsx:3-13 | a login form is accepted iff the email is non-empty and email-shaped and the password length is at least 8 |
| `AuthSchema.EmptyPasswordBothMessages` | src/schema/authSchema.tsx:8-11 | an empty password gets both password messages |
| `AuthSchema.RememberMeIrrelevant` | src/schema/authSchema.tsx:12 | an absent or present `rememberMe` never changes the violations |
| `AuthSchema.RegisterIssuesOf` | src/schema/authSchema.tsx:16-27 | "Fullname is required" exactly for an empty full name; email as for login; only "Password need to have at least 8 characters" for a short password |
| `AuthSchema.RegisterAcceptedExactly` | src/schema/authSchema.tsx:16-27 | a registration form is accepted iff the login rules hold and the full name is non-empty |
| `AuthSchema.ShortRegisterPasswordRejected` | src/schema/authSchema.tsx:24-26 | the password "short" is rejected with the registration length message |
| `App.ProtectedRoute` | src/App.tsx:8-16 | renders iff authenticated; otherwise redirects to "/login" |
| `App.PublicRoute` | src/App.tsx:18-26 | renders iff not authenticated; otherwise redirects to "/dashboard" |
| `App.ExactlyOneGuardRenders` | src/App.tsx:11-25 | for either value of `isAuthenticated` exactly one guard renders |
| `App.Route` | src/App.tsx:28-43 | "/" always redirects to "/login"; "/login" and "/register" go through the public guard; any other path, compared as an exact string, is unmatched |
| `App.SettlesWithinTwoRedirects` | src/App.tsx:28-43 | every visit ends on a page or an unmatched path after at most two redirects |
| `App.SignedInEndsAtDashboard` | src/App.tsx:18-43 | a signed-in visitor to "/", "/login" or "/register" ends at "/dashboard", which no route matches |
| `App.AnonymousRootShowsLogin` | src/App.tsx:29-35 | an anonymous visitor to "/" is shown the login page at "/login" |

## Left out

- The HTTP transport of `src/services/authService.ts` (axios, the API URL, request bodies). A call is given as its resolved outcome.
- The asynchronous dispatch machinery of the thunks. Overlapping requests are modelled only as an explicit order of actions.
- The email-shape regular expression of the validation library. It is a parameter `isEmail` of every rule.
- The library's issue ordering and early-abort behaviour. The violations are sets of messages per field.
- A server `message` that is a truthy non-string (a number, say). The model takes `message` as an optional string.
- A successful login reply without `data.token`. The model's reply type always has it.
- JavaScript strings with lone surrogates. Dafny characters are Unicode scalar values.
- The persistence of the token across restarts, which is done by an external storage layer.
- React Router's rendering and history handling. `Navigate` models only the redirect chain.
- App.Route: paths are matched as exact strings. The router's case-insensitive matching and its acceptance of a trailing slash (`/Login`, `/login/`) are not modelled, so such paths are `NotFound` in the model but reach the public guard in the program.
- The submission gating and side effects in `src/pages/RegisterPage.tsx`. This covers sending a form only when it validates, navigating on `isRegistered`, and the toast followed by `clearRegisterError`. That file is not part of this model.
- Provider wiring in `src/providers.tsx`. It has no logic.
