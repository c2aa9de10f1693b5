# Session gate, auth forms and chat input of the document-chat client

This project is a Dafny model of the stateful parts of a React client for a
document question-answering service. It covers:

- **Credential store** (`authService`). The access token lives in `localStorage`
  under the key `'token'`. `localStorage` is modelled as a class `Storage`
  holding a `map<string, string>`. `getToken`, `setToken`, `logout` and
  `isAuthenticated` are read or written over that map.
- **Session provider** (`AuthProvider`, `useAuth`). A class with the two flags
  `isAuthenticated` and `isLoading`. It has a one-time mount effect that reads
  the token, and `login`, `signup` and `logout`. The remote login/signup call is
  not modelled: its outcome (`Succeeded(response)` or `Rejected(reason)`) is a
  parameter. The provider hands itself to children only once loading is over.
  `useAuth` fails outside a provider.
- **Login and signup forms**. The shared field list is a constant sequence.
  The `forEach` loop that builds the initial form is a method with a loop.
  `handleChange` is a one-key map update. The login page's `handleSubmit` runs
  the `error`/`loading`/navigate lifecycle. The signup page has no submit
  handler and no access to the session.
- **Chat input**. The message list and the input box are fields of a class.
  `handleSendMessage` has a whitespace-trim guard, appends one user message and
  clears the input. `handleKeyPress` sends on Enter without Shift. The send
  button is disabled exactly when the guard would refuse. JavaScript's `trim`
  is modelled on the ECMAScript whitespace and line-terminator code points.

Notes on behaviour:

- The session is authenticated on mount only when the stored token is
  non-empty (`!!token`), not merely present.
- A failed login or signup leaves the session as it was; it does not force it
  to unauthenticated.
- A successful login with an empty `access_token` flags the session
  authenticated, while a provider mounted later over the same storage starts
  unauthenticated (`AuthContext.EmptyTokenLoginThenReload`).
- The chat page only appends the user's own messages: it sends nothing to a
  server and receives no replies. The upload page only toggles its sidebar.
  The route table (`/`, `/signup`, `/upload`) checks no session, and the chat
  page has no route.

## Model

| member | source | states |
|---|---|---|
| `LocalStorage.Storage.GetItem` | src/contexts/AuthContext.tsx:20 | `getItem` yields the stored value exactly when the key is present, and null otherwise |
| `LocalStorage.Storage.SetItem` | src/contexts/AuthContext.tsx:27 | `setItem` overwrites or adds the one key and leaves every other key as it was |
| `LocalStorage.Storage.RemoveItem` | src/contexts/AuthContext.tsx:38 | `removeItem` drops the key if present, keeps the rest, and has no precondition (never fails) |
| `AuthService.GetToken` | src/services/auth.ts:34-36 | the result is present exactly when `'token'` is stored, and is then the stored value |
| `AuthService.IsAuthenticated` | src/services/auth.ts:42-44 | true exactly when a token is stored and it is not the empty string |
| `AuthService.SetToken` | src/services/auth.ts:38-40 | the token is overwritten, `getToken` then returns it, and no other key appears, disappears or changes |
| `AuthService.Logout` | src/services/auth.ts:30-32 | `'token'` is removed; `getToken` is then null and `isAuthenticated` false |
| `AuthService.SetTokenThenGetToken` | src/services/auth.ts:34-40 | round trip: after `setToken(t)`, `getToken()` returns `t`; the store counts as authenticated exactly when `t` is non-empty |
| `AuthService.LogoutTwice` | src/services/auth.ts:30-32 | logging out twice leaves the store as one logout does |
| `AuthContext.AuthProvider.constructor` | src/contexts/AuthContext.tsx:15-16 | a provider starts unauthenticated and loading |
| `AuthContext.AuthProvider.InitEffect` | src/contexts/AuthContext.tsx:18-23 | after the mount effect, `isAuthenticated` holds exactly when a non-empty token is stored, `isLoading` is false, and the flag agrees with `authService.isAuthenticated()` |
| `AuthContext.AuthProvider.Login` | src/contexts/AuthContext.tsx:25-29 | the remote call is sent `{ email, password }`; on success the returned `access_token` is stored under `'token'` and the session is authenticated; on rejection the promise rejects with the same reason and neither the store nor the flag changes; the flag agrees with storage afterwards exactly when the token was non-empty, or on rejection when it agreed before |
| `AuthContext.AuthProvider.Signup` | src/contexts/AuthContext.tsx:31-35 | the signup call is sent `{ email, password }`, with the same effect as `Login`: on success token stored and session authenticated, on rejection nothing changes |
| `AuthContext.AuthProvider.Logout` | src/contexts/AuthContext.tsx:37-40 | `'token'` is removed, the session is unauthenticated, and the flag agrees with storage |
| `AuthContext.AuthProvider.Render` | src/contexts/AuthContext.tsx:42-50 | while loading, the provider renders nothing, so its children are not rendered; otherwise it provides itself, with loading over, as their context |
| `AuthContext.UseAuth` | src/contexts/AuthContext.tsx:54-59 | outside a provider `useAuth` fails with "useAuth must be used within an AuthProvider"; inside one it returns exactly that provider |
| `AuthContext.LogoutTwice` | src/contexts/AuthContext.tsx:37-40 | logout is idempotent: twice gives the store of once, unauthenticated with `isLoading` kept, without failing |
| `AuthContext.EmptyTokenLoginThenReload` | src/contexts/AuthContext.tsx:18-29 | a login answered with an empty `access_token` sets the flag to true, while a fresh provider's mount effect over the same storage sets it to false |
| `AuthForm.InitialFieldState` | src/pages/Login.tsx:24-30 | the `forEach` spread loop yields a map whose keys are exactly the field names, each mapped to `''` (SignUp.tsx runs the same loop at lines 17-23) |
| `AuthForm.AuthFieldNames` | src/constant/authForm.ts:1-14 | the shared field list names exactly `email` and `password` |
| `AuthForm.WithField` | src/pages/Login.tsx:33-38 | the spread update sets the named key to the new value, keeps every other key's value, and loses no key |
| `Login.SubmitLabel` | src/pages/Login.tsx:92 | the submit button reads "Logging in..." exactly when loading, and "Login" otherwise |
| `Login.LoginPage.constructor` | src/pages/Login.tsx:20-31 | the login form starts with exactly `email` and `password` mapped to `''`, no error, not loading, no navigation |
| `Login.LoginPage.HandleChange` | src/pages/Login.tsx:33-38 | only the key named by the event changes; error, loading and navigation are untouched, and both form keys stay present |
| `Login.LoginPage.HandleSubmit` | src/pages/Login.tsx:40-54 | while `login` is awaited the error is `''` and loading is true (label "Logging in..."); `login` is sent the form's email and password; on success the page navigates to `/upload` with error `''`, the token is stored and the session authenticated; on failure the error is "Invalid email or password", there is no navigation and the session and store are unchanged; loading is false afterwards either way |
| `Login.LoginPage.GoToSignUp` | src/pages/Login.tsx:103-107 | the "Create an account" button navigates to `/signup` and changes no form state |
| `SignUp.SignUpPage.constructor` | src/pages/SignUp.tsx:16-24 | the signup form starts with exactly `email` and `password` mapped to `''` |
| `SignUp.SignUpPage.HandleChange` | src/pages/SignUp.tsx:25-30 | only the key named by the event changes; all others keep their values |
| `SignUp.SignUpPage.OnLoginButtonClick` | src/pages/SignUp.tsx:73-77 | the "Login into an existing account" handler changes nothing |
| `Text.Trim` | src/pages/Chat.tsx:38 | `trim()` is `s` with a blank prefix and a blank suffix cut off; it is empty exactly when every character is whitespace; a non-empty result neither starts nor ends with whitespace |
| `Chat.SendDisabled` | src/pages/Chat.tsx:103-108 | the send button is disabled exactly when the input is blank |
| `Chat.Send` | src/pages/Chat.tsx:37-48 | blank input leaves messages and input unchanged; otherwise exactly one user message with the untrimmed input is appended after all earlier messages, and the input becomes `''` |
| `Chat.DisabledIffSendIsNoOp` | src/pages/Chat.tsx:38 | the button's disabled predicate and the send guard agree: disabled exactly when a send would change nothing |
| `Chat.SendKeepsUserMessagesOnly` | src/pages/Chat.tsx:37-48 | if every message is a non-blank user message, that still holds after a send |
| `Chat.ChatInterface.constructor` | src/pages/Chat.tsx:21-22 | the page starts with no messages and an empty input |
| `Chat.ChatInterface.OnInputChange` | src/pages/Chat.tsx:95 | typing replaces the input and leaves the messages alone |
| `Chat.ChatInterface.HandleSendMessage` | src/pages/Chat.tsx:37-48 | the new page state is `Send` of the old one: unchanged when the button would be disabled, otherwise one user message with the old input appended and the input cleared; the user-messages-only invariant is kept |
| `Chat.ChatInterface.HandleKeyPress` | src/pages/Chat.tsx:50-55 | the default action is prevented and a send attempted exactly on Enter without Shift; every other key leaves the page state unchanged |

## Left out

- The HTTP layer (`./api`, axios) behind `authService.login` and `authService.signup`: these are network calls. The model passes their outcome in as a parameter, and the request bodies are only datatypes.
- Async interleaving: each handler runs as one atomic step. For `handleSubmit`, the state a render shows while `login` is awaited is returned as a snapshot. Two overlapping submits are not modelled.
- The browser's native constraint validation: both inputs carry `required`, so the browser does not fire `onSubmit` while email or password is empty. `Login.LoginPage.HandleSubmit` accepts such a form, and `AuthForm.Field.required` is carried but not acted on.
- `e.preventDefault()` in `handleSubmit`, and the browser's native form submission on the signup page (its form has no `onSubmit`). The signup page holds no reference to the session, so no operation of it can log anyone in.
- `navigate` is recorded as the last route it was called with. Routing itself (`App.tsx`) is a static route table and is not modelled.
- `Date.now()` and `new Date()` in `handleSendMessage` read the clock. The message id and timestamp are parameters.
- `scrollIntoView` on new messages, the sidebar toggle, `useParams`, the fixed file preview and the three quick-action buttons, which have no handlers. These are rendering or DOM behaviour.
- `Sidebar.tsx` click-outside handling, `DocumentUpload.tsx` (only a sidebar toggle), `Button.tsx` and `InputField.tsx`: layout with no state logic.
- `useAuth.tsx` re-exports `useAuth` unchanged, so `AuthContext.UseAuth` models both.
- `Storage` does not model `localStorage` quota errors, or sharing storage between browser tabs.
