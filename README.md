# Session layer of the blog admin panel, in Dafny

This project models the client-side session layer of a browser admin panel
for a blog platform: the authentication context that holds the signed-in
user (`AuthProvider`, `useAuth`), the authorised request wrapper
(`useApi().fetchWithAuth`) and the administrator-only route guard
(`AdminProtectedRoute`). The rest of the panel (pages, forms, CRUD screens)
only calls into these three and is not modelled.

Files:

- `wrappers.dfy` — `Option` and `Result`.
- `http.dfy` — the Fetch API values the layer touches: header maps,
  `RequestInit`, requests, responses, a settled `fetch` and JavaScript errors.
- `session.dfy` — module `Session`: the provider's state (`user`,
  `isLoading`, `localStorage`, the router's path), its transitions as pure
  functions (`RestoreStep`, `LoginStep`, `LogoutStep`, `Step`, `Run`), the
  invariant that memory and storage agree, `useAuth`, and the class
  `AuthProvider` whose methods update the same state in place and are proved
  to perform exactly those transitions.
- `api.dfy` — module `Api`: outgoing headers and options, the 401 rule and
  `FetchWithAuth`.
- `guard.dfy` — module `RouteGuard`: the render and redirect decision.

Choices made in the model:

- `fetch`, `localStorage`, the router and `window.location` are not called.
  A `fetch` result is an input (`Reply`, `LoginReply`). Storage is a map
  field. Navigation is the provider's `location` field or, for the wrapper,
  a returned `navigateTo` path.
- `JSON.parse` is modelled as partial. A stored entry is either the encoding
  of a `User` (`Encoded`) or text the parser rejects (`Malformed`). A
  non-empty malformed entry makes the mount effect throw before it clears
  `isLoading` (contexts/AuthContext.tsx:30-34). What React then does with
  the exception thrown from the effect is not modelled. The empty string is
  falsy and is skipped like an absent key.
- The session token is a parameter of `FetchWithAuth`. As written, `useApi`
  reads `sessionToken` from a context value that has no such field; this is
  modelled separately by `Api.UseApiToken` (see Findings).
- Where one might expect otherwise, the model follows the code:
  - A 401 does not clear the session. It only redirects and throws
    (utils/api.ts:19-23). `Api.UnauthorizedReloadRestoresStaleUser` shows
    the result: the reload restores the same stale user from storage.
  - `Content-Type` is overwritten even when the caller set one
    (utils/api.ts:8).
  - A malformed stored entry is not treated as "logged out". The mount
    effect throws before it clears `isLoading`.
  - There is no bearer token in the session state, only the signed-in user.

## Model

| member | source | states |
|---|---|---|
| `Session.Initial` | contexts/AuthContext.tsx:24-25 | the provider starts with no user and `isLoading` true, over the storage it is given |
| `Session.AuthProvider.constructor` | contexts/AuthContext.tsx:23-26 | a new provider's fields are exactly the initial state, and the invariant holds |
| `Session.RestoreStep` | contexts/AuthContext.tsx:29-35 | restore never touches storage or location; it throws exactly when `"user"` holds non-empty malformed text, and then changes nothing; otherwise `isLoading` becomes false and `user` becomes the stored record if there is one, else stays as it was |
| `Session.AuthProvider.RestoreStoredUser` | contexts/AuthContext.tsx:29-35 | the mount effect updates the fields exactly as `RestoreStep` prescribes and keeps the invariant |
| `Session.LoginRequest` | contexts/AuthContext.tsx:39-44 | login POSTs the JSON credentials to `<api>/auth/login` with a JSON content type and cookies included |
| `Session.LoginStep` | contexts/AuthContext.tsx:37-58 | login succeeds exactly on an OK status with a parsed body; it then sets `user` and the `"user"` entry to the same record and moves to `/dashboard`; a non-OK status throws "Login failed"; a rejected fetch or an unparsable body is re-thrown as is; every failure leaves the state unchanged; other storage keys are never touched |
| `Session.AuthProvider.Login` | contexts/AuthContext.tsx:37-58 | sends `LoginRequest` and updates the fields exactly as `LoginStep` prescribes, keeping the invariant |
| `Session.LogoutStep` | contexts/AuthContext.tsx:60-64 | logout never throws; it removes `"user"` from storage, clears `user` and moves to `/login`; it keeps `isLoading` and every other storage key |
| `Session.AuthProvider.Logout` | contexts/AuthContext.tsx:60-64 | updates the fields exactly as `LogoutStep` prescribes, keeping the invariant |
| `Session.LogoutIdempotent` | contexts/AuthContext.tsx:60-64 | logging out twice leaves the same state as logging out once |
| `Session.InitialSatisfiesInvariant` | contexts/AuthContext.tsx:24-25 | the initial state satisfies the store invariant |
| `Session.StepPreservesInvariant` | contexts/AuthContext.tsx:29-64 | each of restore, login and logout preserves the invariant, whether or not it throws |
| `Session.RunPreservesInvariant` | contexts/AuthContext.tsx:29-64 | any sequence of restores, logins and logouts preserves the invariant: once a user is held or loading is over, memory and storage agree |
| `Session.LoadingNeverResumes` | contexts/AuthContext.tsx:25-35 | once `isLoading` is false, no later operation sets it back |
| `Session.RunPreservesConsistency` | contexts/AuthContext.tsx:29-64 | once the in-memory user equals the decoded `"user"` entry, every sequence of restores, logins and logouts keeps them equal |
| `Session.MountedSessionStaysConsistent` | contexts/AuthContext.tsx:29-64 | from mount on, whether or not the mount effect throws, the in-memory user equals the decoded `"user"` entry after every sequence of operations |
| `Session.LoginSurvivesReload` | contexts/AuthContext.tsx:29-49 | after a successful login, a freshly mounted provider over the same storage restores the same user |
| `Session.RestoreFromEmptyStorage` | contexts/AuthContext.tsx:29-35 | mounting over empty storage ends signed out, not loading, with nothing written |
| `Session.UseAuth` | contexts/AuthContext.tsx:73-78 | `useAuth` fails with the "must be used within an AuthProvider" error exactly when there is no provider value, and otherwise returns that value |
| `Api.OutgoingHeaders` | utils/api.ts:7-11 | outgoing headers always carry `content-type: application/json`; with a non-empty token, `authorization` is `Bearer <token>`; without one, the caller's `authorization`, if any, is kept; every other caller header (in the lower-case header-map form) is carried over unchanged and nothing else is added |
| `Api.BuildHeaders` | utils/api.ts:7-11 | the header object built by successive `set` calls equals `OutgoingHeaders` of the caller's headers (none when absent) |
| `Api.OutgoingInit` | utils/api.ts:13-17 | the options passed to `fetch` always have `credentials: 'include'` and the built headers; method, body and the other options are the caller's |
| `Api.HandleResponse` | utils/api.ts:19-25 | a 401 navigates to `/login` and throws "Unauthorized", never returning the response; any other status is returned unmodified with no navigation |
| `Api.FetchWithAuth` | utils/api.ts:6-26 | sends the request built from the caller's URL and options; a rejected fetch is re-thrown with no navigation; a reply goes through the 401 rule, so no 401 response ever reaches the caller |
| `Api.UnauthorizedReloadRestoresStaleUser` | utils/api.ts:19-23 | the 401 path leaves storage alone, so the provider mounted by the reload on `/login` restores the same user |
| `Api.UseApiToken` | utils/api.ts:3-4 | `useApi` fails outside a provider; inside one, the `sessionToken` it reads is always absent |
| `Api.AsWrittenSendsNoBearer` | utils/api.ts:4-11 | as written, inside any provider the token is absent, so the outgoing headers are exactly the caller's with `content-type` forced: no bearer header is ever added |
| `Api.AsWrittenAdminSendsNoBearer` | utils/api.ts:4-11 | as written, a signed-in administrator's request with no caller headers carries no `authorization` header |
| `Api.HeldTokenIsSent` | utils/api.ts:9-11 | when a non-empty token is held, the request carries `Bearer <token>` whatever the caller's headers |
| `RouteGuard.Decide` | components/AdminProtectedRoute.tsx:11-21 | while loading: the loading placeholder and no redirect, whatever the user; once loaded: children exactly when the user is an administrator, otherwise nothing and a redirect to `/login`; children and a redirect never come together |
| `RouteGuard.AdminProtectedRoute` | components/AdminProtectedRoute.tsx:7-22 | outside a provider the component throws the `useAuth` error; inside one, it yields the decision for the published `isLoading` and `user` |
| `RouteGuard.ChildrenOnlyForStoredAdmin` | components/AdminProtectedRoute.tsx:12-21 | in any state satisfying the store invariant, protected content is rendered only when storage holds an administrator's record |
| `RouteGuard.ProviderGuardSafe` | components/AdminProtectedRoute.tsx:8-21 | for any provider whose store invariant holds, the guard reading its published context value (contexts/AuthContext.tsx:67) never throws, shows protected content only when storage holds an administrator's record, and once loading is over shows it exactly then |
| `RouteGuard.GuardSafeAlongRun` | components/AdminProtectedRoute.tsx:12-21 | after any sequence of session operations from mount, protected content is rendered only when storage holds an administrator's record |

## Left out

- Real I/O: `fetch`, `localStorage`, the Next.js router and `window.location`. Responses are inputs and navigation is a recorded path.
- JSON encoding and decoding. A stored entry is either an encoded `User` or text that `JSON.parse` rejects. Stored text that is valid JSON but not a user record (for example `null` or `42`) is not modelled.
- The case folding and duplicate-name merging done by the Fetch standard's `Headers` object. Header maps are keyed by lower-case names throughout, and the caller's headers are taken to be in that form already.
- The default `options = {}` of `fetchWithAuth`. A caller that omits options passes a `RequestInit` whose fields are all absent.
- The `login` and `logout` functions that the context value carries (contexts/AuthContext.tsx:67). They are the provider's methods here, so `Session.ContextValue` holds only `user` and `isLoading`.
- Api.FetchWithAuth, Api.OutgoingHeaders: do not model the value checks and normalisation of the Fetch standard's `Headers` object. `new Headers(...)` trims leading and trailing whitespace from each value, and it throws a `TypeError` for an invalid header name or value. `headers.set` does the same for a token containing CR, LF, NUL or a character above U+00FF. In those cases `fetchWithAuth` rejects before `fetch` is called. `Api.FetchWithAuth` does not capture this: it keeps values as given and always reports a sent request.
- Session.RunPreservesInvariant, Session.RunPreservesConsistency, Session.MountedSessionStaysConsistent, Session.LogoutStep, Session.LoginStep, RouteGuard.GuardSafeAlongRun, RouteGuard.ProviderGuardSafe: assume that `localStorage` never throws and that only this provider writes to it. Three cases are not covered. (a) Another tab of the same origin logs out or logs in: the provider does not listen for the `storage` event, so memory and storage can then disagree and the guard can still show protected content. (b) `localStorage.setItem` throws, for example on a full quota: `setUser(data)` has already run (contexts/AuthContext.tsx:48-49), so the login re-throws with memory ahead of storage. (c) Storage access is blocked and `removeItem` throws: logout then throws before `setUser(null)` (contexts/AuthContext.tsx:61-62), and the user stays signed in in memory.
- The behaviour after the mount effect throws. `Session.Run` keeps applying logins and logouts to the unchanged state after a thrown restore. The program cannot do that, because React hands the exception to an error boundary or unmounts the tree. The safety lemmas over `Run` therefore cover more sequences than the program can produce.
- Asynchrony, React re-rendering and effect scheduling. Each operation runs to completion as one step, and the route guard is evaluated on one snapshot.
- The `console.error` logging on the login failure path.
- Toasts and page components. The older standalone store over the `"adminUser"` key in app/page.tsx is not part of this model.

## Findings

| source | as written | input that shows it | evidently intended | confidence | as-written member | corrected member |
|---|---|---|---|---|---|---|
| utils/api.ts:4 | `useApi` destructures `sessionToken` from the `useAuth()` value, but that value has no such field (contexts/AuthContext.tsx:14-19). The token is therefore always `undefined`, and the bearer branch at lines 9-11 is never taken | a signed-in administrator (`isAdmin` true, loading over) calls `fetchWithAuth` with no headers; the request goes out without an `authorization` header | attach `Authorization: Bearer <token>` whenever the session holds a token | medium, not executed | `Api.UseApiToken`, `Api.AsWrittenSendsNoBearer`, `Api.AsWrittenAdminSendsNoBearer` | `Api.FetchWithAuth` (token passed in), `Api.HeldTokenIsSent` |
