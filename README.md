# Cookie sessions, route guard and validators of a tRPC/oRPC monorepo

This Dafny project models the server-side authorization pipeline of a
Next.js monorepo and the input validators it shares:

- **oRPC session and guard** (`OrpcSession`). The `session` cookie holds the
  JSON text of the signed-in user. `requiredAuthMiddleware` resolves
  `context.session ?? getSession()`. It rejects with UNAUTHORIZED unless the
  session has a truthy user. Otherwise it merges `user`, `headers` and
  `cookies` into the procedure context. `base` only adds headers and
  cookies.
- **oRPC auth procedures** (`OrpcAuth`). `signup` and `me` are values;
  `signin` and `logout` are methods that write the request's cookie store.
  The lemmas chain them: signin, then the next request's guard and `me`;
  logout, then the guard again.
- **oRPC todo procedures** (`OrpcTodo`). `getTodos` has an amount gate, a
  FORBIDDEN gate, BAD_RESPONSE mapping and the `slice`. `createTodo` writes
  an `input` cookie before it contacts the service. The remote service's
  reply is a parameter.
- **tRPC multi-cookie session** (`TrpcAuth`). `getSession` returns no
  session, or an expired session whose four cookies are cleared, or a live
  session built from the cookies with fallbacks. `login` makes seven cookie
  writes. `logout` is a loop over six names. `refreshSession` and
  `validateUser` are small.
- **Edge middleware** (`EdgeGuard`): the redirect decision and the path
  matcher of the web app.
- **Validators** (`Schemas`, `Pattern`): the zod schemas as issue lists,
  with limits from the application constants. The phone and username
  regular expressions are stated as anchored patterns, and each is proved
  equal to a plain predicate.

Supporting modules:
- `Cookies`: the cookie store class. It also gives what a user agent keeps
  of the cookies a response sets, following sections 5.2.1, 5.2.2 and 5.3
  of RFC 6265: Max-Age wins over Expires, and a Max-Age of zero or less
  expires the cookie at once.
- `Json`: a JSON codec with `Parse(Serialize(v)) == Some(v)` proved.
- `Decimal`: decimal digits.
- `Rpc`: error kinds with their RFC 9110 statuses.
- `Wrappers`: `Option`/`Result`.

Time is integer milliseconds since the epoch. The clock, the random draws,
`process.env.NODE_ENV === "production"` (`production`), email/URL syntax
(`isEmail`, `isUrl`) and the remote service's reply are all parameters.

## Model

| member | source | states |
|---|---|---|
| `Json.ParseSerialize` | packages/orpc/src/router/auth.ts:110 | JSON.parse gives back exactly the value JSON.stringify rendered, so the session cookie's text reads back as the payload that was written |
| `Cookies.CookieStore.Set` | packages/orpc/src/router/auth.ts:71-77 | `cookies.set` replaces the one named cookie and leaves every other cookie as it was |
| `Rpc.DefaultStatus` | packages/orpc/src/middlewares/auth.ts:34 | an error raised by kind alone carries a 4xx/5xx status: 401 for UNAUTHORIZED, 500 for INTERNAL_SERVER_ERROR |
| `Rpc.Wire` | packages/orpc/src/router/auth.ts:98-100 | a typed error reaches the caller unchanged; a plain thrown Error becomes INTERNAL_SERVER_ERROR (500) with its text withheld |
| `OrpcSession.GetSession` | packages/orpc/src/middlewares/auth.ts:55-69 | an absent or empty cookie gives no session; text that is not JSON gives no session (not an error); parsed text gives `{user: parsed}` with the value unchanged |
| `OrpcSession.ResolveSession` | packages/orpc/src/middlewares/auth.ts:29 | a session already in the context is used as is; the cookie is consulted only when there is none |
| `OrpcSession.RequireAuth` | packages/orpc/src/middlewares/auth.ts:21-45 | rejects with UNAUTHORIZED exactly when the resolved session or its user is missing or falsy; otherwise adds exactly `user` (the session's user), `headers` and `cookies` |
| `OrpcSession.Next` | packages/orpc/src/middlewares/auth.ts:37-44 | `next({context})` keeps every prior key, overrides only the added keys, and a rejection never reaches the handler |
| `OrpcSession.Authed` | packages/orpc/src/middlewares/auth.ts:72 | `authed` rejects with a plain UNAUTHORIZED exactly when there is no signed-in session; otherwise the handler's context is the prior context with `user`, `headers` and `cookies` set, as the spread in `next` builds it |
| `OrpcSession.Base` | packages/orpc/src/middlewares/auth.ts:48-53 | base never rejects, adds exactly the request's headers and cookies, and keeps every other key of the context with its value |
| `OrpcSession.AuthedContext` | packages/orpc/src/middlewares/auth.ts:33-44 | behind `authed`, the handler sees every prior key plus a truthy user and the request's cookies; a rejection is always a plain UNAUTHORIZED |
| `OrpcSession.PriorSessionDecides` | packages/orpc/src/middlewares/auth.ts:24-29 | with a session in the context, the outcome and user are the same whatever cookies the request carries |
| `OrpcSession.CookieDecides` | packages/orpc/src/middlewares/auth.ts:29-35 | without one, the guard passes exactly when the cookie is non-empty JSON text of a truthy value, and that value becomes the user |
| `OrpcAuth.Signup` | packages/orpc/src/router/auth.ts:7-22 | returns the fixed demo id with the input's email and name; the password is dropped |
| `OrpcAuth.UserOf` | packages/orpc/src/schemas/user.ts:9-13 | UserSchema accepts a value exactly when it is an object whose id, name and email are strings and the email is well-formed; it then yields those three fields, whatever their order and whatever other keys there are |
| `OrpcAuth.Me` | packages/orpc/src/router/auth.ts:24-39 | UNAUTHORIZED without a session; otherwise the context user as UserSchema reads it, or an internal error when output validation rejects it |
| `OrpcAuth.FindUser` | packages/orpc/src/router/auth.ts:94-96 | finds an account exactly when one matches both email and password, and returns the first such account |
| `OrpcAuth.Signin` | packages/orpc/src/router/auth.ts:83-120 | no match: "Invalid credentials" thrown and no cookie written; a match: exactly the `session` cookie (payload JSON, httpOnly, lax, path "/", maxAge 604800) is written and the token is the account id |
| `OrpcAuth.RejectedSigninOnWire` | packages/orpc/src/router/auth.ts:98-100 | a rejected sign-in reaches the client as a message-less 500 INTERNAL_SERVER_ERROR, never as UNAUTHORIZED |
| `OrpcAuth.Logout` | packages/orpc/src/router/auth.ts:41-81 | behind the guard: sets `session` to "" with maxAge 0 and returns success; rejected requests change nothing |
| `OrpcAuth.SigninAcceptsOnlyDemo` | packages/orpc/src/middlewares/auth.ts:7-14 | the directory's only credentials are demo@example.com / password123 |
| `OrpcAuth.SigninThenAuthed` | packages/orpc/src/router/auth.ts:103-116 | within seven days the user agent sends the cookie back, getSession yields `{id, email, name}` of the account, and the guard passes with that user |
| `OrpcAuth.SigninExpires` | packages/orpc/src/router/auth.ts:115 | after Max-Age the user agent has dropped the cookie and there is no session |
| `OrpcAuth.SigninThenMe` | packages/orpc/src/router/auth.ts:36-39 | after signin, me returns the account's id, name and email |
| `OrpcAuth.LogoutThenRejected` | packages/orpc/src/router/auth.ts:71-77 | after logout the user agent holds no session cookie and the guard rejects |
| `OrpcAuth.ClearedCookieHasNoSession` | packages/orpc/src/router/auth.ts:71-73 | the cleared cookie's empty value already reads as no session |
| `OrpcAuth.LogoutWithoutCookie` | packages/orpc/src/router/auth.ts:66-69 | the declared "already logged out" error is never thrown: a context session lets logout pass with no cookie at all |
| `OrpcTodo.ParseTodo` | packages/orpc/src/schemas/todo.ts:3-8 | TodoSchema accepts a value exactly when it is an object with numeric id/userId and string title/body, and keeps only those fields |
| `OrpcTodo.ParseTodoAnyOrder` | packages/orpc/src/schemas/todo.ts:3-8 | a service reply carrying a todo's four typed members in any order (such as userId first, as the posts service sends them), among any members under other keys, reads as that todo |
| `OrpcTodo.ParseTodoJson` | packages/orpc/src/schemas/todo.ts:3-8 | every todo the service renders is read back unchanged |
| `OrpcTodo.CreatePayloadRoundTrip` | packages/orpc/src/router/todo.ts:38 | the posted body parses back to the validated input, and an omitted userId arrives as 1 |
| `OrpcTodo.EchoedPayloadCreates` | packages/orpc/src/router/todo.ts:38-73 | when the service answers the posted body with a fresh id added, createTodo's result is the input as a todo with that id, an omitted userId being 1 |
| `OrpcTodo.CreateResult` | packages/orpc/src/router/todo.ts:66-77 | success exactly for an ok reply whose body is a todo (stripped to TodoSchema); every failure is BAD_RESPONSE 502 "Failed to create todo" |
| `OrpcTodo.CreateTodo` | packages/orpc/src/router/todo.ts:32-78 | UNAUTHORIZED without a session and nothing written; otherwise the `input` cookie is set to the title, with no attributes, whatever the service answers, and the result is the service's answer to `JSON.stringify(input)` read through `CreateResult` |
| `OrpcTodo.GetTodos` | packages/orpc/src/router/todo.ts:104-145 | UNAUTHORIZED first; amount outside 1..200 is BAD_REQUEST; above 10 is FORBIDDEN 403 whatever the service would answer; any fetch failure, non-ok status or non-todo element is BAD_RESPONSE 502; success returns the first floor(amount) received items |
| `OrpcTodo.GetTodosBounded` | packages/orpc/src/router/todo.ts:140 | a success has at most ten items, all todos, equal to the service's first items in order |
| `TrpcAuth.Classify` | packages/trpc/src/server/router/auth.ts:20-77 | no session iff the user cookie is absent or empty; expired iff an expiry that reads as a time is strictly before now; otherwise each field is its cookie or its fallback (now, now + 604800000 ms, "unknown") |
| `TrpcAuth.GetSessionAsWritten` | packages/trpc/src/server/router/auth.ts:71-72 | as written, every live session ends in an internal error |
| `TrpcAuth.Expire` | packages/trpc/src/server/router/auth.ts:154-167 | clearing a list of names sets exactly those cookies to "" with maxAge 0 and expires at the epoch, and leaves every other cookie alone |
| `TrpcAuth.ExpiryWrites` | packages/trpc/src/server/router/auth.ts:34-53 | the four writes of the expiry branch are exactly `Expire` over the four session names |
| `TrpcAuth.GetSession` | packages/trpc/src/server/router/auth.ts:20-77 | no user cookie: no session and nothing written; a passed expiry: no session and exactly the four cookies cleared; otherwise the built session and nothing written (the corrected reading of lines 71-72; see "## Findings") |
| `TrpcAuth.ExpiryKeepsProfile` | packages/trpc/src/server/router/auth.ts:32-56 | the expiry branch leaves the email and username cookies as they were |
| `TrpcAuth.BeforeAt` | packages/trpc/src/server/router/auth.ts:112 | `split("@")[0]` is the prefix before the first "@", or all of the text when it has none |
| `TrpcAuth.BeforeAtSplits` | packages/trpc/src/server/router/auth.ts:112 | for "local@domain" with no "@" in local, the user name part is local |
| `TrpcAuth.UserNameOf` | packages/trpc/src/server/router/auth.ts:112 | the user name is that prefix, or "unknown" when it is empty; never empty |
| `TrpcAuth.IdsIdentifyDraws` | packages/trpc/src/server/router/auth.ts:100-117 | distinct random draws give distinct user ids and session tokens |
| `TrpcAuth.LoginJar` | packages/trpc/src/server/router/auth.ts:120-126 | exactly seven cookies change: some-random-cookie without options, and the six session cookies with COOKIE_OPTIONS |
| `TrpcAuth.Login` | packages/trpc/src/server/router/auth.ts:97-137 | sets header x-user-id, writes the seven cookies, and returns the same id, times, session id and user name it stored |
| `TrpcAuth.LoginThenSession` | packages/trpc/src/server/router/auth.ts:60-70 | within seven days, getSession on the cookies sent back returns login's user id, times, session id, user name and email |
| `TrpcAuth.LoginThenSessionAsWritten` | packages/trpc/src/server/router/auth.ts:71-72 | as written, that same getSession fails with an internal error |
| `TrpcAuth.LoginThenLate` | packages/trpc/src/server/router/auth.ts:15 | after seven days the user agent has dropped the user cookie and there is no session |
| `TrpcAuth.Logout` | packages/trpc/src/server/router/auth.ts:150-173 | expires all six names, present or not, and always returns success |
| `TrpcAuth.LogoutIdempotent` | packages/trpc/src/server/router/auth.ts:153-167 | logging out twice leaves the same jar as logging out once |
| `TrpcAuth.LogoutEndsSession` | packages/trpc/src/server/router/auth.ts:154-167 | after logout getSession finds no session and the user agent keeps none of the six cookies |
| `TrpcAuth.RefreshSession` | packages/trpc/src/server/router/auth.ts:176-199 | touches no cookie, reports user "unknown" and an expiry that reads as now + 7 days |
| `TrpcAuth.ValidateUser` | packages/trpc/src/server/router/auth.ts:203-211 | true exactly for a non-empty id |
| `TrpcAuth.ResponseHeaders.Set` | packages/trpc/src/server/router/auth.ts:101 | setting a response header replaces that one header |
| `EdgeGuard.Decide` | apps/web/middleware.ts:11-21 | redirect to "/" exactly when logged out on a path under "/react-query-example"; to "/react-query-example" exactly when logged in on "/"; otherwise continue |
| `EdgeGuard.Handle` | apps/web/middleware.ts:25-30 | paths outside the matcher always continue; the two matched paths get the decision |
| `EdgeGuard.NoRedirectLoop` | apps/web/middleware.ts:11-21 | following a redirect with the same cookies is never redirected again |
| `EdgeGuard.MatchedPaths` | apps/web/middleware.ts:5-18 | a logged-out visitor reaches only "/", a logged-in one only "/react-query-example" |
| `EdgeGuard.SubpageUnguarded` | apps/web/middleware.ts:11-13 | pages below "/react-query-example" pass, since the matcher excludes them, though the prefix test would redirect them |
| `EdgeGuard.EdgeTrustsAnyCookie` | apps/web/middleware.ts:5-6 | any non-empty session cookie counts as logged in at the edge, even one the procedure guard cannot parse |
| `Pattern.PhonePatternMeaning` | packages/config/src/zod-schemas.ts:8 | `^\+?[1-9]\d{1,14}$` matches exactly an optional "+", a digit 1-9, and 1 to 14 digits |
| `Pattern.UsernamePatternMeaning` | packages/config/src/constants.ts:42 | `^[a-zA-Z0-9_-]+$` matches exactly non-empty strings of letters, digits, "_" and "-" |
| `Schemas.PhoneIssues` | packages/config/src/zod-schemas.ts:8 | phoneSchema accepts exactly the phone shape above |
| `Schemas.UsernameIssues` | packages/config/src/zod-schemas.ts:23-27 | the username field is accepted exactly when its length is within 3..30 and the pattern matches |
| `Schemas.UsernameValid` | packages/config/src/constants.ts:38-42 | a username is valid iff it has 3 to 30 characters, each a letter, digit, "_" or "-" |
| `Schemas.ParsePagination` | packages/config/src/zod-schemas.ts:11-15 | accepted iff page is an integer >= 1 and limit an integer in 1..100 (when given); page defaults to 1 and limit to 20 |
| `Schemas.LoginIssues` | packages/config/src/zod-schemas.ts:45-49 | accepted iff the email is well-formed and the password non-empty |
| `Schemas.NameIssues` | packages/config/src/zod-schemas.ts:22 | a name is accepted iff its length is 2..50 |
| `Schemas.CreateUserIssues` | packages/config/src/zod-schemas.ts:20-31 | accepted iff email, name (2..50), username, password (at least 8), bio (at most 500) and avatar URL all pass |
| `Schemas.ChangePasswordIssues` | packages/config/src/zod-schemas.ts:35-42 | accepted iff the fields meet their minimums and the new password equals the confirmation; a mismatch is reported at `confirmPassword` |
| `Schemas.RegisterIssues` | packages/config/src/zod-schemas.ts:51-57 | accepted iff createUser passes, the confirmation is non-empty and equal to the password, and terms is true; each failure is reported at its path |
| `Schemas.ResetPasswordIssues` | packages/config/src/zod-schemas.ts:63-70 | accepted iff token is non-empty, password at least 8, and confirmation non-empty and equal; a mismatch is reported at `confirmPassword` |
| `Schemas.FileAcceptable` | packages/config/src/zod-schemas.ts:130-151 | a file passes iff its size is at most 100 MiB and its MIME type is in the list for its kind |
| `Schemas.FileUploadIssues` | packages/config/src/zod-schemas.ts:127-154 | an unknown kind fails the enum without running the refinement; otherwise accepted iff the refinement holds |
| `Schemas.OversizeRejected` | packages/config/src/zod-schemas.ts:134-136 | a file over 100 MiB is refused whatever its kind and type |
| `Schemas.ParseVideo` | packages/config/src/zod-schemas.ts:73-82 | accepted iff title length is 1..100, description at most 5000, URLs well-formed, duration positive and at most 10 tags; isPublic defaults to true |
| `Schemas.ParseWebhook` | packages/config/src/zod-schemas.ts:209-214 | accepted iff the URL is well-formed and the secret has at least 16 characters; active defaults to true |
| `Schemas.ParseBan` | packages/config/src/zod-schemas.ts:194-198 | accepted iff userId is non-empty, the reason has at least 10 characters and the duration is one of 1d/7d/30d/permanent; it defaults to "7d" |

## Left out

- I/O as such: `cookies()`, `headers()`, `fetch` and the clock are
  parameters or the `CookieStore` object. `console.log` has no effect in
  the model.
- JSON: the codec covers null, booleans, integers, strings and objects in
  the compact form JSON.stringify produces. It has no arrays, no fractions
  or exponents, and no insignificant whitespace. So a session cookie holding
  other JSON reads as not JSON. A `\u` escape naming half of a surrogate
  pair (as in `"\ud83d\ude00"`, which JSON.parse accepts) is refused,
  because a character of the model is never a surrogate half.
- Dates: `toISOString()` and `new Date(text)` are modelled as decimal
  milliseconds (`RenderTime`, `ParseTime`), not ISO-8601. Login reads the
  clock once where the source reads it twice.
- tRPC `getCurrentUser` and `getSecretMessage`: constant results with no
  cookie logic.
- tRPC `init.ts` (`getCookie`, `setCookie`, `protectedProcedure`) is not
  part of this model. `getCookie`/`setCookie` are taken as a read and a
  write of the one cookie store. `sameSite: true` in COOKIE_OPTIONS is
  assumed to mean Strict, as common cookie serializers read it.
- TrpcAuth.Login: the `catch` that maps errors to INTERNAL_SERVER_ERROR
  "Login failed. Please try again." is not modelled, because none of the
  modelled steps can fail.
- TrpcAuth.GetSessionAsWritten: the internal error carries no message,
  whereas tRPC would pass on the ReferenceError's own text with
  INTERNAL_SERVER_ERROR; only the error kind is modelled.
- OrpcAuth.Signin takes already validated input: CredentialSchema's email
  check runs before the handler in the framework and is not modelled here.
  The same holds for the loginSchema input of tRPC login.
- OrpcSession.PriorSession: only a session object under the context's
  `session` key counts, as the context's declared type allows. A value of
  another kind there falls back to the cookie, whereas `??` would keep it.
- OrpcSession.RequireAuth: the context's `cookies` entry is the store's
  contents when the guard runs. Handlers write through the one
  `CookieStore` object, so the aliasing between the two is not modelled.
- Framework internals beyond what the procedures show:
  - input validation is taken to run after the guard;
  - a thrown plain Error becomes INTERNAL_SERVER_ERROR;
  - output validation failure is an internal error;
  - the library's default error messages are None.
- OrpcTodo.GetTodos: amount is a real, so NaN and infinities (which zod
  refuses) are not representable. Numbers in todo JSON are integers only.
- Schemas: `z.email()`, `z.url()` and `z.instanceof(File)` are not opened.
  Email and URL syntax are predicate parameters, and a file is its size and
  MIME type. `z.coerce.number()` is represented by its outcome (absent, not
  finite, or a number). Duration positivity is a comparison on reals.
- Schemas: the other schemas of zod-schemas.ts are not modelled. These are
  update/partial forms, video filters, comments, playlists, contact,
  settings, moderation, analytics and API keys.
- The remaining packages (React UI, the query client, env parsing, CORS
  headers, the tRPC post router) are not part of this model.

## Findings

| source | as written | input that shows it | evidently intended | confidence | as-written member | corrected member |
|---|---|---|---|---|---|---|
| packages/trpc/src/server/router/auth.ts:71-72 | getSession reads `cookieStore.get(...)`, but no `cookieStore` is bound in that handler, so any live session throws and the call fails with an internal error | a request right after login: non-empty `auth-user-id`, `expiresAt` seven days ahead | read the `username` and `email` cookies through `getCookie`, with fallback "unknown" | not executed | `TrpcAuth.LoginThenSessionAsWritten` | `TrpcAuth.LoginThenSession` |
