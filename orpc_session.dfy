/** How an oRPC procedure finds the signed-in user: the session cookie, the
    guard that requires a user, and the middleware that only supplies the
    request's headers and cookies. */
module OrpcSession {
  import opened Wrappers
  import opened Json
  import opened Cookies
  import opened Rpc

  /** An entry of the in-memory user directory. */
  datatype Account = Account(id: string, email: string, name: string, password: string)

  const DemoId: string := "28aa6286-48e9-4f23-adea-3486c86acd55"

  /** The whole directory: one demo account, password kept in plain text. */
  const Users: seq<Account> := [Account(DemoId, "demo@example.com", "Demo User", "password123")]

  const SessionCookie: string := "session"

  /** `{ user?: User }`; the user is whatever JSON the cookie held. */
  datatype Session = Session(user: Option<Json>)

  /** The session the cookie jar carries: none when the cookie is absent or
      empty, none when its value is not JSON (a corrupted session), and
      otherwise a session whose user is the parsed value. */
  function GetSession(jar: Jar): (r: Option<Session>)
    ensures Missing(jar, SessionCookie) ==> r == None
    ensures !Missing(jar, SessionCookie) ==>
      (r.Some? <==> Parse(jar[SessionCookie].value).Some?)
    ensures r.Some? ==> r.value.user == Parse(jar[SessionCookie].value)
  {
    if Missing(jar, SessionCookie) then None
    else
      match Parse(jar[SessionCookie].value)
      case None => None
      case Some(parsed) => Some(Session(Some(parsed)))
  }

  /** What the procedure context can hold under a key. */
  datatype Entry =
    | SessionEntry(session: Session)
    | UserEntry(user: Json)
    | HeadersEntry(headers: map<string, string>)
    | CookiesEntry(cookies: Jar)
    | OtherEntry(other: Json)

  type Context = map<string, Entry>

  /** What `headers()` and `cookies()` return for the current request. */
  datatype Request = Request(headers: map<string, string>, cookies: Jar)

  /** What a middleware does: call `next` with extra context, or throw. */
  datatype Step = Proceed(additions: Context) | Reject(error: RpcError)

  /** `context.session`, when an earlier layer put one there. The context's
      declared type allows only a session object (or nothing) under this key,
      so a value of another kind there is treated as no session; JavaScript's
      `??` would keep any non-nullish value and the guard would then reject. */
  function PriorSession(ctx: Context): Option<Session> {
    if "session" in ctx && ctx["session"].SessionEntry? then Some(ctx["session"].session) else None
  }

  /** `context.session ?? getSession()`: the cookie is consulted only when
      the context carries no session. */
  function ResolveSession(ctx: Context, req: Request): (r: Option<Session>)
    ensures PriorSession(ctx).Some? ==> r == PriorSession(ctx)
    ensures PriorSession(ctx).None? ==> r == GetSession(req.cookies)
  {
    if PriorSession(ctx).Some? then PriorSession(ctx) else GetSession(req.cookies)
  }

  /** The session holds a user that JavaScript treats as truthy. */
  predicate SignedIn(s: Option<Session>) {
    s.Some? && s.value.user.Some? && Truthy(s.value.user.value)
  }

  /** requiredAuthMiddleware: UNAUTHORIZED unless the resolved session has a
      user; otherwise the user, the headers and the cookies join the context. */
  function RequireAuth(ctx: Context, req: Request): (step: Step)
    ensures step.Reject? <==> !SignedIn(ResolveSession(ctx, req))
    ensures step.Reject? ==> step.error == Plain(UNAUTHORIZED)
    ensures step.Proceed? ==>
      step.additions.Keys == {"user", "headers", "cookies"}
      && step.additions["user"] == UserEntry(ResolveSession(ctx, req).value.user.value)
      && step.additions["headers"] == HeadersEntry(req.headers)
      && step.additions["cookies"] == CookiesEntry(req.cookies)
  {
    var session := ResolveSession(ctx, req);
    if !SignedIn(session) then Reject(Plain(UNAUTHORIZED))
    else Proceed(map["user" := UserEntry(session.value.user.value),
                     "headers" := HeadersEntry(req.headers),
                     "cookies" := CookiesEntry(req.cookies)])
  }

  /** `next({ context })`: the additions are merged over the current context. */
  function Next(ctx: Context, step: Step): (r: Result<Context, RpcError>)
    ensures step.Reject? ==> r == Err(step.error)
    ensures step.Proceed? ==> r.Ok? && r.value.Keys == ctx.Keys + step.additions.Keys
    ensures step.Proceed? ==> forall k :: k in ctx && k !in step.additions ==> r.value[k] == ctx[k]
    ensures step.Proceed? ==> forall k :: k in step.additions ==> r.value[k] == step.additions[k]
  {
    match step
    case Reject(e) => Err(e)
    case Proceed(additions) => Ok(ctx + additions)
  }

  /** `authed`: the procedure builder with requiredAuthMiddleware in front. */
  function Authed(ctx: Context, req: Request): (r: Result<Context, RpcError>)
    ensures r.Err? <==> !SignedIn(ResolveSession(ctx, req))
    ensures r.Err? ==> r.error == Plain(UNAUTHORIZED)
    ensures r.Ok? ==>
      r.value == ctx["user" := UserEntry(ResolveSession(ctx, req).value.user.value)]
                    ["headers" := HeadersEntry(req.headers)]
                    ["cookies" := CookiesEntry(req.cookies)]
  {
    Next(ctx, RequireAuth(ctx, req))
  }

  /** `base`: adds the headers and cookies and never rejects. */
  function Base(ctx: Context, req: Request): (r: Result<Context, RpcError>)
    ensures r.Ok? && r.value.Keys == ctx.Keys + {"headers", "cookies"}
    ensures r.Ok? ==>
      r.value["headers"] == HeadersEntry(req.headers) && r.value["cookies"] == CookiesEntry(req.cookies)
    ensures r.Ok? ==> forall k :: k in ctx && k != "headers" && k != "cookies" ==> r.value[k] == ctx[k]
  {
    Next(ctx, Proceed(map["headers" := HeadersEntry(req.headers), "cookies" := CookiesEntry(req.cookies)]))
  }

  /** Past the guard the context has a truthy user, and it keeps every key it
      had; a rejection is always a plain UNAUTHORIZED. */
  lemma AuthedContext(ctx: Context, req: Request)
    ensures Authed(ctx, req).Ok? <==> SignedIn(ResolveSession(ctx, req))
    ensures Authed(ctx, req).Err? ==> Authed(ctx, req).error == Plain(UNAUTHORIZED)
    ensures Authed(ctx, req).Ok? ==>
      var c := Authed(ctx, req).value;
      ctx.Keys <= c.Keys && "user" in c && c["user"].UserEntry? && Truthy(c["user"].user)
      && c["cookies"] == CookiesEntry(req.cookies)
  {
  }

  /** The dedupe: a session already in the context decides alone, whatever
      cookies the request carries. */
  lemma PriorSessionDecides(ctx: Context, req1: Request, req2: Request)
    requires PriorSession(ctx).Some?
    ensures Authed(ctx, req1).Ok? <==> Authed(ctx, req2).Ok?
    ensures Authed(ctx, req1).Ok? ==>
      Authed(ctx, req1).value["user"] == Authed(ctx, req2).value["user"]
  {
  }

  /** Without a session in the context, the guard passes exactly when the
      session cookie holds JSON text of a truthy value; that value becomes
      the context's user. */
  lemma CookieDecides(ctx: Context, req: Request)
    requires PriorSession(ctx).None?
    ensures Authed(ctx, req).Ok? <==>
      !Missing(req.cookies, SessionCookie)
      && Parse(req.cookies[SessionCookie].value).Some?
      && Truthy(Parse(req.cookies[SessionCookie].value).value)
    ensures Authed(ctx, req).Ok? ==>
      Authed(ctx, req).value["user"] == UserEntry(Parse(req.cookies[SessionCookie].value).value)
  {
  }
}
