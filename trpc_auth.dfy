/** The tRPC authentication router: a session spread over several cookies.
    The clock and the random draws are parameters; times are integer
    milliseconds since the epoch, rendered in cookies as decimal digits. */
module TrpcAuth {
  import opened Wrappers
  import opened Decimal
  import opened Cookies
  import opened Rpc

  const UserIdCookie: string := "auth-user-id"

  /** COOKIE_OPTIONS.maxAge: seven days, in seconds. */
  const SessionTtlSeconds: int := 60 * 60 * 24 * 7
  const SessionTtlMs: nat := 60 * 60 * 24 * 7 * 1000

  /** COOKIE_OPTIONS. `sameSite: true` is taken to mean Strict, as the
      common cookie serializers read it. */
  function SessionOptions(production: bool): CookieOptions {
    CookieOptions(true, production, Strict, Some("/"), Some(SessionTtlSeconds), None)
  }

  /** COOKIE_OPTIONS with maxAge 0 and expires at the epoch. */
  function ClearOptions(production: bool): CookieOptions {
    CookieOptions(true, production, Strict, Some("/"), Some(0), Some(0))
  }

  function Cleared(production: bool): Cookie {
    Cookie("", ClearOptions(production))
  }

  /** `getCookie(name) || fallback`. */
  function CookieOr(jar: Jar, name: string, fallback: string): string {
    if Missing(jar, name) then fallback else jar[name].value
  }

  /** `new Date(text)` as a time; None is the invalid date. */
  function ParseTime(text: string): Option<nat> {
    ToNat(text)
  }

  /** `new Date(t).toISOString()`: here the decimal digits of t. */
  function RenderTime(t: nat): string {
    FromNat(t)
  }

  /** `expiresAt && new Date(expiresAt) < new Date()`: an absent, empty or
      unreadable expiry never counts as passed. */
  predicate ExpiryPassed(jar: Jar, now: nat) {
    !Missing(jar, "expiresAt") && ParseTime(jar["expiresAt"].value).Some?
    && ParseTime(jar["expiresAt"].value).value < now
  }

  datatype TrpcSession = TrpcSession(
    userId: string,
    createdAt: string,
    expiresAt: string,
    sessionId: string,
    userName: string,
    email: string)

  /** What getSession finds: no user cookie, an expired session, or a live one. */
  datatype SessionState = NoSession | Expired | Active(session: TrpcSession)

  /** The session object of lines 60-73, with the user name and email read
      from their cookies as those lines evidently mean: each field is its
      cookie's value, or a fallback when the cookie is absent or empty. */
  function BuildSession(jar: Jar, now: nat): TrpcSession {
    TrpcSession(
      CookieOr(jar, UserIdCookie, ""),
      CookieOr(jar, "createdAt", RenderTime(now)),
      CookieOr(jar, "expiresAt", RenderTime(now + SessionTtlMs)),
      CookieOr(jar, "sessionId", "unknown"),
      CookieOr(jar, "username", "unknown"),
      CookieOr(jar, "email", "unknown"))
  }

  /** getSession's decision: no user cookie, a passed expiry, or a live
      session built from the cookies. */
  function Classify(jar: Jar, now: nat): (st: SessionState)
    ensures st.NoSession? <==> Missing(jar, UserIdCookie)
    ensures st.Expired? <==> !Missing(jar, UserIdCookie) && ExpiryPassed(jar, now)
    ensures st.Active? ==> st.session == BuildSession(jar, now) && st.session.userId == jar[UserIdCookie].value
  {
    if Missing(jar, UserIdCookie) then NoSession
    else if ExpiryPassed(jar, now) then Expired
    else Active(BuildSession(jar, now))
  }

  /** getSession as written: building a live session reads `cookieStore`,
      which is not defined in that scope, so the handler throws and tRPC
      reports an internal error. */
  function GetSessionAsWritten(jar: Jar, now: nat): (r: Result<SessionState, RpcError>)
    ensures r.Err? <==> Classify(jar, now).Active?
    ensures r.Err? ==> r.error == Plain(INTERNAL_SERVER_ERROR)
    ensures r.Ok? ==> r.value == Classify(jar, now)
  {
    match Classify(jar, now)
    case Active(_) => Err(Plain(INTERNAL_SERVER_ERROR))
    case st => Ok(st)
  }

  /** The cookies the expiry branch clears, and those logout clears. */
  const ExpiryNames: seq<string> := [UserIdCookie, "expiresAt", "createdAt", "sessionId"]
  const LogoutNames: seq<string> := [UserIdCookie, "expiresAt", "createdAt", "sessionId", "email", "username"]

  /** The jar after setting each name in turn to the cleared cookie. */
  function Expire(jar: Jar, names: seq<string>, production: bool): (r: Jar)
    ensures forall n :: n in r <==> n in jar || n in names
    ensures forall n :: n in names ==> r[n] == Cleared(production)
    ensures forall n :: n in jar && n !in names ==> r[n] == jar[n]
  {
    if names == [] then jar
    else Expire(jar, names[..|names| - 1], production)[names[|names| - 1] := Cleared(production)]
  }

  /** Expiring one more name is one more write. */
  lemma ExpireOneMore(jar: Jar, names: seq<string>, name: string, production: bool)
    ensures Expire(jar, names + [name], production) == Expire(jar, names, production)[name := Cleared(production)]
  {
    assert (names + [name])[..|names|] == names;
  }

  /** The expiry branch's four writes, one after another. */
  lemma ExpiryWrites(jar: Jar, production: bool)
    ensures Expire(jar, ExpiryNames, production)
      == jar[UserIdCookie := Cleared(production)]["expiresAt" := Cleared(production)]
            ["createdAt" := Cleared(production)]["sessionId" := Cleared(production)]
  {
    var c := Cleared(production);
    ExpireOneMore(jar, [], UserIdCookie, production);
    assert [] + [UserIdCookie] == [UserIdCookie];
    ExpireOneMore(jar, [UserIdCookie], "expiresAt", production);
    assert [UserIdCookie] + ["expiresAt"] == [UserIdCookie, "expiresAt"];
    ExpireOneMore(jar, [UserIdCookie, "expiresAt"], "createdAt", production);
    assert [UserIdCookie, "expiresAt"] + ["createdAt"] == [UserIdCookie, "expiresAt", "createdAt"];
    ExpireOneMore(jar, [UserIdCookie, "expiresAt", "createdAt"], "sessionId", production);
    assert [UserIdCookie, "expiresAt", "createdAt"] + ["sessionId"] == ExpiryNames;
  }

  /** getSession. No user cookie: no session and nothing written. An expiry
      in the past: no session, and exactly the four session cookies are
      cleared. Otherwise the session built from the cookies, nothing
      written. */
  method GetSession(store: CookieStore, now: nat, production: bool) returns (r: Option<TrpcSession>)
    modifies store
    ensures Classify(old(store.jar), now).Expired? ==>
      r == None && store.jar == Expire(old(store.jar), ExpiryNames, production)
    ensures Classify(old(store.jar), now).NoSession? ==> r == None && store.jar == old(store.jar)
    ensures Classify(old(store.jar), now).Active? ==>
      r == Some(Classify(old(store.jar), now).session) && store.jar == old(store.jar)
  {
    var userId := store.Get(UserIdCookie);
    var expiresAt := store.Get("expiresAt");
    if userId.None? || userId.value == "" {
      return None;
    }
    if expiresAt.Some? && expiresAt.value != "" && ParseTime(expiresAt.value).Some?
       && ParseTime(expiresAt.value).value < now {
      ghost var before := store.jar;
      store.Set(UserIdCookie, "", ClearOptions(production));
      store.Set("expiresAt", "", ClearOptions(production));
      store.Set("createdAt", "", ClearOptions(production));
      store.Set("sessionId", "", ClearOptions(production));
      ExpiryWrites(before, production);
      return None;
    }
    r := Some(BuildSession(store.jar, now));
  }

  /** Response headers. */
  class ResponseHeaders {
    var fields: map<string, string>

    constructor ()
      ensures fields == map[]
    {
      fields := map[];
    }

    method Set(name: string, value: string)
      modifies this
      ensures fields == old(fields)[name := value]
    {
      fields := fields[name := value];
    }
  }

  /** `s.split("@")[0]`: the text before the first "@", or all of s. */
  function BeforeAt(s: string): (r: string)
    ensures '@' !in r && r <= s
    ensures |r| < |s| ==> s[|r|] == '@'
  {
    if s == [] || s[0] == '@' then [] else [s[0]] + BeforeAt(s[1..])
  }

  /** The local part survives a round trip through "local@domain". */
  lemma {:induction false} BeforeAtSplits(local: string, domain: string)
    requires '@' !in local
    ensures BeforeAt(local + "@" + domain) == local
  {
    if local != [] {
      assert (local + "@" + domain)[1..] == local[1..] + "@" + domain;
      BeforeAtSplits(local[1..], domain);
    }
  }

  /** `input.email.split("@")[0] || "unknown"`. */
  function UserNameOf(email: string): (name: string)
    ensures name != []
    ensures BeforeAt(email) != [] ==> name == BeforeAt(email)
    ensures BeforeAt(email) == [] ==> name == "unknown"
  {
    if BeforeAt(email) == [] then "unknown" else BeforeAt(email)
  }

  function UserIdFor(draw: nat): string {
    "user-" + FromNat(draw)
  }

  function SessionIdFor(draw: nat): string {
    "sess-" + FromNat(draw)
  }

  /** Distinct draws give distinct user ids and session tokens, so the
      cookies login writes name the draw they came from. */
  lemma {:induction false} IdsIdentifyDraws(a: nat, b: nat)
    ensures UserIdFor(a) == UserIdFor(b) <==> a == b
    ensures SessionIdFor(a) == SessionIdFor(b) <==> a == b
  {
    if UserIdFor(a) == UserIdFor(b) {
      assert UserIdFor(a)[5..] == FromNat(a);
      assert UserIdFor(b)[5..] == FromNat(b);
      FromNatInjective(a, b);
    }
    if SessionIdFor(a) == SessionIdFor(b) {
      assert SessionIdFor(a)[5..] == FromNat(a);
      assert SessionIdFor(b)[5..] == FromNat(b);
      FromNatInjective(a, b);
    }
  }

  datatype LoginResult = LoginResult(
    success: bool,
    message: string,
    email: string,
    userId: string,
    expiresAt: string,
    createdAt: string,
    sessionId: string,
    userName: string)

  /** The seven cookies login sets. */
  const LoginNames: set<string> := {"some-random-cookie", UserIdCookie, "email", "username", "expiresAt", "createdAt", "sessionId"}

  /** The jar after login's seven writes, in the order they are made. */
  function LoginJar(jar: Jar, email: string, now: nat, userDraw: nat, sessionDraw: nat, production: bool): (r: Jar)
    ensures r.Keys == jar.Keys + LoginNames
    ensures forall n :: n in jar && n !in LoginNames ==> r[n] == jar[n]
    ensures r["some-random-cookie"] == Cookie("some-random-value", NoOptions)
    ensures r[UserIdCookie] == Cookie(UserIdFor(userDraw), SessionOptions(production))
    ensures r["email"] == Cookie(email, SessionOptions(production))
    ensures r["username"] == Cookie(UserNameOf(email), SessionOptions(production))
    ensures r["expiresAt"] == Cookie(RenderTime(now + SessionTtlMs), SessionOptions(production))
    ensures r["createdAt"] == Cookie(RenderTime(now), SessionOptions(production))
    ensures r["sessionId"] == Cookie(SessionIdFor(sessionDraw), SessionOptions(production))
  {
    var o := SessionOptions(production);
    jar["some-random-cookie" := Cookie("some-random-value", NoOptions)]
       [UserIdCookie := Cookie(UserIdFor(userDraw), o)]
       ["email" := Cookie(email, o)]
       ["username" := Cookie(UserNameOf(email), o)]
       ["expiresAt" := Cookie(RenderTime(now + SessionTtlMs), o)]
       ["createdAt" := Cookie(RenderTime(now), o)]
       ["sessionId" := Cookie(SessionIdFor(sessionDraw), o)]
  }

  /** login: userDraw and sessionDraw stand for `Math.floor(Math.random() * 1000)`
      and `Math.floor(Math.random() * 10000)`, now for the clock. */
  method Login(store: CookieStore, resHeaders: ResponseHeaders, email: string, now: nat,
               userDraw: nat, sessionDraw: nat, production: bool)
    returns (r: LoginResult)
    requires userDraw < 1000 && sessionDraw < 10000
    modifies store, resHeaders
    ensures resHeaders.fields == old(resHeaders.fields)["x-user-id" := UserIdFor(userDraw)]
    ensures store.jar == LoginJar(old(store.jar), email, now, userDraw, sessionDraw, production)
    ensures r == LoginResult(true, "Logged in successfully", email, UserIdFor(userDraw),
                             RenderTime(now + SessionTtlMs), RenderTime(now),
                             SessionIdFor(sessionDraw), UserNameOf(email))
  {
    var userId := UserIdFor(userDraw);
    resHeaders.Set("x-user-id", userId);
    var userName := UserNameOf(email);
    var expiresAt := RenderTime(now + SessionTtlMs);
    var createdAt := RenderTime(now);
    var sessionId := SessionIdFor(sessionDraw);
    var o := SessionOptions(production);
    store.Set("some-random-cookie", "some-random-value", NoOptions);
    store.Set(UserIdCookie, userId, o);
    store.Set("email", email, o);
    store.Set("username", userName, o);
    store.Set("expiresAt", expiresAt, o);
    store.Set("createdAt", createdAt, o);
    store.Set("sessionId", sessionId, o);
    r := LoginResult(true, "Logged in successfully", email, userId, expiresAt, createdAt, sessionId, userName);
  }

  /** Until the seven days are over, the user agent sends back login's
      cookies and getSession returns the user id, times and session id that
      login returned. */
  lemma {:induction false} LoginThenSession(jar: Jar, email: string, now: nat, later: nat,
                                           userDraw: nat, sessionDraw: nat, production: bool)
    requires now <= later <= now + SessionTtlMs
    ensures var next := Retained(LoginJar(jar, email, now, userDraw, sessionDraw, production), now, later);
      Classify(next, later) == Active(TrpcSession(
        UserIdFor(userDraw), RenderTime(now), RenderTime(now + SessionTtlMs),
        SessionIdFor(sessionDraw), UserNameOf(email), if email == "" then "unknown" else email))
  {
    var written := LoginJar(jar, email, now, userDraw, sessionDraw, production);
    var next := Retained(written, now, later);
    forall n | n in LoginNames ensures n in next && next[n] == written[n] {
      assert !Evicted(written[n], now, later);
    }
    ToNatFromNat(now + SessionTtlMs);
    assert !ExpiryPassed(next, later);
  }

  /** As written, the same getSession fails: the finding at lines 71-72. */
  lemma LoginThenSessionAsWritten(jar: Jar, email: string, now: nat, later: nat,
                                  userDraw: nat, sessionDraw: nat, production: bool)
    requires now <= later <= now + SessionTtlMs
    ensures var next := Retained(LoginJar(jar, email, now, userDraw, sessionDraw, production), now, later);
      GetSessionAsWritten(next, later) == Err(Plain(INTERNAL_SERVER_ERROR))
  {
    LoginThenSession(jar, email, now, later, userDraw, sessionDraw, production);
  }

  /** After the seven days the user agent has dropped the user cookie. */
  lemma LoginThenLate(jar: Jar, email: string, now: nat, later: nat,
                      userDraw: nat, sessionDraw: nat, production: bool)
    requires later > now + SessionTtlMs
    ensures Classify(Retained(LoginJar(jar, email, now, userDraw, sessionDraw, production), now, later), later)
      == NoSession
  {
  }

  datatype LogoutResult = LogoutResult(success: bool, message: string)

  /** logout: expires all six names, present or not, and always succeeds. */
  method Logout(store: CookieStore, production: bool) returns (r: LogoutResult)
    modifies store
    ensures store.jar == Expire(old(store.jar), LogoutNames, production)
    ensures r == LogoutResult(true, "Logged out (or already logged out)")
  {
    var names := LogoutNames;
    for i := 0 to |names|
      invariant store.jar == Expire(old(store.jar), names[..i], production)
    {
      store.Set(names[i], "", ClearOptions(production));
      assert names[..i + 1][..i] == names[..i];
    }
    assert names[..|names|] == names;
    r := LogoutResult(true, "Logged out (or already logged out)");
  }

  /** Logging out twice leaves the same jar as logging out once. */
  lemma {:induction false} LogoutIdempotent(jar: Jar, production: bool)
    ensures Expire(Expire(jar, LogoutNames, production), LogoutNames, production)
      == Expire(jar, LogoutNames, production)
  {
    var once := Expire(jar, LogoutNames, production);
    var twice := Expire(once, LogoutNames, production);
    assert twice.Keys == once.Keys;
    assert forall n :: n in twice ==> twice[n] == once[n];
  }

  /** After logout there is no session, and the user agent keeps none of
      the six cookies. */
  lemma LogoutEndsSession(jar: Jar, production: bool, loggedOutAt: int, now: nat)
    ensures Classify(Expire(jar, LogoutNames, production), now) == NoSession
    ensures forall n :: n in LogoutNames ==> n !in Retained(Expire(jar, LogoutNames, production), loggedOutAt, now)
  {
  }

  /** The expiry branch leaves the email and username cookies as they were. */
  lemma ExpiryKeepsProfile(jar: Jar, production: bool)
    ensures forall n :: n in jar && n in {"email", "username"} ==>
      n in Expire(jar, ExpiryNames, production) && Expire(jar, ExpiryNames, production)[n] == jar[n]
  {
  }

  datatype Refreshed = Refreshed(success: bool, message: string, userId: string, expiresAt: string)

  /** refreshSession: touches no cookie and reports an expiry seven days on. */
  function RefreshSession(now: nat): (r: Refreshed)
    ensures r.success && r.userId == "unknown"
    ensures ParseTime(r.expiresAt) == Some(now + SessionTtlMs)
  {
    ToNatFromNat(now + SessionTtlMs);
    Refreshed(true, "Session refreshed successfully", "unknown", RenderTime(now + SessionTtlMs))
  }

  /** validateUser: any non-empty id is accepted. */
  function ValidateUser(userId: string): (valid: bool)
    ensures valid <==> userId != []
  {
    |userId| > 0
  }
}
