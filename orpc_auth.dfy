/** The oRPC authentication procedures: signup, me, logout and signin. */
module OrpcAuth {
  import opened Wrappers
  import opened Json
  import opened Cookies
  import opened Rpc
  import opened OrpcSession

  /** UserSchema's fields. */
  datatype User = User(id: string, name: string, email: string)

  /** NewUserSchema's fields. */
  datatype NewUser = NewUser(name: string, email: string, password: string)

  /** signup: every new user gets the demo account's id; the password is
      dropped. */
  function Signup(input: NewUser): (u: User)
    ensures u.id == DemoId && u.email == input.email && u.name == input.name
  {
    User(DemoId, input.name, input.email)
  }

  /** UserSchema as output validation of a JSON value: an object whose id,
      name and email are strings, the email well-formed; other keys are
      stripped. */
  function UserOf(j: Json, isEmail: string -> bool): (r: Option<User>)
    ensures r.Some? ==> j.JObject? && isEmail(r.value.email)
    ensures r.Some? ==>
      Lookup(j.members, "id") == Some(JStr(r.value.id))
      && Lookup(j.members, "name") == Some(JStr(r.value.name))
      && Lookup(j.members, "email") == Some(JStr(r.value.email))
    ensures HasString(j, "id") && HasString(j, "name") && HasString(j, "email")
            && isEmail(Lookup(j.members, "email").value.s) ==>
      r == Some(User(Lookup(j.members, "id").value.s, Lookup(j.members, "name").value.s,
                     Lookup(j.members, "email").value.s))
  {
    if !j.JObject? then None
    else
      match (Lookup(j.members, "id"), Lookup(j.members, "name"), Lookup(j.members, "email"))
      case (Some(JStr(id)), Some(JStr(name)), Some(JStr(email))) =>
        if isEmail(email) then Some(User(id, name, email)) else None
      case _ => None
  }

  /** me: the context's user, behind the guard; a user that does not fit
      UserSchema fails output validation as an internal error. */
  function Me(ctx: Context, req: Request, isEmail: string -> bool): (r: Result<User, RpcError>)
    ensures Authed(ctx, req).Err? ==> r == Err(Plain(UNAUTHORIZED))
    ensures Authed(ctx, req).Ok? ==>
      var user := Authed(ctx, req).value["user"].user;
      (r.Ok? <==> UserOf(user, isEmail).Some?)
      && (r.Ok? ==> r.value == UserOf(user, isEmail).value)
      && (r.Err? ==> r.error == Plain(INTERNAL_SERVER_ERROR))
  {
    match Authed(ctx, req)
    case Err(e) => Err(e)
    case Ok(c) =>
      match UserOf(c["user"].user, isEmail)
      case None => Err(Plain(INTERNAL_SERVER_ERROR))
      case Some(u) => Ok(u)
  }

  predicate Matches(a: Account, email: string, password: string) {
    a.email == email && a.password == password
  }

  /** `users.find(...)`: the first account with that email and password. */
  function FindUser(users: seq<Account>, email: string, password: string): (r: Option<Account>)
    ensures r.None? <==> forall i :: 0 <= i < |users| ==> !Matches(users[i], email, password)
    ensures r.Some? ==>
      exists i :: 0 <= i < |users| && users[i] == r.value && Matches(users[i], email, password)
        && forall j :: 0 <= j < i ==> !Matches(users[j], email, password)
  {
    if users == [] then None
    else if Matches(users[0], email, password) then Some(users[0])
    else
      var r := FindUser(users[1..], email, password);
      assert r.Some? ==>
        exists i :: 0 <= i < |users| && users[i] == r.value && Matches(users[i], email, password)
          && forall j :: 0 <= j < i ==> !Matches(users[j], email, password) by {
        if r.Some? {
          var i :| 0 <= i < |users| - 1 && users[1..][i] == r.value
            && Matches(users[1..][i], email, password)
            && forall j :: 0 <= j < i ==> !Matches(users[1..][j], email, password);
          assert forall j :: 0 <= j < i + 1 ==> !Matches(users[j], email, password) by {
            forall j | 0 <= j < i + 1 ensures !Matches(users[j], email, password) {
              if j > 0 { assert users[j] == users[1..][j - 1]; }
            }
          }
        }
      }
      r
  }

  /** The session payload: id, email and name, in that order; no password. */
  function SessionData(a: Account): Json {
    JObject([Member("id", JStr(a.id)), Member("email", JStr(a.email)), Member("name", JStr(a.name))])
  }

  const SessionMaxAge: int := 60 * 60 * 24 * 7

  /** The session cookie's attributes; `secure` only in production. */
  function SessionOptions(production: bool, maxAge: int): CookieOptions {
    CookieOptions(true, production, Lax, Some("/"), Some(maxAge), None)
  }

  function SessionCookieFor(a: Account, production: bool): Cookie {
    Cookie(Serialize(SessionData(a)), SessionOptions(production, SessionMaxAge))
  }

  /** The cleared session cookie logout sets. */
  function ClearedSession(production: bool): Cookie {
    Cookie("", SessionOptions(production, 0))
  }

  /** signin (built on `base`, so no guard): a directory match stores the
      session cookie and returns the account id as token; no match throws a
      plain error and sets nothing. */
  method Signin(store: CookieStore, email: string, password: string, production: bool)
    returns (r: Outcome<string>)
    modifies store
    ensures FindUser(Users, email, password).None? ==>
      r == Err(Thrown("Invalid credentials")) && store.jar == old(store.jar)
    ensures r.Err? ==> Wire(r.error) == RpcError(INTERNAL_SERVER_ERROR, 500, None)
    ensures FindUser(Users, email, password).Some? ==>
      var a := FindUser(Users, email, password).value;
      r == Ok(a.id) && store.jar == old(store.jar)[SessionCookie := SessionCookieFor(a, production)]
  {
    var user := FindUser(Users, email, password);
    if user.None? {
      return Err(Thrown("Invalid credentials"));
    }
    var sessionData := SessionData(user.value);
    store.Set(SessionCookie, Serialize(sessionData), SessionOptions(production, SessionMaxAge));
    r := Ok(user.value.id);
  }

  /** A rejected sign-in throws a plain Error, so the client sees a generic
      500 INTERNAL_SERVER_ERROR without the "Invalid credentials" text, and
      never UNAUTHORIZED. */
  lemma RejectedSigninOnWire()
    ensures Wire(Thrown("Invalid credentials")) == RpcError(INTERNAL_SERVER_ERROR, 500, None)
    ensures Wire(Thrown("Invalid credentials")) != Plain(UNAUTHORIZED)
  {
  }

  /** logout (behind the guard): clears the session cookie and reports
      success. The handler builds its declared UNAUTHORIZED error when the
      cookie is missing but never throws it, so passing the guard is enough. */
  method Logout(ctx: Context, headers: map<string, string>, store: CookieStore, production: bool)
    returns (r: Result<bool, RpcError>)
    modifies store
    ensures Authed(ctx, Request(headers, old(store.jar))).Err? ==>
      r == Err(Plain(UNAUTHORIZED)) && store.jar == old(store.jar)
    ensures Authed(ctx, Request(headers, old(store.jar))).Ok? ==>
      r == Ok(true) && store.jar == old(store.jar)[SessionCookie := ClearedSession(production)]
  {
    var passed := Authed(ctx, Request(headers, store.jar));
    if passed.Err? {
      return Err(passed.error);
    }
    store.Set(SessionCookie, "", SessionOptions(production, 0));
    r := Ok(true);
  }

  /** Only the demo credentials sign in. */
  lemma SigninAcceptsOnlyDemo(email: string, password: string)
    ensures FindUser(Users, email, password).Some? <==>
      email == "demo@example.com" && password == "password123"
    ensures FindUser(Users, email, password).Some? ==> FindUser(Users, email, password).value == Users[0]
  {
  }

  /** The cookie signin sets survives in the user agent, and on the next
      request the guard finds the account's id, email and name in it. */
  lemma {:induction false} SigninThenAuthed(a: Account, production: bool, jar: Jar, signedAt: int, now: int,
                                           ctx: Context, headers: map<string, string>)
    requires PriorSession(ctx).None? && now <= signedAt + SessionMaxAge * 1000
    ensures var next := Retained(jar[SessionCookie := SessionCookieFor(a, production)], signedAt, now);
      GetSession(next) == Some(Session(Some(SessionData(a))))
      && Authed(ctx, Request(headers, next)).Ok?
      && Authed(ctx, Request(headers, next)).value["user"] == UserEntry(SessionData(a))
  {
    var next := Retained(jar[SessionCookie := SessionCookieFor(a, production)], signedAt, now);
    assert next[SessionCookie] == SessionCookieFor(a, production);
    ParseSerialize(SessionData(a));
    assert Serialize(SessionData(a)) != [] by {
      assert Serialize(SessionData(a))[0] == '{';
    }
  }

  /** Seven days after signin the user agent has dropped the session cookie. */
  lemma SigninExpires(a: Account, production: bool, jar: Jar, signedAt: int, now: int)
    requires now > signedAt + SessionMaxAge * 1000
    ensures GetSession(Retained(jar[SessionCookie := SessionCookieFor(a, production)], signedAt, now)) == None
  {
  }

  /** After signin, me returns the signed-in account's id, name and email. */
  lemma {:induction false} SigninThenMe(a: Account, production: bool, jar: Jar, signedAt: int, now: int,
                                       ctx: Context, headers: map<string, string>, isEmail: string -> bool)
    requires PriorSession(ctx).None? && now <= signedAt + SessionMaxAge * 1000 && isEmail(a.email)
    ensures var next := Retained(jar[SessionCookie := SessionCookieFor(a, production)], signedAt, now);
      Me(ctx, Request(headers, next), isEmail) == Ok(User(a.id, a.name, a.email))
  {
    SigninThenAuthed(a, production, jar, signedAt, now, ctx, headers);
    var ms := SessionData(a).members;
    LookupLast(ms, 0, "id");
    LookupLast(ms, 1, "email");
    LookupLast(ms, 2, "name");
  }

  /** After logout the user agent drops the session cookie, so a request
      without a session in its context is turned away. */
  lemma LogoutThenRejected(jar: Jar, production: bool, loggedOutAt: int, now: int,
                           ctx: Context, headers: map<string, string>)
    requires PriorSession(ctx).None?
    ensures var next := Retained(jar[SessionCookie := ClearedSession(production)], loggedOutAt, now);
      SessionCookie !in next && GetSession(next) == None
      && Authed(ctx, Request(headers, next)) == Err(Plain(UNAUTHORIZED))
  {
  }

  /** Even before the user agent drops it, the cleared cookie carries no
      session. */
  lemma ClearedCookieHasNoSession(jar: Jar, production: bool)
    ensures GetSession(jar[SessionCookie := ClearedSession(production)]) == None
  {
  }

  /** A session provided by the context lets logout pass without any session
      cookie: the declared "already logged out" error is never raised. */
  lemma LogoutWithoutCookie(ctx: Context, headers: map<string, string>, jar: Jar)
    requires SignedIn(PriorSession(ctx)) && SessionCookie !in jar
    ensures Authed(ctx, Request(headers, jar)).Ok?
  {
  }
}
