/** The web app's edge middleware: redirects between the home page and the
    protected example page according to the presence of a session cookie. */
module EdgeGuard {
  import opened Wrappers
  import opened Json
  import opened Cookies
  import opened OrpcSession

  const Home: string := "/"
  const Protected: string := "/react-query-example"

  /** `config.matcher`: the middleware runs for exactly these paths. */
  const Matcher: set<string> := {Home, Protected}

  datatype Decision = Redirect(target: string) | Continue

  predicate StartsWith(s: string, prefix: string) {
    |prefix| <= |s| && s[..|prefix|] == prefix
  }

  /** `!!req.cookies.get("session")?.value`: any non-empty value counts,
      whether or not it is a valid session. */
  predicate LoggedIn(jar: Jar) {
    !Missing(jar, SessionCookie)
  }

  /** The middleware body. */
  function Decide(loggedIn: bool, path: string): (d: Decision)
    ensures d == Redirect(Home) <==> !loggedIn && StartsWith(path, Protected)
    ensures d == Redirect(Protected) <==> loggedIn && path == Home
    ensures d.Continue? <==> !(!loggedIn && StartsWith(path, Protected)) && !(loggedIn && path == Home)
  {
    if !loggedIn && StartsWith(path, Protected) then Redirect(Home)
    else if loggedIn && path == Home then Redirect(Protected)
    else Continue
  }

  /** A request as the edge sees it: paths outside the matcher never reach
      the middleware body. */
  function Handle(jar: Jar, path: string): (d: Decision)
    ensures path !in Matcher ==> d == Continue
    ensures path in Matcher ==> d == Decide(LoggedIn(jar), path)
  {
    if path in Matcher then Decide(LoggedIn(jar), path) else Continue
  }

  /** Following a redirect, with the same cookies, is never redirected again. */
  lemma {:induction false} NoRedirectLoop(jar: Jar, path: string)
    requires Handle(jar, path).Redirect?
    ensures Handle(jar, Handle(jar, path).target) == Continue
  {
    assert !StartsWith(Home, Protected);
  }

  /** Of the two paths the matcher admits, a visitor without a session may see
      only the home page and one with a session only the protected page. */
  lemma {:induction false} MatchedPaths(jar: Jar)
    ensures Handle(jar, Home) == (if LoggedIn(jar) then Redirect(Protected) else Continue)
    ensures Handle(jar, Protected) == (if LoggedIn(jar) then Continue else Redirect(Home))
  {
    assert StartsWith(Protected, Protected);
    assert !StartsWith(Home, Protected);
  }

  /** Pages below the protected one are outside the matcher, so they are not
      guarded even though the body's prefix test would catch them. */
  lemma SubpageUnguarded(jar: Jar, rest: string)
    requires rest != []
    ensures Handle(jar, Protected + rest) == Continue
    ensures Decide(false, Protected + rest) == Redirect(Home)
  {
    assert (Protected + rest)[..|Protected|] == Protected;
    assert |Protected + rest| > |Protected|;
  }

  /** The edge only looks at the cookie's presence: any non-empty session
      cookie passes the edge, even one that is not JSON (such as text
      starting with 'x'), which the procedures' guard reads as no session. */
  lemma {:induction false} EdgeTrustsAnyCookie(jar: Jar, text: string)
    requires text != []
    ensures LoggedIn(jar[SessionCookie := Cookie(text, NoOptions)])
    ensures text[0] == 'x' ==> GetSession(jar[SessionCookie := Cookie(text, NoOptions)]) == None
  {
    if text[0] == 'x' {
      assert ParseValue(text) == None;
    }
  }
}
