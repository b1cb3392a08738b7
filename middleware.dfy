/** The route guard that runs before every matched request of the web client:
    signed-in users are kept away from the sign-in pages, signed-out users away
    from the pages that need an account. */
module Middleware {
  import opened Wrappers
  import opened JsString

  /** What the guard answers: let the request through, or redirect it to `target`
      (a path on the request's own origin), optionally tagged with the page the
      user asked for in the `redirectedFrom` query parameter. */
  datatype Decision = Pass | Redirect(target: string, redirectedFrom: Option<string>)

  /** The sign-in pages. Matching is a raw prefix test, so "/loginx" counts too. */
  predicate IsAuthRoute(pathname: string) {
    StartsWith(pathname, "/login") || StartsWith(pathname, "/register")
  }

  /** The pages that need a session. Again a raw prefix test: "/profiles" counts. */
  predicate IsProtectedRoute(pathname: string) {
    || StartsWith(pathname, "/dashboard")
    || StartsWith(pathname, "/assignments")
    || StartsWith(pathname, "/profile")
    || StartsWith(pathname, "/onboarding")
  }

  /** The decision `middleware` takes for a request path, given whether the
      session lookup returned a session. */
  function Decide(pathname: string, hasSession: bool): (d: Decision)
    ensures d == Redirect("/dashboard", None) <==> IsAuthRoute(pathname) && hasSession
    ensures d == Redirect("/login", Some(pathname)) <==>
      !IsAuthRoute(pathname) && IsProtectedRoute(pathname) && !hasSession
    ensures d == Pass <==>
      || (IsAuthRoute(pathname) && !hasSession)
      || (!IsAuthRoute(pathname) && (!IsProtectedRoute(pathname) || hasSession))
  {
    if IsAuthRoute(pathname) then
      if hasSession then Redirect("/dashboard", None) else Pass
    else if IsProtectedRoute(pathname) && !hasSession then
      Redirect("/login", Some(pathname))
    else
      Pass
  }

  /** A signed-in user is never sent to the sign-in page, and a signed-out user is
      never sent to the dashboard: the guard cannot bounce a user between the two. */
  lemma NoRedirectLoop(pathname: string, hasSession: bool)
    ensures hasSession ==> Decide(pathname, hasSession) != Redirect("/login", Some(pathname))
    ensures hasSession ==> forall from :: Decide(pathname, hasSession) != Redirect("/login", from)
    ensures !hasSession ==> forall from :: Decide(pathname, hasSession) != Redirect("/dashboard", from)
  {
  }

  /** The second character of a sign-in path. */
  lemma AuthRouteLetter(pathname: string)
    ensures IsAuthRoute(pathname) ==> |pathname| >= 2 && (pathname[1] == 'l' || pathname[1] == 'r')
  {
    if StartsWith(pathname, "/login") {
      assert pathname[..6][1] == pathname[1];
    } else if StartsWith(pathname, "/register") {
      assert pathname[..9][1] == pathname[1];
    }
  }

  /** The second character of a protected path. */
  lemma ProtectedRouteLetter(pathname: string)
    ensures IsProtectedRoute(pathname) ==> |pathname| >= 2 && pathname[1] in "dapo"
  {
    if StartsWith(pathname, "/dashboard") {
      assert pathname[..10][1] == pathname[1];
    } else if StartsWith(pathname, "/assignments") {
      assert pathname[..12][1] == pathname[1];
    } else if StartsWith(pathname, "/profile") {
      assert pathname[..8][1] == pathname[1];
    } else if StartsWith(pathname, "/onboarding") {
      assert pathname[..11][1] == pathname[1];
    }
  }

  /** The two route families share no path, so the order of the two tests in the
      source does not matter. */
  lemma {:induction false} RouteFamiliesDisjoint(pathname: string)
    ensures IsAuthRoute(pathname) ==> !IsProtectedRoute(pathname)
  {
    AuthRouteLetter(pathname);
    ProtectedRouteLetter(pathname);
  }

  /** Following a redirect is accepted by the guard on the next request: the
      dashboard lets a session through and the sign-in page lets a non-session through. */
  lemma {:induction false} RedirectTargetPasses(pathname: string, hasSession: bool)
    requires Decide(pathname, hasSession).Redirect?
    ensures Decide(Decide(pathname, hasSession).target, hasSession) == Pass
  {
    var d := Decide(pathname, hasSession);
    if hasSession {
      assert d.target == "/dashboard";
      AuthRouteLetter("/dashboard");
    } else {
      assert d.target == "/login";
      assert StartsWith("/login", "/login");
    }
  }

  /** Prefix matching in action: "/loginx" is handled as a sign-in page and
      "/profiles" as a protected page; "/" passes either way. */
  lemma PrefixMatchingExamples()
    ensures Decide("/loginx", true) == Redirect("/dashboard", None)
    ensures Decide("/profiles", false) == Redirect("/login", Some("/profiles"))
    ensures Decide("/profiles", true) == Pass
    ensures Decide("/", false) == Pass && Decide("/", true) == Pass
  {
    assert StartsWith("/loginx", "/login");
    assert StartsWith("/profiles", "/profile");
    AuthRouteLetter("/profiles");
  }
}
