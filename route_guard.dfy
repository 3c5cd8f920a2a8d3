/**
 * The route guard run by the Next.js middleware before a page is served.
 * The session lookup is an input: `hasSession` says whether the auth
 * provider returned a session for the request's cookies.
 */
module RouteGuard {

  /** What the middleware hands back for one request. */
  datatype Response =
    | Next                        // the unchanged pass-through response
    | Redirect(location: string)  // a redirect to this path on the same origin

  const LogInPath: string := "/log-in"
  const SignUpPath: string := "/sign-up"
  const DashboardPath: string := "/dashboard"

  /** The pages a signed-in user is sent away from, in the order of the middleware's list. */
  const AuthPages: seq<string> := [LogInPath, SignUpPath]

  /** `s.startsWith(prefix)`: the code units of `prefix` open `s`. */
  function StartsWith(s: string, prefix: string): (r: bool)
    ensures r <==> prefix <= s
    decreases prefix
  {
    if prefix == [] then true
    else if s == [] then false
    else s[0] == prefix[0] && StartsWith(s[1..], prefix[1..])
  }

  /** `list.includes(x)` on an array of strings: some element equals `x`. */
  function Includes(list: seq<string>, x: string): (r: bool)
    ensures r <==> x in list
  {
    if list == [] then false
    else list[0] == x || Includes(list[1..], x)
  }

  /** The decision of `middleware`: two guarded early returns, then pass through. */
  function Middleware(hasSession: bool, pathname: string): (r: Response)
    ensures r.Redirect? ==> r.location == (if hasSession then DashboardPath else LogInPath)
  {
    if !hasSession && StartsWith(pathname, DashboardPath) then Redirect(LogInPath)
    else if hasSession && Includes(AuthPages, pathname) then Redirect(DashboardPath)
    else Next
  }

  /**
   * `config.matcher`: the paths on which the middleware runs at all.
   * `/dashboard/:path*` matches `/dashboard` itself and every path below it.
   */
  predicate Matched(pathname: string)
    ensures Matched(pathname)
        <==> pathname == DashboardPath || DashboardPath + "/" <= pathname || pathname in AuthPages
    ensures Matched(pathname) ==> DashboardPath <= pathname || pathname in AuthPages
  {
    pathname == DashboardPath
    || StartsWith(pathname, DashboardPath + "/")
    || pathname == LogInPath
    || pathname == SignUpPath
  }

  /** What a request receives once the matcher has decided whether the middleware runs. */
  function Route(hasSession: bool, pathname: string): (r: Response)
    ensures r.Redirect? ==> Matched(pathname)
    ensures r.Redirect? ==> r.location == (if hasSession then DashboardPath else LogInPath)
    ensures r.Redirect? ==> Matched(r.location)
  {
    if Matched(pathname) then Middleware(hasSession, pathname) else Next
  }

  /** With no session, every path that starts with `/dashboard` is sent to `/log-in`. */
  lemma NoSessionDashboardRedirects(pathname: string)
    requires DashboardPath <= pathname
    ensures Middleware(false, pathname) == Redirect(LogInPath)
  {
  }

  /** With a session, `/log-in` and `/sign-up` are sent to `/dashboard`. */
  lemma SessionAuthPageRedirects(pathname: string)
    requires pathname == LogInPath || pathname == SignUpPath
    ensures Middleware(true, pathname) == Redirect(DashboardPath)
  {
  }

  /** The request passes through exactly when neither guard applies. */
  lemma PassThroughOtherwise(hasSession: bool, pathname: string)
    ensures Middleware(hasSession, pathname) == Next
        <==> !(!hasSession && DashboardPath <= pathname)
             && !(hasSession && (pathname == LogInPath || pathname == SignUpPath))
  {
  }

  /**
   * One guard needs a session and the other needs none, so no request meets
   * both, and testing the guards in the other order gives the same decision.
   */
  lemma RedirectBranchesExclusive(hasSession: bool, pathname: string)
    ensures Middleware(hasSession, pathname) == Redirect(LogInPath) ==> !hasSession
    ensures Middleware(hasSession, pathname) == Redirect(DashboardPath) ==> hasSession
    ensures Middleware(hasSession, pathname)
         == if hasSession && Includes(AuthPages, pathname) then Redirect(DashboardPath)
            else if !hasSession && StartsWith(pathname, DashboardPath) then Redirect(LogInPath)
            else Next
  {
  }

  /** The dashboard guard is a prefix test: everything under `/dashboard` is guarded. */
  lemma DashboardGuardIsPrefix(rest: string)
    ensures Middleware(false, DashboardPath + rest) == Redirect(LogInPath)
  {
  }

  /** The auth-page rule is exact membership: a path that only begins with an auth page passes. */
  lemma AuthPageRuleIsExact(page: string, rest: string)
    requires page in AuthPages && rest != []
    ensures Middleware(true, page + rest) == Next
  {
    var p := page + rest;
    assert |p| > |page|;
    if page == LogInPath && |p| == |SignUpPath| {
      assert p[1] == 'l';
      assert SignUpPath[1] == 's';
    }
  }

  /** With no session the auth pages themselves are served. */
  lemma NoSessionAuthPagesPass(pathname: string)
    requires pathname in AuthPages
    ensures Middleware(false, pathname) == Next
  {
  }

  /** A redirect target, visited with the same session state, always passes through. */
  lemma NoRedirectLoop(hasSession: bool, pathname: string)
    ensures var r := Middleware(hasSession, pathname);
            r.Redirect? ==> Middleware(hasSession, r.location) == Next
  {
  }

  /**
   * Behind the matcher, a request is redirected exactly when it has no session
   * and lies in the `/dashboard` tree, or has a session and asks for an auth page.
   */
  lemma RouteRedirectsExactly(hasSession: bool, pathname: string)
    ensures Route(hasSession, pathname).Redirect?
        <==> (!hasSession && (pathname == DashboardPath || DashboardPath + "/" <= pathname))
             || (hasSession && pathname in AuthPages)
  {
  }

  /** Every redirect target is itself matched, and there it passes through. */
  lemma RouteNoRedirectLoop(hasSession: bool, pathname: string, target: string)
    requires Route(hasSession, pathname) == Redirect(target)
    ensures Matched(target)
    ensures Route(hasSession, target) == Next
  {
  }

  /**
   * The prefix test alone guards `/dashboard` followed by any segment text,
   * such as `/dashboards`, but the matcher keeps the middleware off those
   * paths, so they are served without a session.
   */
  lemma PrefixWiderThanMatcher(rest: string)
    requires rest != [] && rest[0] != '/'
    ensures Middleware(false, DashboardPath + rest) == Redirect(LogInPath)
    ensures Route(false, DashboardPath + rest) == Next
  {
    var p := DashboardPath + rest;
    assert p[10] == rest[0];
    assert p[10] != (DashboardPath + "/")[10];
    assert !(DashboardPath + "/" <= p);
  }
}
