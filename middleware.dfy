/**
 * The request interceptor (middleware.ts): gates the protected path prefixes on the presence of
 * an authentication cookie, sends a signed-in visitor away from the sign-in page, and otherwise
 * lets the request through with fixed security headers.
 */
module Middleware {
  import opened JsString

  const ProtectedRoutes: seq<string> := ["/dashboard", "/profile", "/settings", "/transactions"]
  const PublicRoutes: seq<string> := ["/", "/signin", "/about", "/contact"]

  /** The cookies that each, when non-empty, mark the request as authenticated. */
  const FirebaseAuthCookie: string := "firebase-auth-token"
  const AuthTokenCookie: string := "auth-token"
  const SessionCookie: string := "__session"

  /** The six response headers of a request that is let through, in the order they are set. */
  const SecurityHeaders: seq<(string, string)> := [
    ("X-Content-Type-Options", "nosniff"),
    ("X-Frame-Options", "DENY"),
    ("X-XSS-Protection", "1; mode=block"),
    ("Referrer-Policy", "strict-origin-when-cross-origin"),
    ("X-RateLimit-Limit", "100"),
    ("X-RateLimit-Remaining", "99")
  ]

  /**
   * `Next` lets the request through with the given headers; `Redirect` answers with a redirect
   * to `path` on the request's own origin, with the given query parameters.
   */
  datatype Response =
    | Next(headers: seq<(string, string)>)
    | Redirect(path: string, query: seq<(string, string)>)

  /** A plain prefix test: `/dashboardX` and `/settings-old` are protected too. */
  predicate IsProtectedRoute(pathname: string) {
    exists k :: 0 <= k < |ProtectedRoutes| && StartsWith(pathname, ProtectedRoutes[k])
  }

  /** Computed by the interceptor and never read. */
  predicate IsPublicRoute(pathname: string) {
    exists k :: 0 <= k < |PublicRoutes| && (pathname == PublicRoutes[k] || StartsWith(pathname, PublicRoutes[k]))
  }

  /** `request.cookies.get(name)?.value` is truthy: present and not the empty string. */
  predicate HasCookie(cookies: map<string, string>, name: string) {
    name in cookies && cookies[name] != ""
  }

  predicate IsAuthenticated(cookies: map<string, string>) {
    HasCookie(cookies, FirebaseAuthCookie) || HasCookie(cookies, AuthTokenCookie) || HasCookie(cookies, SessionCookie)
  }

  /** The interceptor's decision for a request to `pathname` carrying `cookies`. */
  function Middleware(pathname: string, cookies: map<string, string>): (r: Response)
    ensures IsProtectedRoute(pathname) && !IsAuthenticated(cookies)
            <==> r == Redirect("/signin", [("redirect", pathname)])
    ensures pathname == "/signin" && IsAuthenticated(cookies)
            <==> r == Redirect("/dashboard", [])
    ensures r.Next? ==> r.headers == SecurityHeaders
    ensures r.Redirect? || r.Next?
  {
    if IsProtectedRoute(pathname) && !IsAuthenticated(cookies) then
      Redirect("/signin", [("redirect", pathname)])
    else if pathname == "/signin" && IsAuthenticated(cookies) then
      Redirect("/dashboard", [])
    else
      Next(SecurityHeaders)
  }

  /** No protected prefix is a prefix of `/signin`, so the two redirect rules never compete. */
  lemma {:induction false} SignInIsNotProtected()
    ensures !IsProtectedRoute("/signin")
  {
    var p := "/signin";
    forall k | 0 <= k < |ProtectedRoutes|
      ensures !StartsWith(p, ProtectedRoutes[k])
    {
      assert |ProtectedRoutes[k]| > |p|;
    }
  }

  /** A request is let through exactly when neither redirect rule applies. */
  lemma {:induction false} PassesThroughIff(pathname: string, cookies: map<string, string>)
    ensures Middleware(pathname, cookies).Next? <==>
              (!IsProtectedRoute(pathname) || IsAuthenticated(cookies))
              && (pathname != "/signin" || !IsAuthenticated(cookies))
  {
  }

  /** Whatever the cookies, `/signin` is never sent to the sign-in page itself. */
  lemma {:induction false} SignInNeverRedirectsToItself(cookies: map<string, string>)
    ensures Middleware("/signin", cookies).Redirect? ==> Middleware("/signin", cookies).path == "/dashboard"
    ensures Middleware("/signin", cookies).Next? <==> !IsAuthenticated(cookies)
  {
    SignInIsNotProtected();
  }

  /** Only exactly `/signin` is sent to the dashboard: a page below it passes through. */
  lemma {:induction false} SignInSubpathPassesThrough(pathname: string, cookies: map<string, string>)
    requires StartsWith(pathname, "/signin/")
    ensures Middleware(pathname, cookies) == Next(SecurityHeaders)
  {
    forall k | 0 <= k < |ProtectedRoutes|
      ensures !StartsWith(pathname, ProtectedRoutes[k])
    {
      assert pathname[..|"/signin/"|] == "/signin/";
      assert pathname[1] == 's';
      assert pathname[1] != ProtectedRoutes[k][1] || pathname[2] != ProtectedRoutes[k][2];
    }
    assert pathname != "/signin" by {
      assert |pathname| >= 8;
    }
  }

  /** An empty cookie counts as absent: a request carrying only empty cookies is not authenticated. */
  lemma {:induction false} EmptyCookiesDoNotAuthenticate(cookies: map<string, string>)
    requires forall name :: name in cookies ==> cookies[name] == ""
    ensures !IsAuthenticated(cookies)
  {
  }

  /** Any other cookie never authenticates: only the three named cookies are read. */
  lemma {:induction false} OtherCookiesAreIgnored(pathname: string, cookies: map<string, string>, name: string, value: string)
    requires name != FirebaseAuthCookie && name != AuthTokenCookie && name != SessionCookie
    ensures Middleware(pathname, cookies[name := value]) == Middleware(pathname, cookies)
  {
    assert IsAuthenticated(cookies[name := value]) == IsAuthenticated(cookies);
  }

  /** The prefix test makes `/dashboardX` a protected path. */
  lemma {:induction false} PrefixProtection(cookies: map<string, string>)
    requires !IsAuthenticated(cookies)
    ensures Middleware("/dashboardX", cookies) == Redirect("/signin", [("redirect", "/dashboardX")])
    ensures Middleware("/settings-old", cookies) == Redirect("/signin", [("redirect", "/settings-old")])
  {
    assert StartsWith("/dashboardX", ProtectedRoutes[0]);
    assert StartsWith("/settings-old", ProtectedRoutes[2]);
  }

  /** Since `/` is a public route, every absolute path counts as public, protected ones included. */
  lemma {:induction false} EveryPathIsPublic(pathname: string)
    requires StartsWith(pathname, "/")
    ensures IsPublicRoute(pathname)
  {
    assert StartsWith(pathname, PublicRoutes[0]);
  }
}
