/** The request gate of middleware.ts: given the route configuration, the request's path and
    query string and whether the request carries a session, it lets the request through or
    redirects it. */
module Middleware {
  import opened JsStrings

  /** The route lists imported from the routes module. */
  datatype Config = Config(
    apiAuthPrefix: string,
    authRoutes: seq<string>,
    privateRoutes: seq<string>,
    defaultLoginRedirect: string)

  /** A redirect target: a path and the query parameters set on it, in order. */
  datatype Location = Location(path: string, params: seq<(string, string)>)

  /** What the gate answers: `null` (proceed), or one of the two redirects. */
  datatype Decision =
    | Allow
    | RedirectDefault(target: string)
    | RedirectLogin(location: Location)

  const LoginPath := "/login"
  const CallbackParam := "callbackUrl"

  /** The configuration the comments of middleware.ts give as an example; the default
      target is not shown there and stays a parameter. */
  function ExampleConfig(home: string): Config
  {
    Config("/api/auth", ["/login", "/register"], ["/my", "/orders", "/checkout/address", "/admin"], home)
  }

  /** `pathname.startsWith(apiAuthPrefix)` */
  predicate IsApiAuthRoute(cfg: Config, pathname: string)
  {
    StartsWith(pathname, cfg.apiAuthPrefix)
  }

  /** `authRoutes.includes(pathname)`: exact membership. */
  predicate IsAuthRoute(cfg: Config, pathname: string)
  {
    pathname in cfg.authRoutes
  }

  /** `privateRoutes.some(route => pathname.startsWith(route))`: raw string prefix. */
  predicate IsPrivateRoute(cfg: Config, pathname: string)
  {
    exists i :: 0 <= i < |cfg.privateRoutes| && StartsWith(pathname, cfg.privateRoutes[i])
  }

  /** The login page, carrying the requested path and query as its only parameter. */
  function LoginRedirect(pathname: string, search: string): Location
  {
    Location(LoginPath, [(CallbackParam, pathname + search)])
  }

  /** The gate's callback body: the three early returns, in their order. */
  function Decide(cfg: Config, pathname: string, search: string, loggedIn: bool): Decision
  {
    if IsApiAuthRoute(cfg, pathname) then Allow
    else if IsAuthRoute(cfg, pathname) && loggedIn then RedirectDefault(cfg.defaultLoginRedirect)
    else if IsPrivateRoute(cfg, pathname) && !loggedIn then RedirectLogin(LoginRedirect(pathname, search))
    else Allow
  }

  /** Paths under the api-auth prefix always proceed, whatever else holds of them. */
  lemma ApiAuthAlwaysAllowed(cfg: Config, pathname: string, search: string, loggedIn: bool)
    requires StartsWith(pathname, cfg.apiAuthPrefix)
    ensures Decide(cfg, pathname, search, loggedIn) == Allow
  {
  }

  /** A signed-in visitor of a listed auth page goes to the default page. */
  lemma LoggedInAuthPageRedirected(cfg: Config, pathname: string, search: string)
    requires !StartsWith(pathname, cfg.apiAuthPrefix)
    requires pathname in cfg.authRoutes
    ensures Decide(cfg, pathname, search, true) == RedirectDefault(cfg.defaultLoginRedirect)
  {
  }

  /** A visitor without a session who asks for a private path is sent to the login page,
      which gets back exactly the requested path and query and nothing else. */
  lemma LoggedOutPrivateRedirected(cfg: Config, pathname: string, search: string, route: string)
    requires !StartsWith(pathname, cfg.apiAuthPrefix)
    requires route in cfg.privateRoutes && StartsWith(pathname, route)
    ensures Decide(cfg, pathname, search, false).RedirectLogin?
    ensures Decide(cfg, pathname, search, false).location.path == "/login"
    ensures Decide(cfg, pathname, search, false).location.params == [("callbackUrl", pathname + search)]
  {
  }

  /** The three outcomes, each with exactly the condition under which the gate chooses it. */
  lemma DecisionCases(cfg: Config, pathname: string, search: string, loggedIn: bool)
    ensures var d := Decide(cfg, pathname, search, loggedIn);
      && (d.RedirectDefault? <==>
            !IsApiAuthRoute(cfg, pathname) && IsAuthRoute(cfg, pathname) && loggedIn)
      && (d.RedirectLogin? <==>
            !IsApiAuthRoute(cfg, pathname) && IsPrivateRoute(cfg, pathname) && !loggedIn)
      && (d.Allow? <==>
            IsApiAuthRoute(cfg, pathname) ||
            (!(IsAuthRoute(cfg, pathname) && loggedIn) && !(IsPrivateRoute(cfg, pathname) && !loggedIn)))
      && (d.RedirectDefault? ==> d.target == cfg.defaultLoginRedirect)
      && (d.RedirectLogin? ==> d.location == LoginRedirect(pathname, search))
  {
  }

  /** A signed-in visitor is never sent to the login page; a visitor without a session is
      never sent to the default page. */
  lemma SessionDecidesRedirectKind(cfg: Config, pathname: string, search: string, loggedIn: bool)
    ensures loggedIn ==> !Decide(cfg, pathname, search, loggedIn).RedirectLogin?
    ensures !loggedIn ==> !Decide(cfg, pathname, search, loggedIn).RedirectDefault?
  {
  }

  /** A path that is both an auth page and private: the auth-page rule is tried first, so the
      signed-in visitor goes to the default page, and the private rule catches the other. */
  lemma AuthRuleBeforePrivateRule(cfg: Config, pathname: string, search: string)
    requires !IsApiAuthRoute(cfg, pathname)
    requires IsAuthRoute(cfg, pathname) && IsPrivateRoute(cfg, pathname)
    ensures Decide(cfg, pathname, search, true) == RedirectDefault(cfg.defaultLoginRedirect)
    ensures Decide(cfg, pathname, search, false) == RedirectLogin(LoginRedirect(pathname, search))
  {
  }

  /** Auth pages are matched exactly: a path below a listed auth page is not one unless it is
      listed itself, and a listed page is one. */
  lemma AuthRoutesMatchExactly(cfg: Config, route: string, rest: string)
    requires route in cfg.authRoutes && |rest| > 0 && route + rest !in cfg.authRoutes
    ensures IsAuthRoute(cfg, route)
    ensures !IsAuthRoute(cfg, route + rest)
  {
  }

  /** Private routes are matched by raw prefix: anything that continues a listed private
      route is private, also past a segment boundary. */
  lemma PrivateRoutesMatchByPrefix(cfg: Config, route: string, rest: string)
    requires route in cfg.privateRoutes
    ensures IsPrivateRoute(cfg, route + rest)
  {
  }

  /** The gate on the example configuration: "/login/x" is no auth page; "/mystuff" is private
      because "/my" is listed; "/admin/x" without a session goes to the login page. */
  lemma ExampleDecisions(home: string)
    ensures !IsAuthRoute(ExampleConfig(home), "/login/x")
    ensures IsPrivateRoute(ExampleConfig(home), "/mystuff")
    ensures Decide(ExampleConfig(home), "/admin/x", "", false) ==
            RedirectLogin(Location("/login", [("callbackUrl", "/admin/x")]))
    ensures Decide(ExampleConfig(home), "/login", "", true) == RedirectDefault(home)
    ensures Decide(ExampleConfig(home), "/api/auth/callback", "", false) == Allow
    ensures Decide(ExampleConfig(home), "/api/auth/callback", "", true) == Allow
  {
    PrivateRoutesMatchByPrefix(ExampleConfig(home), "/my", "stuff");
    PrivateRoutesMatchByPrefix(ExampleConfig(home), "/admin", "/x");
    assert "/api/auth/callback"[..9] == "/api/auth";
    assert "/admin/x" + "" == "/admin/x";
    assert "/login"[..6] == "/login";
  }

  /** The paths the gate runs on (`config.matcher`): the four private patterns, then the auth
      routes unchanged; the api-auth pattern is commented out. */
  function Matcher(cfg: Config): seq<string>
  {
    ["/my/:path*", "/orders/:path*", "/checkout/address/:path*", "/admin/:path*"] + cfg.authRoutes
  }

  lemma MatcherShape(cfg: Config)
    ensures |Matcher(cfg)| == 4 + |cfg.authRoutes|
    ensures Matcher(cfg)[..4] == ["/my/:path*", "/orders/:path*", "/checkout/address/:path*", "/admin/:path*"]
    ensures Matcher(cfg)[4..] == cfg.authRoutes
    ensures "/api/auth/:path*" in Matcher(cfg) <==> "/api/auth/:path*" in cfg.authRoutes
  {
  }
}
