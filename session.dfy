/**
 * The request gate of middleware.ts: a path/method/cookie decision that either
 * lets the request through or redirects it to the login page.
 */
module Middleware {
  import opened Common
  import opened Text

  /** `NextResponse.next()` or `NextResponse.redirect(/admin/login?redirect=<path>)`. */
  datatype Decision = Next | RedirectToLogin(loginPath: string, redirect: string)

  const LoginPage: string := "/admin/login"

  /** `config.matcher`: `/admin/:path*` and the like match the prefix itself and everything below it. */
  predicate MatchesPrefix(path: string, prefix: string) {
    path == prefix || StartsWith(path, prefix + "/")
  }

  predicate Matched(path: string) {
    || MatchesPrefix(path, "/admin")
    || MatchesPrefix(path, "/api/auth")
    || MatchesPrefix(path, "/api/content")
    || MatchesPrefix(path, "/api/upload")
  }

  predicate IsAdminPath(path: string) {
    StartsWith(path, "/admin") && !StartsWith(path, "/admin/login")
  }

  predicate IsApiAuthPath(path: string) {
    StartsWith(path, "/api/auth") && !StartsWith(path, "/api/auth/login")
  }

  /** Only requests that are not GET are protected on the content API. */
  predicate IsApiContentPath(path: string, verb: string) {
    StartsWith(path, "/api/content") && verb != "GET"
  }

  predicate IsApiUploadPath(path: string) {
    StartsWith(path, "/api/upload")
  }

  predicate IsProtected(path: string, verb: string) {
    IsAdminPath(path) || IsApiAuthPath(path) || IsApiContentPath(path, verb) || IsApiUploadPath(path)
  }

  /** The `admin_session` cookie exists and its value is exactly `"true"`. */
  predicate HasSession(session: Option<string>) {
    session == Some("true")
  }

  /** `middleware(request)`. */
  function Decide(path: string, verb: string, session: Option<string>): (d: Decision)
    ensures d == Next <==> !IsProtected(path, verb) || HasSession(session)
    ensures d.RedirectToLogin? ==> d.loginPath == LoginPage && d.redirect == path
  {
    if IsProtected(path, verb) && (session.None? || session.value != "true") then
      RedirectToLogin(LoginPage, path)
    else
      Next
  }

  /** What a request meets: the middleware runs only on paths the matcher selects. */
  function Gate(path: string, verb: string, session: Option<string>): (d: Decision)
    ensures !Matched(path) ==> d == Next
    ensures Matched(path) ==> d == Decide(path, verb, session)
  {
    if Matched(path) then Decide(path, verb, session) else Next
  }

  /** Strings that agree on a prefix up to a point differ after a disagreeing character. */
  lemma NotBoth(path: string, p: string, q: string, k: nat)
    requires k < |p| && k < |q| && p[k] != q[k]
    ensures !(StartsWith(path, p) && StartsWith(path, q))
  {
    if StartsWith(path, p) && |q| <= |path| {
      assert path[..|q|][k] == path[..|p|][k] != q[k];
    }
  }

  /** Admin pages other than the login page are protected for every method. */
  lemma AdminPagesNeedSession(path: string, verb: string, session: Option<string>)
    requires IsAdminPath(path) && !HasSession(session)
    ensures Decide(path, verb, session) == RedirectToLogin(LoginPage, path)
  {
  }

  /** A GET on the content API always passes, with or without a session. */
  lemma ContentReadsArePublic(path: string, session: Option<string>)
    requires StartsWith(path, "/api/content")
    ensures Decide(path, "GET", session) == Next
  {
    NotBoth(path, "/api/content", "/admin", 2);
    NotBoth(path, "/api/content", "/api/auth", 5);
    NotBoth(path, "/api/content", "/api/upload", 5);
  }

  /** Any other method on the content API needs the session. */
  lemma ContentWritesNeedSession(path: string, verb: string, session: Option<string>)
    requires StartsWith(path, "/api/content") && verb != "GET" && !HasSession(session)
    ensures Decide(path, verb, session) == RedirectToLogin(LoginPage, path)
  {
  }

  /** The login page and the login endpoint are reachable without a session. */
  lemma LoginIsReachable(verb: string, session: Option<string>)
    ensures Gate("/admin/login", verb, session) == Next
    ensures Gate("/api/auth/login", verb, session) == Next
  {
    assert StartsWith("/admin/login", "/admin/login");
    assert StartsWith("/api/auth/login", "/api/auth/login");
    NotBoth("/admin/login", "/admin", "/api/content", 2);
    NotBoth("/admin/login", "/admin", "/api/upload", 2);
    NotBoth("/admin/login", "/admin", "/api/auth", 2);
    NotBoth("/api/auth/login", "/api/auth", "/api/content", 5);
    NotBoth("/api/auth/login", "/api/auth", "/api/upload", 5);
    NotBoth("/api/auth/login", "/api/auth", "/admin", 2);
  }

  /** Paths that merely share a prefix, such as `/administrator`, never reach the middleware. */
  lemma UnmatchedPathPasses(verb: string, session: Option<string>)
    ensures IsAdminPath("/administrator")
    ensures Gate("/administrator", verb, session) == Next
  {
    assert StartsWith("/administrator", "/admin");
    NotBoth("/administrator", "/administrator", "/admin/login", 6);
    NotBoth("/administrator", "/administrator", "/admin/", 6);
    NotBoth("/administrator", "/administrator", "/api/auth/", 2);
    NotBoth("/administrator", "/administrator", "/api/content/", 2);
    NotBoth("/administrator", "/administrator", "/api/upload/", 2);
  }
}

/** app/api/auth/login/route.ts: the one hard-coded credential pair and the session cookie. */
module AuthLogin {
  import opened Common

  const AdminUsername: string := "admin"
  const AdminPassword: string := "password123"
  const SessionCookieName: string := "admin_session"
  /** One day, in seconds. */
  const SessionMaxAge: nat := 60 * 60 * 24

  /** The no-cache headers sent with a successful login and with both session-check answers. */
  const NoCacheHeaders: seq<(string, string)> := [
    ("Cache-Control", "no-store, no-cache, must-revalidate, proxy-revalidate"),
    ("Pragma", "no-cache"),
    ("Expires", "0"),
    ("Surrogate-Control", "no-store")
  ]

  datatype SameSite = Strict | Lax

  datatype Cookie = Cookie(
    name: string, value: string, httpOnly: bool, secure: bool,
    maxAge: nat, path: string, sameSite: SameSite)

  /**
   * The request body: JSON that could not be parsed or destructured, or the
   * `username` and `password` members (absent, or not strings, as `None`).
   */
  datatype LoginBody = Unparsable | Credentials(username: Option<string>, password: Option<string>)

  datatype LoginResponse = LoginResponse(
    status: nat, success: bool, message: Option<string>,
    headers: seq<(string, string)>, setCookie: Option<Cookie>)

  /** The cookie a successful login sets; `secure` follows whether the server runs in production. */
  function SessionCookie(production: bool): Cookie {
    Cookie(SessionCookieName, "true", true, production, SessionMaxAge, "/", Strict)
  }

  /** `POST /api/auth/login`. */
  function Post(body: LoginBody, production: bool): (r: LoginResponse)
    ensures r.status == 200 <==> body == Credentials(Some(AdminUsername), Some(AdminPassword))
    ensures r.success <==> r.status == 200
    ensures r.setCookie.Some? <==> r.status == 200
    ensures r.status == 200 ==> r.setCookie == Some(SessionCookie(production)) && r.headers == NoCacheHeaders
    ensures body.Credentials? && r.status != 200 ==> r.status == 401 && r.headers == []
    ensures body.Unparsable? ==> r.status == 500 && r.setCookie == None
  {
    match body
    case Unparsable => LoginResponse(500, false, Some("Internal server error"), [], None)
    case Credentials(username, password) =>
      if username == Some(AdminUsername) && password == Some(AdminPassword) then
        LoginResponse(200, true, None, NoCacheHeaders, Some(SessionCookie(production)))
      else
        LoginResponse(401, false, Some("Invalid username or password"), [], None)
  }

  /** The issued cookie is http-only, strict same-site, site-wide and lasts 86400 seconds. */
  lemma SessionCookieAttributes(production: bool)
    ensures var c := SessionCookie(production);
            c.name == "admin_session" && c.value == "true" && c.httpOnly && c.sameSite == Strict
            && c.path == "/" && c.maxAge == 86400 && c.secure == production
  {
  }
}

/** app/api/auth/check/route.ts: whether the request carries the session. */
module AuthCheck {
  import opened Common
  import AuthLogin

  datatype CheckResponse = CheckResponse(status: nat, authenticated: bool, headers: seq<(string, string)>)

  /** `GET /api/auth/check`; it reads the cookie and changes nothing. */
  function Get(session: Option<string>): (r: CheckResponse)
    ensures r.authenticated <==> session == Some("true")
    ensures r.status == (if r.authenticated then 200 else 401)
    ensures r.headers == AuthLogin.NoCacheHeaders
  {
    if session.Some? && session.value == "true" then CheckResponse(200, true, AuthLogin.NoCacheHeaders)
    else CheckResponse(401, false, AuthLogin.NoCacheHeaders)
  }
}

/**
 * The two-state session the three files above implement together: a browser
 * is Authenticated exactly when its `admin_session` cookie is `"true"`.
 */
module Session {
  import opened Common
  import opened Text
  import Middleware
  import AuthLogin
  import AuthCheck

  datatype State = Anonymous | Authenticated

  function StateOf(session: Option<string>): (s: State)
    ensures s == Authenticated <==> Middleware.HasSession(session)
  {
    if session == Some("true") then Authenticated else Anonymous
  }

  /** The browser's `admin_session` cookie after it receives a login response. */
  function AfterLogin(session: Option<string>, resp: AuthLogin.LoginResponse): Option<string> {
    if resp.setCookie.Some? then Some(resp.setCookie.value.value) else session
  }

  /** Logging in with the right credentials authenticates; any other attempt leaves the state as it was. */
  lemma LoginTransition(session: Option<string>, body: AuthLogin.LoginBody, production: bool)
    ensures var resp := AuthLogin.Post(body, production);
            StateOf(AfterLogin(session, resp)) ==
              if body == AuthLogin.Credentials(Some("admin"), Some("password123")) then Authenticated
              else StateOf(session)
  {
  }

  /** On a protected request, the gate lets it through exactly when the session check answers 200. */
  lemma GateAgreesWithCheck(path: string, verb: string, session: Option<string>)
    requires Middleware.IsProtected(path, verb)
    ensures Middleware.Decide(path, verb, session) == Middleware.Next <==> AuthCheck.Get(session).status == 200
    ensures AuthCheck.Get(session).status == 200 <==> StateOf(session) == Authenticated
  {
  }

  /**
   * The session check is itself behind the gate: an anonymous browser is
   * redirected to the login page and never sees the check's 401 answer.
   */
  lemma AnonymousCheckIsRedirected(session: Option<string>)
    requires StateOf(session) == Anonymous
    ensures Middleware.Gate("/api/auth/check", "GET", session)
         == Middleware.RedirectToLogin("/admin/login", "/api/auth/check")
  {
    assert StartsWith("/api/auth/check", "/api/auth/");
    assert StartsWith("/api/auth/check", "/api/auth");
    Middleware.NotBoth("/api/auth/check", "/api/auth/check", "/api/auth/login", 10);
  }

  /** An anonymous `PUT /api/content/hero` is redirected, so no store accessor runs. */
  lemma AnonymousWriteIsRejected(session: Option<string>)
    requires StateOf(session) == Anonymous
    ensures Middleware.Gate("/api/content/hero", "PUT", session).RedirectToLogin?
  {
    assert StartsWith("/api/content/hero", "/api/content/");
    assert StartsWith("/api/content/hero", "/api/content");
  }
}
