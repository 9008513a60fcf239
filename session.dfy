/**
 * The login handler as a function of state: each operation of
 * `LoginHandler` maps the mutable state it touches -- the shared settings'
 * one-time token and cookie options, and the handler's cached identity,
 * token flag, response and log -- to the state after it.  The imperative
 * handler in module Login is proved against these functions.
 */
module Session {
  import opened Options
  import opened Text
  import opened RedirectGuard
  import opened Tokens
  import opened Cookies
  import opened Security

  /** The settings that no request changes, and the password checker `passwd_check`. */
  datatype Config = Config(
    password: Option<string>,               // settings['password'], the salted hash
    token: Option<string>,                  // settings['token']
    secureCookie: Option<bool>,             // settings['secure_cookie']
    cookieName: string,
    baseUrl: string,
    allowOrigin: string,                    // "" when not configured
    allowOriginPat: Option<string -> bool>, // `allow_origin_pat.match`, None when not configured
    passwdCheck: (string, string) -> bool   // passwd_check(hashed, typed)
  )

  /** `password_from_settings`: the configured hash, or "" when there is none. */
  function PasswordFromSettings(cfg: Config): (hash: string)
    ensures cfg.password.None? ==> hash == ""
    ensures cfg.password.Some? ==> hash == cfg.password.value
  {
    cfg.password.GetOr("")
  }

  /** `handler.token`: the configured token, or "". */
  function Token(cfg: Config): string {
    cfg.token.GetOr("")
  }

  /** `get_login_available`: a login step exists when a non-empty password hash or token is configured. */
  function GetLoginAvailable(cfg: Config): (available: bool)
    ensures available <==> (cfg.password.Some? && cfg.password.value != "") || (cfg.token.Some? && cfg.token.value != "")
  {
    LoginAvailable(PasswordFromSettings(cfg), Token(cfg))
  }

  /**
   * What the handler reads of the request.  `signedCookies` holds the
   * cookies whose signature verified: `get_secure_cookie` yields nothing for
   * the others.
   */
  datatype Request = Request(
    protocol: string,
    host: string,
    arguments: map<string, string>,
    headers: map<string, string>,
    signedCookies: map<string, string>
  )

  /** `get_argument(name, default)`. */
  function Argument(req: Request, name: string, default: string): string {
    if name in req.arguments then req.arguments[name] else default
  }

  /** A cookie in the response: set with a value and options, or cleared. */
  datatype Cookie = Issued(value: string, options: map<string, OptionValue>) | Cleared

  /** The rendered login form: the `next` value it carries and its error message, if any. */
  datatype Page = LoginPage(next: string, error: Option<string>)

  datatype Response = Response(status: int, cookies: map<string, Cookie>, location: Option<string>, page: Option<Page>)

  /** What the handler logs. */
  datatype LogEntry = RefusedRedirect(url: string) | AcceptedToken | AcceptedOneTimeToken

  datatype State = State(
    oneTimeToken: Option<string>,                     // settings['one_time_token'], shared by all requests
    cookieOptions: Option<map<string, OptionValue>>,  // settings['cookie_options'], shared by all requests
    userId: Option<string>,                           // handler._user_id
    tokenAuthenticated: bool,                         // handler._token_authenticated
    response: Response,
    log: seq<LogEntry>
  )

  /** The state a new request's handler starts in, over the shared settings. */
  function NewRequestState(oneTimeToken: Option<string>, cookieOptions: Option<map<string, OptionValue>>): State {
    State(oneTimeToken, cookieOptions, None, false, Response(200, map[], None, None), [])
  }

  /** A token-authenticated request carries a non-empty identity and a login cookie issued on that request. */
  predicate Valid(cfg: Config, s: State) {
    s.tokenAuthenticated ==>
      && s.userId.Some? && s.userId.value != ""
      && cfg.cookieName in s.response.cookies && s.response.cookies[cfg.cookieName].Issued?
  }

  function Policy(cfg: Config, req: Request): RedirectPolicy {
    RedirectPolicy(cfg.baseUrl, req.protocol, req.host, cfg.allowOrigin, cfg.allowOriginPat)
  }

  /** The options a login cookie would be issued with in state `s`. */
  function IssuedOptions(cfg: Config, req: Request, s: State): map<string, OptionValue> {
    LoginCookieOptions(s.cookieOptions.GetOr(map[]), SecureWanted(cfg.secureCookie, req.protocol))
  }

  /**
   * `set_login_cookie(handler, uid)`: the login cookie is issued with value
   * `uid`, always HTTP-only and secure when wanted unless the configured
   * options say otherwise; a configured options dictionary keeps the
   * defaults (it is updated in place); nothing else changes.
   */
  function SetLoginCookie(cfg: Config, req: Request, s: State, uid: string): (s': State)
    ensures cfg.cookieName in s'.response.cookies
    ensures var c := s'.response.cookies[cfg.cookieName];
            var configured := s.cookieOptions.GetOr(map[]);
            var secure := SecureWanted(cfg.secureCookie, req.protocol);
            && c.Issued? && c.value == uid
            && c.options.Keys == configured.Keys + {"httponly"} + (if secure then {"secure"} else {})
            && ("httponly" !in configured ==> c.options["httponly"] == BoolValue(true))
            && (secure && "secure" !in configured ==> c.options["secure"] == BoolValue(true))
            && (forall k :: k in configured ==> c.options[k] == configured[k])
            && s'.cookieOptions == (if s.cookieOptions.Some? then Some(c.options) else None)
    ensures forall n :: n != cfg.cookieName ==> (n in s'.response.cookies <==> n in s.response.cookies)
    ensures forall n :: n != cfg.cookieName && n in s.response.cookies ==> s'.response.cookies[n] == s.response.cookies[n]
    ensures s'.(cookieOptions := s.cookieOptions, response := s.response) == s
    ensures s'.response.(cookies := s.response.cookies) == s.response
  {
    var opts := IssuedOptions(cfg, req, s);
    s.(cookieOptions := if s.cookieOptions.Some? then Some(opts) else None,
       response := s.response.(cookies := s.response.cookies[cfg.cookieName := Issued(uid, opts)]))
  }

  /** `get_token(handler)`. */
  function PresentedToken(req: Request): string {
    GetToken(req.arguments, req.headers)
  }

  /** How the presented token compares with the configured tokens in state `s`. */
  function TokenCheckOf(cfg: Config, req: Request, s: State): TokenCheck {
    CheckToken(Token(cfg), PresentedToken(req), s.oneTimeToken)
  }

  /**
   * `get_user_token`: a fresh identity when the presented token matches the
   * static token or the one-time token, which a match consumes; nothing when
   * token authentication is off or nothing matches.
   */
  function GetUserToken(cfg: Config, req: Request, s: State, newId: string): (r: (State, Option<string>))
    ensures var check := TokenCheckOf(cfg, req, s);
            && (r.1.Some? <==> check.Authenticated())
            && (r.1.Some? ==> r.1.value == newId)
            && r.0.oneTimeToken == (if check == OneTimeTokenMatch then None else s.oneTimeToken)
            && r.0.log == s.log + (if check == StaticTokenMatch then [AcceptedToken]
                                   else if check == OneTimeTokenMatch then [AcceptedOneTimeToken] else [])
    ensures Token(cfg) == "" ==> r == (s, None)
    ensures r.0.(oneTimeToken := s.oneTimeToken, log := s.log) == s
  {
    var check := TokenCheckOf(cfg, req, s);
    match check
    case TokenAuthDisabled => (s, None)
    case StaticTokenMatch => (s.(log := s.log + [AcceptedToken]), Some(newId))
    case OneTimeTokenMatch => (s.(oneTimeToken := None, log := s.log + [AcceptedOneTimeToken]), Some(newId))
    case NoTokenMatch => (s, None)
  }

  /** A non-empty identity: the truth value of `handler._user_id` and of `self.current_user`. */
  predicate Identified(user: Option<string>) {
    user.Some? && user.value != ""
  }

  /** `if getattr(handler, '_user_id', None)`: a non-empty cached identity. */
  predicate Memoised(s: State) {
    Identified(s.userId)
  }

  /** `handler.get_secure_cookie(cookie_name)`. */
  function CookieUser(cfg: Config, req: Request): Option<string> {
    if cfg.cookieName in req.signedCookies then Some(req.signedCookies[cfg.cookieName]) else None
  }

  /**
   * `get_user`: a cached identity is returned as it is; otherwise the token
   * is tried first (re-issuing the login cookie and flagging the request as
   * token-authenticated), then the signed cookie; with neither the cookie is
   * cleared and the identity is 'anonymous' exactly when there is no login
   * step.  The identity found is cached.
   */
  function GetUser(cfg: Config, req: Request, s: State, newId: string): (r: (State, Option<string>))
    ensures Memoised(s) ==> r == (s, s.userId)
    ensures !Memoised(s) ==> r.0.userId == r.1
    ensures var check := TokenCheckOf(cfg, req, s);
            !Memoised(s) ==>
              && (check.Authenticated() ==>
                    && r.1 == Some(newId) && r.0.tokenAuthenticated
                    && r.0.response == s.response.(cookies := s.response.cookies[cfg.cookieName := Issued(newId, IssuedOptions(cfg, req, s))]))
              && (!check.Authenticated() ==> r.0.tokenAuthenticated == s.tokenAuthenticated && r.0.cookieOptions == s.cookieOptions)
              && (!check.Authenticated() && CookieUser(cfg, req).Some? ==>
                    r.1 == CookieUser(cfg, req) && r.0.response == s.response)
              && (!check.Authenticated() && CookieUser(cfg, req).None? ==>
                    && (r.1 == Some("anonymous") <==> !GetLoginAvailable(cfg))
                    && (r.1.None? <==> GetLoginAvailable(cfg))
                    && r.0.response == s.response.(cookies := s.response.cookies[cfg.cookieName := Cleared]))
              && r.0.oneTimeToken == (if check == OneTimeTokenMatch then None else s.oneTimeToken)
              && r.0.log == s.log + (if check == StaticTokenMatch then [AcceptedToken]
                                     else if check == OneTimeTokenMatch then [AcceptedOneTimeToken] else [])
              && (check.Authenticated() ==>
                    r.0.cookieOptions == (if s.cookieOptions.Some? then Some(IssuedOptions(cfg, req, s)) else None))
  {
    if Memoised(s) then (s, s.userId)
    else
      var fromToken := GetUserToken(cfg, req, s, newId);
      var s1 := fromToken.0;
      if fromToken.1.Some? then
        var s2 := SetLoginCookie(cfg, req, s1, fromToken.1.value);
        (s2.(tokenAuthenticated := true, userId := fromToken.1), fromToken.1)
      else
        var fromCookie := CookieUser(cfg, req);
        if fromCookie.Some? then (s1.(userId := fromCookie), fromCookie)
        else
          var s2 := s1.(response := s1.response.(cookies := s1.response.cookies[cfg.cookieName := Cleared]));
          var user := if !GetLoginAvailable(cfg) then Some("anonymous") else None;
          (s2.(userId := user), user)
  }

  /** `get_user` keeps the token-authentication invariant. */
  lemma GetUserKeepsValid(cfg: Config, req: Request, s: State, newId: string)
    requires Valid(cfg, s) && newId != ""
    ensures Valid(cfg, GetUser(cfg, req, s, newId).0)
  {
  }

  /** Once `get_user` has found a non-empty identity, asking again returns it and changes nothing. */
  lemma GetUserIsMemoised(cfg: Config, req: Request, s: State, newId: string, laterId: string)
    requires GetUser(cfg, req, s, newId).1.Some? && GetUser(cfg, req, s, newId).1.value != ""
    ensures var (s1, user) := GetUser(cfg, req, s, newId);
            GetUser(cfg, req, s1, laterId) == (s1, user)
  {
  }

  /**
   * Two requests over the same settings present the same one-time token
   * (distinct from the static token): at most one of them is
   * token-authenticated.
   */
  lemma OneTimeTokenAtMostOnce(cfg: Config, req1: Request, req2: Request,
                               oneTime: Option<string>, opts: Option<map<string, OptionValue>>,
                               id1: string, id2: string)
    requires PresentedToken(req2) == PresentedToken(req1) != Token(cfg)
    ensures var first := GetUser(cfg, req1, NewRequestState(oneTime, opts), id1).0;
            var second := GetUser(cfg, req2, NewRequestState(first.oneTimeToken, first.cookieOptions), id2).0;
            !(first.tokenAuthenticated && second.tokenAuthenticated)
  {
    var s0 := NewRequestState(oneTime, opts);
    var first := GetUser(cfg, req1, s0, id1).0;
    if first.tokenAuthenticated {
      assert TokenCheckOf(cfg, req1, s0) == OneTimeTokenMatch;
      OneTimeTokenSingleUse(Token(cfg), PresentedToken(req1), oneTime);
    }
  }

  /**
   * `is_token_authenticated`: resolves the identity first when none is
   * cached (`_user_id is None`), then reports the token flag.
   */
  function IsTokenAuthenticated(cfg: Config, req: Request, s: State, newId: string): (r: (State, bool))
    ensures r.1 == r.0.tokenAuthenticated
    ensures s.userId.Some? ==> r == (s, s.tokenAuthenticated)
    ensures s.userId.None? ==> r.0 == GetUser(cfg, req, s, newId).0
    ensures r.1 <==> s.tokenAuthenticated || (s.userId.None? && TokenCheckOf(cfg, req, s).Authenticated())
  {
    var s1 := if s.userId.None? then GetUser(cfg, req, s, newId).0 else s;
    (s1, s1.tokenAuthenticated)
  }

  /** `should_check_origin`: exactly the negation of `is_token_authenticated`, with the same effect on the state. */
  function ShouldCheckOrigin(cfg: Config, req: Request, s: State, newId: string): (r: (State, bool))
    ensures r.0 == IsTokenAuthenticated(cfg, req, s, newId).0
    ensures r.1 <==> !IsTokenAuthenticated(cfg, req, s, newId).1
  {
    var (s1, authenticated) := IsTokenAuthenticated(cfg, req, s, newId);
    (s1, !authenticated)
  }

  /** A request identified by its cookie alone, with no token, must pass the origin check. */
  lemma CookieSessionsAreOriginChecked(cfg: Config, req: Request, oneTime: Option<string>,
                                       opts: Option<map<string, OptionValue>>, newId: string)
    requires !TokenCheckOf(cfg, req, NewRequestState(oneTime, opts)).Authenticated()
    ensures ShouldCheckOrigin(cfg, req, NewRequestState(oneTime, opts), newId).1
  {
  }

  /** `_redirect_safe(url, default)`: a redirect to the vetted target, and a warning when the candidate was refused. */
  function RedirectSafe(cfg: Config, req: Request, s: State, url: string, default: Option<string>): (s': State)
    ensures var d := DecideRedirect(url, default, Policy(cfg, req));
            && s'.response == s.response.(status := 302, location := Some(d.target))
            && s'.log == s.log + (if d.refused then [RefusedRedirect(EscapeBackslashes(url))] else [])
    ensures s'.(response := s.response, log := s.log) == s
  {
    var d := DecideRedirect(url, default, Policy(cfg, req));
    s.(response := s.response.(status := 302, location := Some(d.target)),
       log := if d.refused then s.log + [RefusedRedirect(EscapeBackslashes(url))] else s.log)
  }

  /** `_render(message)`: the login form, carrying the `next` argument (the base path by default). */
  function Render(cfg: Config, req: Request, s: State, error: Option<string>): (s': State)
    ensures s'.response.page == Some(LoginPage(Argument(req, "next", cfg.baseUrl), error))
    ensures s'.(response := s.response) == s && s'.response.(page := s.response.page) == s.response
  {
    s.(response := s.response.(page := Some(LoginPage(Argument(req, "next", cfg.baseUrl), error))))
  }

  /**
   * `get`: an identified caller is sent on to the vetted `next` target (the
   * base path by default); anyone else gets the login form.
   */
  function Get(cfg: Config, req: Request, s: State, newId: string): (s': State)
    ensures var (s1, user) := GetUser(cfg, req, s, newId);
            var next := Argument(req, "next", cfg.baseUrl);
            && s'.(response := s1.response, log := s1.log) == s1
            && s'.response.cookies == s1.response.cookies
            && (Identified(user) ==>
                  && s'.log == s1.log + (if DecideRedirect(next, None, Policy(cfg, req)).refused
                                         then [RefusedRedirect(EscapeBackslashes(next))] else [])
                  && s'.response.status == 302
                  && s'.response.location == Some(DecideRedirect(next, None, Policy(cfg, req)).target)
                  && s'.response.page == s1.response.page)
            && (!Identified(user) ==>
                  && s'.response.page == Some(LoginPage(next, None))
                  && s'.response.location == s1.response.location
                  && s'.response.status == s1.response.status
                  && s'.log == s1.log)
  {
    var (s1, user) := GetUser(cfg, req, s, newId);
    if Identified(user) then RedirectSafe(cfg, req, s1, Argument(req, "next", cfg.baseUrl), None)
    else Render(cfg, req, s1, None)
  }

  /**
   * Without a password or token configured, a GET is sent straight on (the
   * identity is 'anonymous'), unless a signed cookie carries an empty value.
   */
  lemma GetWithoutLoginRedirects(cfg: Config, req: Request, s: State, newId: string)
    requires !GetLoginAvailable(cfg)
    requires CookieUser(cfg, req).Some? ==> CookieUser(cfg, req).value != ""
    ensures Get(cfg, req, s, newId).response.location.Some?
    ensures Get(cfg, req, s, newId).response.status == 302
  {
    assert TokenCheckOf(cfg, req, s) == TokenAuthDisabled;
  }

  /** The credential test of `post`: the password checks against the hash, or equals the non-empty token. */
  predicate PasswordAccepted(cfg: Config, typed: string) {
    cfg.passwdCheck(PasswordFromSettings(cfg), typed) || (Token(cfg) != "" && Token(cfg) == typed)
  }

  /**
   * `post`: with a login step, accepted credentials issue a login cookie with
   * a fresh identity and redirect to the vetted `next`; rejected ones give
   * 401 and the form with "Invalid password", and no cookie or redirect.
   * Without a login step, the redirect happens with no check at all.
   */
  function Post(cfg: Config, req: Request, s: State, newId: string): (s': State)
    ensures var typed := Argument(req, "password", "");
            var next := Argument(req, "next", cfg.baseUrl);
            var d := DecideRedirect(next, None, Policy(cfg, req));
            var target := d.target;
            && (GetLoginAvailable(cfg) && !PasswordAccepted(cfg, typed) ==>
                  s' == s.(response := s.response.(status := 401, page := Some(LoginPage(next, Some("Invalid password"))))))
            && (!GetLoginAvailable(cfg) || PasswordAccepted(cfg, typed) ==>
                  && s'.response.status == 302 && s'.response.location == Some(target)
                  && s'.response.page == s.response.page
                  && s'.log == s.log + (if d.refused then [RefusedRedirect(EscapeBackslashes(next))] else []))
            && (GetLoginAvailable(cfg) && PasswordAccepted(cfg, typed) ==>
                  && s'.response.cookies == s.response.cookies[cfg.cookieName := Issued(newId, IssuedOptions(cfg, req, s))]
                  && s'.cookieOptions == (if s.cookieOptions.Some? then Some(IssuedOptions(cfg, req, s)) else None))
            && (!GetLoginAvailable(cfg) ==> s'.response.cookies == s.response.cookies && s'.cookieOptions == s.cookieOptions)
    ensures s'.userId == s.userId && s'.tokenAuthenticated == s.tokenAuthenticated && s'.oneTimeToken == s.oneTimeToken
  {
    var typed := Argument(req, "password", "");
    var next := Argument(req, "next", cfg.baseUrl);
    if GetLoginAvailable(cfg) then
      if cfg.passwdCheck(PasswordFromSettings(cfg), typed) then
        RedirectSafe(cfg, req, SetLoginCookie(cfg, req, s, newId), next, None)
      else if Token(cfg) != "" && Token(cfg) == typed then
        RedirectSafe(cfg, req, SetLoginCookie(cfg, req, s, newId), next, None)
      else
        Render(cfg, req, s.(response := s.response.(status := 401)), Some("Invalid password"))
    else
      RedirectSafe(cfg, req, s, next, None)
  }
}
