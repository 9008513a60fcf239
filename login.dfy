/**
 * `LoginHandler` as the source has it: a per-request handler object whose
 * methods update its own attributes and the application's shared settings
 * dictionary in place.  Each method is proved against its function in
 * module Session.
 */
module Login {
  import opened Options
  import Text
  import opened Cookies
  import opened Tokens
  import opened RedirectGuard
  import opened Session

  /** The application's settings dictionary, shared by every handler; requests change only these two entries. */
  class Settings {
    const config: Config
    var oneTimeToken: Option<string>
    var cookieOptions: Option<map<string, OptionValue>>

    constructor (config: Config, oneTimeToken: Option<string>, cookieOptions: Option<map<string, OptionValue>>)
      ensures this.config == config && this.oneTimeToken == oneTimeToken && this.cookieOptions == cookieOptions
    {
      this.config := config;
      this.oneTimeToken := oneTimeToken;
      this.cookieOptions := cookieOptions;
    }
  }

  class LoginHandler {
    const settings: Settings
    const request: Request
    var userId: Option<string>       // _user_id
    var tokenAuthenticated: bool     // _token_authenticated
    var response: Response
    var log: seq<LogEntry>

    /** The state the handler's methods change, as module Session describes it. */
    function Snapshot(): State
      reads this, settings
    {
      State(settings.oneTimeToken, settings.cookieOptions, userId, tokenAuthenticated, response, log)
    }

    ghost predicate Valid()
      reads this, settings
    {
      Session.Valid(settings.config, Snapshot())
    }

    constructor (settings: Settings, request: Request)
      ensures this.settings == settings && this.request == request
      ensures Snapshot() == NewRequestState(settings.oneTimeToken, settings.cookieOptions)
      ensures Valid()
    {
      this.settings := settings;
      this.request := request;
      userId := None;
      tokenAuthenticated := false;
      response := Response(200, map[], None, None);
      log := [];
    }

    /** `set_login_cookie(self, uid)`. */
    method SetLoginCookie(uid: string) returns (r: string)
      modifies this, settings
      ensures r == uid
      ensures old(Valid()) ==> Valid()
      ensures Snapshot() == Session.SetLoginCookie(settings.config, request, old(Snapshot()), uid)
    {
      var opts := if settings.cookieOptions.Some? then settings.cookieOptions.value else map[];
      if "httponly" !in opts {
        opts := opts["httponly" := BoolValue(true)];
      }
      if SecureWanted(settings.config.secureCookie, request.protocol) && "secure" !in opts {
        opts := opts["secure" := BoolValue(true)];
      }
      assert opts == IssuedOptions(settings.config, request, old(Snapshot()));
      if settings.cookieOptions.Some? {
        settings.cookieOptions := Some(opts);
      }
      response := response.(cookies := response.cookies[settings.config.cookieName := Issued(uid, opts)]);
      r := uid;
    }

    /** `get_user_token(self)`. */
    method GetUserToken(newId: string) returns (r: Option<string>)
      modifies this, settings
      ensures old(Valid()) ==> Valid()
      ensures (Snapshot(), r) == Session.GetUserToken(settings.config, request, old(Snapshot()), newId)
    {
      var token := Token(settings.config);
      if token == "" {
        return None;
      }
      var userToken := GetToken(request.arguments, request.headers);
      var oneTimeToken := settings.oneTimeToken;
      var authenticated := false;
      if userToken == token {
        log := log + [AcceptedToken];
        authenticated := true;
      } else if oneTimeToken.Some? && oneTimeToken.value != "" && userToken == oneTimeToken.value {
        settings.oneTimeToken := None;
        log := log + [AcceptedOneTimeToken];
        authenticated := true;
      }
      r := if authenticated then Some(newId) else None;
    }

    /** `get_user(self)`. */
    method GetUser(newId: string) returns (r: Option<string>)
      requires Valid() && newId != ""
      modifies this, settings
      ensures Valid()
      ensures (Snapshot(), r) == Session.GetUser(settings.config, request, old(Snapshot()), newId)
    {
      GetUserKeepsValid(settings.config, request, Snapshot(), newId);
      if userId.Some? && userId.value != "" {
        return userId;
      }
      var user := GetUserToken(newId);
      if user.None? {
        user := CookieUser(settings.config, request);
      } else {
        var issued := SetLoginCookie(user.value);
        tokenAuthenticated := true;
      }
      if user.None? {
        // clear_login_cookie
        response := response.(cookies := response.cookies[settings.config.cookieName := Cleared]);
        if !GetLoginAvailable(settings.config) {
          user := Some("anonymous");
        }
      }
      userId := user;
      r := user;
    }

    /** `is_token_authenticated(self)`. */
    method IsTokenAuthenticated(newId: string) returns (b: bool)
      requires Valid() && newId != ""
      modifies this, settings
      ensures Valid()
      ensures (Snapshot(), b) == Session.IsTokenAuthenticated(settings.config, request, old(Snapshot()), newId)
    {
      if userId.None? {
        var user := GetUser(newId);
      }
      b := tokenAuthenticated;
    }

    /** `should_check_origin(self)`. */
    method ShouldCheckOrigin(newId: string) returns (b: bool)
      requires Valid() && newId != ""
      modifies this, settings
      ensures Valid()
      ensures (Snapshot(), b) == Session.ShouldCheckOrigin(settings.config, request, old(Snapshot()), newId)
    {
      var authenticated := IsTokenAuthenticated(newId);
      b := !authenticated;
    }

    /** `_redirect_safe(url, default)`. */
    method RedirectSafe(url: string, default: Option<string>)
      modifies this
      ensures old(Valid()) ==> Valid()
      ensures Snapshot() == Session.RedirectSafe(settings.config, request, old(Snapshot()), url, default)
    {
      var d := DecideRedirect(url, default, Policy(settings.config, request));
      if d.refused {
        log := log + [RefusedRedirect(Text.EscapeBackslashes(url))];
      }
      response := response.(status := 302, location := Some(d.target));
    }

    /** `_render(message)`. */
    method Render(error: Option<string>)
      modifies this
      ensures old(Valid()) ==> Valid()
      ensures Snapshot() == Session.Render(settings.config, request, old(Snapshot()), error)
    {
      response := response.(page := Some(LoginPage(Argument(request, "next", settings.config.baseUrl), error)));
    }

    /** `get(self)`. */
    method Get(newId: string)
      requires Valid() && newId != ""
      modifies this, settings
      ensures Valid()
      ensures Snapshot() == Session.Get(settings.config, request, old(Snapshot()), newId)
    {
      var user := GetUser(newId);
      if Identified(user) {
        RedirectSafe(Argument(request, "next", settings.config.baseUrl), None);
      } else {
        Render(None);
      }
    }

    /** `post(self)`. */
    method Post(newId: string)
      modifies this, settings
      ensures old(Valid()) ==> Valid()
      ensures Snapshot() == Session.Post(settings.config, request, old(Snapshot()), newId)
    {
      var typed := Argument(request, "password", "");
      if GetLoginAvailable(settings.config) {
        if settings.config.passwdCheck(PasswordFromSettings(settings.config), typed) {
          var issued := SetLoginCookie(newId);
        } else if Token(settings.config) != "" && Token(settings.config) == typed {
          var issued := SetLoginCookie(newId);
        } else {
          response := response.(status := 401);
          Render(Some("Invalid password"));
          return;
        }
      }
      RedirectSafe(Argument(request, "next", settings.config.baseUrl), None);
    }
  }

  /**
   * Two handlers over one settings dictionary, each presenting the same
   * one-time token (distinct from the static token): at most one of the two
   * requests ends up token-authenticated.
   */
  method OneTimeTokenAcrossRequests(cfg: Config, req1: Request, req2: Request,
                                    oneTime: Option<string>, opts: Option<map<string, OptionValue>>,
                                    id1: string, id2: string)
    returns (first: bool, second: bool)
    requires PresentedToken(req2) == PresentedToken(req1) != Token(cfg)
    requires id1 != "" && id2 != ""
    ensures !(first && second)
  {
    var settings := new Settings(cfg, oneTime, opts);
    var h1 := new LoginHandler(settings, req1);
    var user1 := h1.GetUser(id1);
    var h2 := new LoginHandler(settings, req2);
    var user2 := h2.GetUser(id2);
    first, second := h1.tokenAuthenticated, h2.tokenAuthenticated;
    OneTimeTokenAtMostOnce(cfg, req1, req2, oneTime, opts, id1, id2);
  }
}
