# A verified model of the notebook server's login handler

This project models `LoginHandler` of the notebook server (`notebook/auth/login.py`):
the code that decides, for each HTTP request, who the caller is, and how a login attempt is handled.

- **Redirect guard** (`_redirect_safe`) sends the browser to a caller-supplied `next` URL only when that URL is
  a path under `base_url`, or a full URL whose origin passes the cross-origin check. Otherwise it uses the default.
  The URL library is modelled as CPython 3.12.13's `urllib.parse`. On that release the guard as written lets
  `////host` through as a path under a base path such as `/` (see "## Findings"). The rest of the model uses the corrected guard.
- **Token authentication** (`get_token`, `get_user_token`) accepts a token from the `token` argument or from an
  `Authorization: token <value>` header. The token is compared with the static token and then the one-time token.
  A one-time token is removed from the settings after its first use.
- **Identity resolution** (`get_user`, `is_token_authenticated`, `should_check_origin`):
  - the token is tried first, then the signed login cookie;
  - the identity is cached for the rest of the request;
  - token-authenticated requests skip the origin check.
- **Cookie issuing** (`set_login_cookie`) sets the login cookie HTTP-only unless the configured `cookie_options`
  set `httponly`. It is secure when the `secure_cookie`
  setting is true, or over HTTPS when that setting is unset. Options already configured in the settings are never
  overridden. A `secure` default written into a configured `cookie_options` stays for later requests.
- **Login flow** (`get`, `post`, `get_login_available`, `password_from_settings`) and the start-up warnings of
  `validate_security`.

Layout, leaves first:

- `options.dfy`: `Option`.
- `text.dfy`: `startswith`, the backslash escape, ASCII lower-casing, `find`/`rfind`.
- `url.dfy`: a simplified `urlparse` with its input cleaning, and the path-only `urlunparse` reconstruction the
  guard uses.
- `redirect.dfy`: the decision half of `_redirect_safe`, as written and as corrected, and its security lemmas.
- `tokens.dfy`: the header regex, `get_token`, and the token comparison.
- `cookies.dfy`: the cookie options.
- `security.dfy`: the `validate_security` table.
- `session.dfy`: each handler operation as a pure function from the state before to the state after. The state is
  the shared settings' `one_time_token` and `cookie_options`, plus the handler's `_user_id`,
  `_token_authenticated`, response and log.
- `login.dfy`: the handler as the source has it. A `Settings` object is shared by all handlers. A `LoginHandler`
  object belongs to one request, and its methods update fields in place. Every method is proved to produce exactly
  the state that its `session.dfy` function describes.

## Model

| member | source | states |
|---|---|---|
| Text.EscapeBackslashes | notebook/auth/login.py:41-44 | the escaped URL holds no backslash; a URL without backslashes is unchanged |
| Text.EscapeRoundTrip | notebook/auth/login.py:44 | on a string without `%`, decoding `%5C` undoes the escape, so escaping loses nothing |
| Text.EscapeKeepsOtherChars | notebook/auth/login.py:44 | every character other than the backslash survives the escape |
| Text.EscapeLeadingBackslash | notebook/auth/login.py:44 | a leading backslash becomes a leading `%` |
| Url.Clean | notebook/auth/login.py:45 | the input cleaning of `urlsplit` (leading C0 controls and spaces stripped, tab, CR and LF deleted): its result is clean, a clean URL is unchanged, and a URL it changes gets strictly shorter |
| Url.Parse | notebook/auth/login.py:45 | `urlparse` of the cleaned URL: the scheme is non-empty iff the cleaned URL has one; a network location is found only after `//` and holds none of `/`, `?`, `#`; the path holds neither `?` nor `#` |
| Url.PathOnly | notebook/auth/login.py:46 | `urlunparse` with scheme and network location blanked, as CPython 3.12.13 writes it: the result begins with `//` iff the path does, and then it begins with `////` |
| Url.PathOnlyStartsWithPath | notebook/auth/login.py:46 | the path-only form begins with the path unless the path begins with `//`; with an empty path it is empty or begins with `;`, `?` or `#` |
| Url.PathOnlyHasNoAuthority | notebook/auth/login.py:45-47 | a URL equal to its path-only reconstruction is already clean, has no scheme and no network location, and begins with `//` only if it begins with `////` |
| Url.NetworkPathParse | notebook/auth/login.py:45-46 | `////` followed by text without `?`, `#`, `;`, tab, CR or LF parses to an empty network location and the path `//...`, and reconstructs to itself |
| Url.PathOnlyFirstChar | notebook/auth/login.py:46-47 | a path-only form beginning with a character other than `/`, `;`, `?`, `#` begins with the path, which is then not under a base beginning with `/` |
| RedirectGuard.Origin | notebook/auth/login.py:53-54 | the candidate's origin: `'%s://%s' % (scheme, netloc)`, lower-cased |
| RedirectGuard.IsPathOnly | notebook/auth/login.py:45-47 | the URL equals its path-only reconstruction (`url == path_only`) |
| RedirectGuard.UnderBase | notebook/auth/login.py:47 | the parsed path with `/` appended starts with `base_url` |
| RedirectGuard.DefaultTarget | notebook/auth/login.py:39-40 | the fallback: the given `default`, or `base_url` when none is given |
| RedirectGuard.OriginAccepted | notebook/auth/login.py:53-60 | the cross-origin rule on its own: the request's own origin, or the exact `allow_origin`, or (only when that is empty) a match of `allow_origin_pat` |
| RedirectGuard.SafeTarget | notebook/auth/login.py:47-60 | the intended rule on its own: a path-only URL under the base path that does not begin with `//`, or a full URL whose origin is accepted |
| RedirectGuard.DecideRedirectAsWritten | notebook/auth/login.py:32-65 | the source's branches: the candidate is refused exactly when it is neither a path-only URL under the base path nor a full URL whose origin is accepted; a refusal yields the default |
| RedirectGuard.DecideRedirect | notebook/auth/login.py:32-65 | the corrected decision: the target is the escaped candidate or the default (`base_url` when none is given); the candidate is refused exactly when it fails `SafeTarget`; a refusal always yields the default |
| RedirectGuard.NetworkPathAcceptedAsWritten | notebook/auth/login.py:45-49 | as written, `////` + text without delimiters or backslashes is accepted under a base such as `/` and becomes the redirect target; the corrected decision refuses it |
| RedirectGuard.NetworkPathExample | notebook/auth/login.py:45-49 | as written, `////evil.com` is accepted under the base path `/`; the corrected decision refuses it |
| RedirectGuard.NoBackslashReachesRedirect | notebook/auth/login.py:39-44 | an accepted target holds no backslash; the target can hold one only if the default does |
| RedirectGuard.PathOnlyAcceptance | notebook/auth/login.py:46-49 | a path-only URL is accepted iff it does not begin with `//` and its path with `/` appended starts with `base_url` |
| RedirectGuard.FullUrlAcceptance | notebook/auth/login.py:51-60 | a full URL is accepted iff its lower-cased origin is `protocol://host`, or equals a configured `allow_origin`, or (only if `allow_origin` is empty) matches `allow_origin_pat` |
| RedirectGuard.AllowOriginShadowsPattern | notebook/auth/login.py:57-60 | when `allow_origin` is configured, the decision does not depend on `allow_origin_pat` |
| RedirectGuard.AcceptedPathStaysLocal | notebook/auth/login.py:41-49 | an accepted path-only target has no scheme, does not begin with `//`, holds no backslash, and holds no tab, CR or LF and no leading control character or space |
| RedirectGuard.ProtocolRelativeNeedsOriginCheck | notebook/auth/login.py:46-60 | a candidate that begins with `//` is accepted iff it is a full URL and its origin passes the cross-origin rule |
| RedirectGuard.UncleanCandidateNeedsOriginCheck | notebook/auth/login.py:44-60 | a candidate holding a tab, CR or LF, or beginning with a control character or space (such as `/\t/host`), is never path-only, and is accepted iff its origin passes the cross-origin rule |
| RedirectGuard.LeadingBackslashNotLocal | notebook/auth/login.py:41-49 | a candidate beginning with a backslash is never accepted as a local path under a base path beginning with `/` |
| RedirectGuard.PercentLedNotLocal | notebook/auth/login.py:44-49 | a path-only candidate whose escaped form begins with `%` is refused under a base path beginning with `/` |
| RedirectGuard.NotUnderSlashBase | notebook/auth/login.py:47 | a path-only URL that begins with a character other than `/`, `;`, `?` or `#` is never under a base path beginning with `/` |
| Tokens.SpaceRun | notebook/auth/login.py:108 | the longest run of `\s` characters from a position |
| Tokens.LineRun | notebook/auth/login.py:108 | the longest run of characters that `.` matches (non-newline) from a position |
| Tokens.CaptureStart | notebook/auth/login.py:108 | the last capture start at which `.+` can match, searching down from the end of the whitespace run; -1 when there is none |
| Tokens.MatchAuthHeader | notebook/auth/login.py:108-125 | `auth_header_pat.match(h).group(1)`: a match captures a non-empty value; it is characterised by `MatchAuthHeaderIsLeftmostGreedy` |
| Tokens.MatchAuthHeaderIsLeftmostGreedy | notebook/auth/login.py:108-125 | the matcher succeeds iff `token\s+(.+)` (case-insensitive, anchored at the start) has a parse; the capture is the parse Python's backtracking picks: longest whitespace run, then longest capture |
| Tokens.TokenArgument | notebook/auth/login.py:120 | `get_argument('token', '')`: the `token` argument, or `''` when absent |
| Tokens.AuthorizationHeader | notebook/auth/login.py:123 | `headers.get('Authorization', '')`: the header value, or `''` when absent |
| Tokens.MalformedHeaderYieldsNothing | notebook/auth/login.py:108-125 | a header not beginning with `token` (e.g. `Bearer x`), or with no whitespace after it (e.g. `tokenabc`), yields no token |
| Tokens.GetToken | notebook/auth/login.py:110-126 | a non-empty `token` argument is returned unchanged; otherwise the result is `''` iff the header has no parse, and a non-empty result is the capture of the parse Python's backtracking picks (longest whitespace run, then longest capture) |
| Tokens.CheckToken | notebook/auth/login.py:193-208 | token authentication is off iff the token is empty; the static token matches first; the one-time token matches only if it is non-empty and differs from the static token; authentication iff one of these matches |
| Tokens.OneTimeTokenSingleUse | notebook/auth/login.py:204-206 | once the one-time token is removed, presenting the same value fails |
| Tokens.EmptyTokenNeverAuthenticates | notebook/auth/login.py:193-208 | presenting no token never authenticates |
| Cookies.SecureWanted | notebook/auth/login.py:103 | the `secure_cookie` setting decides when present; otherwise the protocol being `https` decides |
| Cookies.LoginCookieOptions | notebook/auth/login.py:99-104 | the keys become the configured ones plus `httponly`, plus `secure` when wanted; each added key is `True`; every value already present is kept |
| Cookies.LoginCookieOptionsIdempotent | notebook/auth/login.py:99-104 | setting the defaults twice is the same as setting them once |
| Cookies.SecureDefaultPersists | notebook/auth/login.py:99-104 | once one request put `secure` into the shared options, later login cookies stay secure whatever their protocol |
| Security.SecurityWarnings | notebook/auth/login.py:216-234 | the unencrypted warning iff listening on all addresses without `ssl_options`; the all-addresses unauthenticated warning iff listening on all addresses with no password and no token; the authentication-disabled warning iff on a given address with neither; no warning twice, in the source's order |
| Security.NoLoginIsFlagged | notebook/auth/login.py:222-234 | an authentication warning is logged iff there is no login step (no password and no token) |
| Session.PasswordFromSettings | notebook/auth/login.py:236-242 | the configured hash, or `''` when none is configured |
| Session.GetLoginAvailable | notebook/auth/login.py:244-247 | true iff a non-empty password hash or a non-empty token is configured |
| Session.SetLoginCookie | notebook/auth/login.py:96-106 | the login cookie is issued with the given id; its options are exactly the configured keys plus `httponly`, plus `secure` when wanted; each added key is `True`; configured values are kept; a configured options dictionary is updated in place; other cookies and all other state are unchanged |
| Session.GetUserToken | notebook/auth/login.py:185-213 | an id is returned iff the token check authenticates, and it is the fresh id; the one-time token is removed iff it was the one that matched; with token authentication off nothing changes |
| Session.CookieUser | notebook/auth/login.py:167 | `get_secure_cookie(cookie_name)`: the value of the signed login cookie when its signature verified, else nothing |
| Session.GetUser | notebook/auth/login.py:155-183 | a non-empty cached id is returned with no effect. Otherwise: on token success the fresh id is returned, the cookie is re-issued with status, location and page unchanged and the token flag is set; a cookie-only identity leaves the flag and the response alone; with no identity the cookie is cleared and the result is `'anonymous'` iff there is no login step, else none; the result is cached; the log records which token was accepted, and a token login writes its defaulted options back into a configured dictionary |
| Session.GetUserKeepsValid | notebook/auth/login.py:163-172 | after `get_user`, a token-authenticated request still carries a non-empty id and a login cookie issued on that request |
| Session.GetUserIsMemoised | notebook/auth/login.py:163-183 | once a non-empty id is found, asking again returns it and changes nothing |
| Session.OneTimeTokenAtMostOnce | notebook/auth/login.py:198-208 | of two requests over the same settings that present the same one-time token, at most one is token-authenticated |
| Session.IsTokenAuthenticated | notebook/auth/login.py:140-153 | the identity is resolved first only when none is cached (`is None`), and then the new state is exactly that of `get_user`; the answer is the token flag, true iff it was already set or this resolution was a token match |
| Session.ShouldCheckOrigin | notebook/auth/login.py:128-138 | exactly `not is_token_authenticated`, with the same effect on the state |
| Session.CookieSessionsAreOriginChecked | notebook/auth/login.py:128-153 | a new request with no matching token (for instance one identified only by its cookie) must pass the origin check |
| Session.RedirectSafe | notebook/auth/login.py:61-65 | the response is a 302 redirect to the target of the corrected decision; the escaped candidate is logged iff it was refused; nothing else changes |
| Session.Render | notebook/auth/login.py:26-30 | the login form is shown, carrying the `next` argument (default `base_url`) and the given error |
| Session.Get | notebook/auth/login.py:67-72 | after resolving the identity, an identified caller is redirected (302) to the vetted `next`; otherwise the login form is shown with no redirect |
| Session.GetWithoutLoginRedirects | notebook/auth/login.py:67-179 | with neither password nor token configured, a GET always redirects, unless a signed cookie carries an empty value |
| Session.PasswordAccepted | notebook/auth/login.py:84-86 | the credential test of `post`: `passwd_check(hashed_password, typed)`, or the typed password equals a non-empty token |
| Session.Post | notebook/auth/login.py:81-94 | with a login step: if the password checks against the hash, or equals a non-empty token, a cookie with the fresh id is issued and the caller is redirected to the vetted `next`; otherwise the status is 401 and the form shows "Invalid password", with neither cookie nor redirect. Without a login step the caller is redirected with no check and no cookie; on a redirect the refused candidate, if any, is logged, and a successful login writes its defaulted options back into a configured dictionary |
| Login.Settings.constructor | notebook/auth/login.py:193-206 | the shared settings hold the given configuration, one-time token and cookie options |
| Login.LoginHandler.constructor | notebook/auth/login.py:150-153 | a new handler has no cached identity, no token flag, an empty response and an empty log |
| Login.LoginHandler.SetLoginCookie | notebook/auth/login.py:96-106 | returns the given id; the new state is `Session.SetLoginCookie` of the old one; the token-authentication invariant is kept |
| Login.LoginHandler.GetUserToken | notebook/auth/login.py:185-213 | the result and the new state (one-time token popped from the shared settings) are those of `Session.GetUserToken`; the token-authentication invariant is kept |
| Login.LoginHandler.GetUser | notebook/auth/login.py:155-183 | the result and the new state are those of `Session.GetUser`; the token-authentication invariant is kept |
| Login.LoginHandler.IsTokenAuthenticated | notebook/auth/login.py:140-153 | the result and the new state are those of `Session.IsTokenAuthenticated` |
| Login.LoginHandler.ShouldCheckOrigin | notebook/auth/login.py:128-138 | the result and the new state are those of `Session.ShouldCheckOrigin` |
| Login.LoginHandler.RedirectSafe | notebook/auth/login.py:32-65 | the new state is that of `Session.RedirectSafe`; the token-authentication invariant is kept |
| Login.LoginHandler.Render | notebook/auth/login.py:26-30 | the new state is that of `Session.Render`; the token-authentication invariant is kept |
| Login.LoginHandler.Get | notebook/auth/login.py:67-72 | the new state is that of `Session.Get`; the token-authentication invariant is kept |
| Login.LoginHandler.Post | notebook/auth/login.py:81-94 | the new state is that of `Session.Post`; the token-authentication invariant is kept |
| Login.OneTimeTokenAcrossRequests | notebook/auth/login.py:198-208 | two handler objects share one settings object and present the same one-time token; at most one of the two requests ends up token-authenticated |

## Findings

| source | as written | input that shows it | evidently intended | confidence | as-written member | corrected member |
|---|---|---|---|---|---|---|
| notebook/auth/login.py:45-49 | a URL equal to its `urlunparse(...scheme='', netloc='')` form counts as a path; with CPython 3.12.13's `urlunsplit`, `////evil.com` equals that form and its path `//evil.com` plus `/` starts with the base path | `next=////evil.com` with `base_url` `/`: the redirect goes to `////evil.com`, which a browser reads as the host `evil.com` | only an absolute path within the base path is accepted without the origin check; a path beginning with `//` names another host and is refused | not executed; depends on the URL library release (CPython 3.12.3 refuses it) | RedirectGuard.DecideRedirectAsWritten, RedirectGuard.NetworkPathAcceptedAsWritten | RedirectGuard.DecideRedirect, RedirectGuard.AcceptedPathStaysLocal |

## Left out

- `notebook/services/nbconvert/handlers.py`: has no authentication logic of its own. It only serialises the
  exporters of an external library.
- `passwd_check`: modelled as an arbitrary predicate, the `passwdCheck` field of `Session.Config`. Its
  constant-time behaviour cannot be stated in Dafny.
- `allow_origin_pat`: modelled as an arbitrary predicate standing for the compiled pattern's `match`.
- `urlparse` follows CPython 3.12.13's `urllib.parse`. That covers its input cleaning, its scheme rule, the `//`
  network location, `#`, `?`, the last-segment `;` parameters, and `urlunsplit` adding `//` in front of a path that
  begins with `//`. Not modelled:
  - the `ValueError` raised for malformed IPv6 or NFKC network locations;
  - the behaviour of other releases: CPython 3.12.3's `urlunsplit` drops the extra `//`, so there the guard as
    written refuses `////host`, and some older releases do not delete tab, CR and LF, or do not strip leading control characters and spaces;
  - the scheme of the parameter split: the `;` parameters are always split, whatever the scheme. This changes no decision: the path is only
    consulted when the URL equals its path-only form, and that forces an empty scheme.
- Session.RedirectSafe: uses the corrected decision `RedirectGuard.DecideRedirect`, not the source's as written.
  It refuses a path-only `////host` candidate that the source accepts (see "## Findings"). So do `Session.Get`,
  `Session.Post` and the `Login.LoginHandler` methods built on it.
- `Text.Lower`: lower-cases ASCII letters only. Python's `str.lower` also maps other Unicode letters.
- `uuid.uuid4().hex`: each operation that may mint an identity receives the fresh id as a parameter (`newId`).
- Tornado's machinery:
  - `set_secure_cookie`/`get_secure_cookie` signing is abstracted. `Request.signedCookies` holds only the cookies
    whose signature verified.
  - The response is a record (status, cookies, location, page). `redirect`, `write` and `set_status` become
    updates of that record.
  - `render_template` and `url_escape` are left out. The form records the raw `next` value and the error message.
  - `get_argument`'s own decoding and whitespace stripping are taken as already applied to `Request.arguments`.
  - Header names are taken as already normalised to `Authorization`.
- `notebook/base/handlers.py` is not part of this model. Its handler properties are assumed to read the settings
  keys of the same names (`token`, `one_time_token`, `base_url`, `cookie_name`, `allow_origin`,
  `allow_origin_pat`), and `login_available` to be `get_login_available(settings)`. `handler.get_current_user()`
  (login.py:152) and `self.current_user` (login.py:68) are taken to be `get_user` of this login handler, as the
  base handler's `get_current_user` delegates to it; the caching of `current_user` by Tornado is not modelled.
- `clear_login_cookie` is also in `notebook/base/handlers.py`. It is modelled as marking the login cookie cleared;
  its cookie-path handling is left out.
- Log messages are reduced to which event was logged (`LogEntry`); the remote address and the wording are left out.
- Concurrency: requests are modelled one after another, as on the server's single-threaded event loop.
  `Login.OneTimeTokenAcrossRequests` covers two requests sharing the settings in sequence.
