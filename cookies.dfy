/** The cookie attributes `LoginHandler.set_login_cookie` passes along with the login cookie. */
module Cookies {
  import opened Options

  /** A value in the `cookie_options` dictionary (Python values are left untyped there). */
  datatype OptionValue = BoolValue(b: bool) | IntValue(i: int) | TextValue(s: string)

  /** `settings.get('secure_cookie', request.protocol == 'https')`, read for its truth value. */
  function SecureWanted(secureCookie: Option<bool>, protocol: string): (secure: bool)
    ensures secureCookie.Some? ==> secure == secureCookie.value
    ensures secureCookie.None? ==> (secure <==> protocol == "https")
  {
    secureCookie.GetOr(protocol == "https")
  }

  /**
   * The options after `setdefault('httponly', True)` and, when `secure`
   * holds, `setdefault('secure', True)`: both keys get `True` unless already
   * present, and no value already present is changed.
   */
  function LoginCookieOptions(opts: map<string, OptionValue>, secure: bool): (r: map<string, OptionValue>)
    ensures r.Keys == opts.Keys + {"httponly"} + (if secure then {"secure"} else {})
    ensures forall k :: k in opts ==> r[k] == opts[k]
    ensures "httponly" !in opts ==> r["httponly"] == BoolValue(true)
    ensures secure && "secure" !in opts ==> r["secure"] == BoolValue(true)
  {
    var withHttpOnly := if "httponly" in opts then opts else opts["httponly" := BoolValue(true)];
    if secure && "secure" !in withHttpOnly then withHttpOnly["secure" := BoolValue(true)] else withHttpOnly
  }

  /** Setting the defaults a second time changes nothing. */
  lemma LoginCookieOptionsIdempotent(opts: map<string, OptionValue>, secure: bool)
    ensures LoginCookieOptions(LoginCookieOptions(opts, secure), secure) == LoginCookieOptions(opts, secure)
  {
  }

  /**
   * The defaults are written into the shared dictionary, so once one request
   * wanted a secure cookie, every later login cookie is marked secure too,
   * whatever the later request's protocol.
   */
  lemma SecureDefaultPersists(opts: map<string, OptionValue>, laterSecure: bool)
    requires "secure" !in opts
    ensures var shared := LoginCookieOptions(opts, true);
            LoginCookieOptions(shared, laterSecure)["secure"] == BoolValue(true)
  {
  }
}
