/** `LoginHandler.validate_security` and the test behind `get_login_available`. */
module Security {

  /** The three start-up warnings. */
  datatype SecurityWarning =
    | ListeningUnencrypted      // on all addresses and without TLS
    | ListeningUnauthenticated  // on all addresses and with neither password nor token
    | AuthenticationDisabled    // on a given address, with neither password nor token

  /** Login is needed when a password hash or a token is configured. */
  predicate LoginAvailable(password: string, token: string) {
    password != "" || token != ""
  }

  /**
   * The warnings logged, in order, for the server's address (`""` meaning all
   * addresses), whether `ssl_options` was given, and its password and token.
   */
  function SecurityWarnings(ip: string, sslConfigured: bool, password: string, token: string): (ws: seq<SecurityWarning>)
    ensures ListeningUnencrypted in ws <==> ip == "" && !sslConfigured
    ensures ListeningUnauthenticated in ws <==> ip == "" && password == "" && token == ""
    ensures AuthenticationDisabled in ws <==> ip != "" && password == "" && token == ""
    ensures forall i, j :: 0 <= i < j < |ws| ==> ws[i] != ws[j]
    ensures |ws| == 2 ==> ws == [ListeningUnencrypted, ListeningUnauthenticated]
  {
    if ip == "" then
      (if !sslConfigured then [ListeningUnencrypted] else []) +
      (if password == "" && token == "" then [ListeningUnauthenticated] else [])
    else
      if password == "" && token == "" then [AuthenticationDisabled] else []
  }

  /** A server without any login step is always flagged, and a server with one never is flagged for it. */
  lemma NoLoginIsFlagged(ip: string, sslConfigured: bool, password: string, token: string)
    ensures var ws := SecurityWarnings(ip, sslConfigured, password, token);
            !LoginAvailable(password, token) <==> (ListeningUnauthenticated in ws || AuthenticationDisabled in ws)
  {
  }
}
