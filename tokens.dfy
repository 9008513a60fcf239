/**
 * Token extraction (`LoginHandler.get_token` with `auth_header_pat`) and the
 * comparison half of `LoginHandler.get_user_token`.
 */
module Tokens {
  import opened Options

  /** Python's `\s` on a `str` pattern: the characters for which `str.isspace()` holds. */
  predicate IsRegexSpace(c: char) {
    || '\t' <= c <= '\r'             // tab, newline, vertical tab, form feed, carriage return
    || '\U{001C}' <= c <= '\U{001F}'  // the four information separators
    || c == ' ' || c == '\U{0085}' || c == '\U{00A0}' || c == '\U{1680}'
    || '\U{2000}' <= c <= '\U{200A}'
    || c == '\U{2028}' || c == '\U{2029}' || c == '\U{202F}' || c == '\U{205F}' || c == '\U{3000}'
  }

  /** One letter of the pattern under `re.IGNORECASE`; Python also folds KELVIN SIGN onto `k`. */
  predicate SameLetterIgnoringCase(c: char, lower: char, upper: char) {
    c == lower || c == upper || (lower == 'k' && c == '\U{212A}')
  }

  /** The header begins with `token`, matched case-insensitively. */
  predicate StartsWithKeyword(h: string) {
    && |h| >= 5
    && SameLetterIgnoringCase(h[0], 't', 'T')
    && SameLetterIgnoringCase(h[1], 'o', 'O')
    && SameLetterIgnoringCase(h[2], 'k', 'K')
    && SameLetterIgnoringCase(h[3], 'e', 'E')
    && SameLetterIgnoringCase(h[4], 'n', 'N')
  }

  /**
   * The regular expression `token\s+(.+)` on its own terms: `h` begins with
   * the keyword, then `w` whitespace characters, then `n` characters other
   * than a newline (what `.` matches) that form the captured group.
   */
  ghost predicate IsParse(h: string, w: nat, n: nat) {
    && StartsWithKeyword(h)
    && 1 <= w && 1 <= n && 5 + w + n <= |h|
    && (forall k :: 5 <= k < 5 + w ==> IsRegexSpace(h[k]))
    && (forall k :: 5 + w <= k < 5 + w + n ==> h[k] != '\n')
  }

  /** The length of the run of whitespace starting at `i`. */
  function SpaceRun(h: string, i: nat): (n: nat)
    requires i <= |h|
    ensures i + n <= |h|
    ensures forall k :: i <= k < i + n ==> IsRegexSpace(h[k])
    ensures i + n == |h| || !IsRegexSpace(h[i + n])
    decreases |h| - i
  {
    if i == |h| || !IsRegexSpace(h[i]) then 0 else 1 + SpaceRun(h, i + 1)
  }

  /** The length of the run of non-newline characters starting at `i`. */
  function LineRun(h: string, i: nat): (n: nat)
    requires i <= |h|
    ensures i + n <= |h|
    ensures forall k :: i <= k < i + n ==> h[k] != '\n'
    ensures i + n == |h| || h[i + n] == '\n'
    decreases |h| - i
  {
    if i == |h| || h[i] == '\n' then 0 else 1 + LineRun(h, i + 1)
  }

  /**
   * The backtracking of the greedy `\s+`: the largest capture start in
   * `6..j` at which `.+` can match, or -1 when there is none.
   */
  function CaptureStart(h: string, j: nat): (s: int)
    requires 6 <= j <= |h|
    ensures s == -1 || 6 <= s <= j
    ensures s == -1 ==> forall k :: 6 <= k <= j ==> k == |h| || h[k] == '\n'
    ensures s != -1 ==> s < |h| && h[s] != '\n'
    ensures s != -1 ==> forall k :: s < k <= j ==> k == |h| || h[k] == '\n'
    decreases j
  {
    if j < |h| && h[j] != '\n' then j
    else if j == 6 then -1
    else CaptureStart(h, j - 1)
  }

  /** `auth_header_pat.match(h)`, giving `m.group(1)` when it matches. */
  function MatchAuthHeader(h: string): (m: Option<string>)
    ensures m.Some? ==> m.value != ""
  {
    if !StartsWithKeyword(h) then None
    else
      var k := SpaceRun(h, 5);
      if k == 0 then None
      else
        var s := CaptureStart(h, 5 + k);
        if s == -1 then None else Some(h[s..s + LineRun(h, s)])
  }

  /**
   * The matcher agrees with the regular expression: it matches exactly when
   * some parse exists, and then captures the parse Python's backtracking
   * picks first -- the longest whitespace run, then the longest capture.
   */
  lemma MatchAuthHeaderIsLeftmostGreedy(h: string)
    ensures MatchAuthHeader(h).None? <==> forall w, n :: !IsParse(h, w, n)
    ensures MatchAuthHeader(h).Some? ==>
              exists w, n :: IsParse(h, w, n) && MatchAuthHeader(h).value == h[5 + w..5 + w + n] &&
                forall w', n' :: IsParse(h, w', n') ==> w' < w || (w' == w && n' <= n)
  {
    if StartsWithKeyword(h) {
      var k := SpaceRun(h, 5);
      forall w: nat, n: nat | IsParse(h, w, n) ensures w <= k && n <= LineRun(h, 5 + w) {
      }
      if k > 0 {
        var s := CaptureStart(h, 5 + k);
        if s != -1 {
          var w, n := s - 5, LineRun(h, s);
          assert IsParse(h, w, n);
        }
      }
    }
  }

  /** A header that does not begin with the keyword, or whose keyword is not followed by whitespace, yields nothing. */
  lemma MalformedHeaderYieldsNothing(h: string)
    requires !StartsWithKeyword(h) || (|h| > 5 && !IsRegexSpace(h[5]))
    ensures MatchAuthHeader(h) == None
  {
  }

  /** `handler.get_argument('token', '')`. */
  function TokenArgument(arguments: map<string, string>): string {
    if "token" in arguments then arguments["token"] else ""
  }

  /** `handler.request.headers.get('Authorization', '')`. */
  function AuthorizationHeader(headers: map<string, string>): string {
    if "Authorization" in headers then headers["Authorization"] else ""
  }

  /** `get_token`: the `token` argument, else the token of an `Authorization: token <value>` header, else "". */
  function GetToken(arguments: map<string, string>, headers: map<string, string>): (t: string)
    ensures TokenArgument(arguments) != "" ==> t == TokenArgument(arguments)
    ensures TokenArgument(arguments) == "" ==>
              var h := AuthorizationHeader(headers);
              && (t == "" <==> forall w, n :: !IsParse(h, w, n))
              && (t != "" ==> exists w, n :: IsParse(h, w, n) && t == h[5 + w..5 + w + n] &&
                                forall w', n' :: IsParse(h, w', n') ==> w' < w || (w' == w && n' <= n))
  {
    var userToken := TokenArgument(arguments);
    if userToken != "" then userToken
    else
      var h := AuthorizationHeader(headers);
      MatchAuthHeaderIsLeftmostGreedy(h);
      match MatchAuthHeader(h)
      case Some(c) => c
      case None => ""
  }

  /** How a presented token compares with the configured ones. */
  datatype TokenCheck = TokenAuthDisabled | StaticTokenMatch | OneTimeTokenMatch | NoTokenMatch {
    predicate Authenticated() {
      this == StaticTokenMatch || this == OneTimeTokenMatch
    }
  }

  /** The comparisons of `get_user_token`: the static token first, then a non-empty one-time token. */
  function CheckToken(token: string, presented: string, oneTime: Option<string>): (c: TokenCheck)
    ensures c == TokenAuthDisabled <==> token == ""
    ensures c == StaticTokenMatch <==> token != "" && presented == token
    ensures c == OneTimeTokenMatch <==>
              token != "" && presented != token && oneTime.Some? && oneTime.value != "" && presented == oneTime.value
    ensures c.Authenticated() <==>
              token != "" && (presented == token || (oneTime.Some? && oneTime.value != "" && presented == oneTime.value))
  {
    if token == "" then TokenAuthDisabled
    else if presented == token then StaticTokenMatch
    else if oneTime.Some? && oneTime.value != "" && presented == oneTime.value then OneTimeTokenMatch
    else NoTokenMatch
  }

  /** Once the one-time token is removed, presenting the same value again fails. */
  lemma OneTimeTokenSingleUse(token: string, presented: string, oneTime: Option<string>)
    requires CheckToken(token, presented, oneTime) == OneTimeTokenMatch
    ensures CheckToken(token, presented, None) == NoTokenMatch
  {
  }

  /** With token authentication enabled, presenting no token never authenticates. */
  lemma EmptyTokenNeverAuthenticates(token: string, oneTime: Option<string>)
    ensures !CheckToken(token, "", oneTime).Authenticated()
  {
  }
}
