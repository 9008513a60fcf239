/**
 * The decision half of `LoginHandler._redirect_safe`: which URL a login
 * redirect goes to, and whether the refusal of the caller's URL is logged.
 */
module RedirectGuard {
  import opened Options
  import opened Text
  import opened Url

  /** What the handler knows when it vets a redirect: its base path, the request's own origin and the CORS settings. */
  datatype RedirectPolicy = RedirectPolicy(
    baseUrl: string,
    protocol: string,
    host: string,
    allowOrigin: string,                    // "" when not configured
    allowOriginPat: Option<string -> bool>  // `allow_origin_pat.match`, None when not configured
  )

  /** The outcome: where the redirect goes, and whether the candidate was refused (and a warning logged). */
  datatype RedirectDecision = RedirectDecision(target: string, refused: bool)

  /** `'%s://%s' % (parsed.scheme, parsed.netloc)`, lower-cased. */
  function Origin(p: ParsedUrl): string {
    Lower(p.scheme + "://" + p.netloc)
  }

  /** The request's own origin, `protocol://host`, as the request gives it (not lower-cased). */
  function OwnOrigin(policy: RedirectPolicy): string {
    policy.protocol + "://" + policy.host
  }

  /** The URL is nothing but a path (with query and fragment). */
  predicate IsPathOnly(url: string) {
    url == PathOnly(Parse(url))
  }

  /** Its path, with a `/` appended, lies under the base path. */
  predicate UnderBase(url: string, baseUrl: string) {
    StartsWith(Parse(url).path + "/", baseUrl)
  }

  /**
   * The cross-origin rule, stated on its own: the request's own origin, or
   * the exact configured origin, or -- only when no exact origin is
   * configured -- the configured pattern.
   */
  predicate OriginAccepted(origin: string, policy: RedirectPolicy) {
    || origin == OwnOrigin(policy)
    || (policy.allowOrigin != "" && origin == policy.allowOrigin)
    || (policy.allowOrigin == "" && policy.allowOriginPat.Some? && policy.allowOriginPat.value(origin))
  }

  /** Which (already escaped) URLs the source's test lets through. */
  predicate SafeTargetAsWritten(url: string, policy: RedirectPolicy) {
    if IsPathOnly(url) then UnderBase(url, policy.baseUrl)
    else OriginAccepted(Origin(Parse(url)), policy)
  }

  /**
   * A path-only URL that begins with `//` (it then begins with `////`): a
   * browser reads it as a network-path reference, naming another host.
   */
  predicate NetworkPathReference(url: string) {
    IsPathOnly(url) && StartsWith(url, "//")
  }

  /** Which (already escaped) URLs may be redirected to: the source's test, without network-path references. */
  predicate SafeTarget(url: string, policy: RedirectPolicy) {
    SafeTargetAsWritten(url, policy) && !NetworkPathReference(url)
  }

  /** The target used when the candidate is refused: `default`, or the base path when none is given. */
  function DefaultTarget(default: Option<string>, policy: RedirectPolicy): string {
    default.GetOr(policy.baseUrl)
  }

  /** `_redirect_safe(url, default)` as written, following the source's branches. */
  function DecideRedirectAsWritten(url: string, default: Option<string>, policy: RedirectPolicy): (d: RedirectDecision)
    ensures d.refused <==> !SafeTargetAsWritten(EscapeBackslashes(url), policy)
    ensures d.target == if d.refused then DefaultTarget(default, policy) else EscapeBackslashes(url)
  {
    var fallback := DefaultTarget(default, policy);
    var escaped := EscapeBackslashes(url);
    var parsed := Parse(escaped);
    var pathOnly := PathOnly(parsed);
    if escaped != pathOnly || !StartsWith(parsed.path + "/", policy.baseUrl) then
      var allow :=
        if escaped != pathOnly then
          var origin := Lower(parsed.scheme + "://" + parsed.netloc);
          if origin == policy.protocol + "://" + policy.host then true
          else if policy.allowOrigin != "" then policy.allowOrigin == origin
          else if policy.allowOriginPat.Some? then policy.allowOriginPat.value(origin)
          else false
        else false;
      if !allow then RedirectDecision(fallback, true) else RedirectDecision(escaped, false)
    else RedirectDecision(escaped, false)
  }

  /**
   * `_redirect_safe(url, default)` as evidently intended: the source's
   * decision, except that a path-only candidate beginning with `//` is
   * refused like any other URL that is not a path within the base path.
   */
  function DecideRedirect(url: string, default: Option<string>, policy: RedirectPolicy): (d: RedirectDecision)
    ensures d.target == EscapeBackslashes(url) || d.target == DefaultTarget(default, policy)
    ensures d.refused <==> !SafeTarget(EscapeBackslashes(url), policy)
    ensures d.target == if d.refused then DefaultTarget(default, policy) else EscapeBackslashes(url)
  {
    var d := DecideRedirectAsWritten(url, default, policy);
    if !d.refused && NetworkPathReference(EscapeBackslashes(url)) then
      RedirectDecision(DefaultTarget(default, policy), true)
    else d
  }

  /**
   * As written, a candidate `////host...` is path-only under Python's
   * current `urlunsplit`, so it passes the path test under the base path `/`
   * and the redirect names another host; the intended decision refuses it.
   */
  lemma NetworkPathAcceptedAsWritten(s: string, default: Option<string>, policy: RedirectPolicy)
    requires forall k :: 0 <= k < |s| ==> s[k] !in "\\?#;\t\r\n"
    requires StartsWith("//" + s + "/", policy.baseUrl)
    ensures var d := DecideRedirectAsWritten("////" + s, default, policy);
            !d.refused && d.target == "////" + s
    ensures DecideRedirect("////" + s, default, policy).refused
  {
    var url := "////" + s;
    NetworkPathParse(s);
    assert '\\' !in url by {
      forall k | 0 <= k < |url| ensures url[k] != '\\' {
        if k >= 4 {
          assert url[k] == s[k - 4];
        }
      }
    }
    assert IsPathOnly(url);
  }

  /** The open redirect on a concrete candidate: `////evil.com` under the base path `/`. */
  lemma NetworkPathExample(policy: RedirectPolicy)
    requires policy.baseUrl == "/"
    ensures !DecideRedirectAsWritten("////evil.com", None, policy).refused
    ensures DecideRedirect("////evil.com", None, policy).refused
  {
    var s := "evil.com";
    assert "////" + s == "////evil.com";
    NetworkPathAcceptedAsWritten(s, None, policy);
  }

  /** No backslash of the candidate ever reaches the redirect: the target is the escaped candidate or the default. */
  lemma NoBackslashReachesRedirect(url: string, default: Option<string>, policy: RedirectPolicy)
    ensures var d := DecideRedirect(url, default, policy);
            !d.refused ==> '\\' !in d.target
    ensures '\\' !in DefaultTarget(default, policy) ==> '\\' !in DecideRedirect(url, default, policy).target
  {
  }

  /** A path-only URL is accepted exactly when it does not begin with `//` and its path lies under the base path. */
  lemma PathOnlyAcceptance(url: string, default: Option<string>, policy: RedirectPolicy)
    requires IsPathOnly(EscapeBackslashes(url))
    ensures !DecideRedirect(url, default, policy).refused <==>
              !StartsWith(EscapeBackslashes(url), "//") && UnderBase(EscapeBackslashes(url), policy.baseUrl)
  {
  }

  /** A full URL is accepted exactly when its lower-cased origin passes the cross-origin rule. */
  lemma FullUrlAcceptance(url: string, default: Option<string>, policy: RedirectPolicy)
    requires !IsPathOnly(EscapeBackslashes(url))
    ensures var origin := Origin(Parse(EscapeBackslashes(url)));
            !DecideRedirect(url, default, policy).refused <==>
              (origin == OwnOrigin(policy) ||
               (if policy.allowOrigin != "" then origin == policy.allowOrigin
                else policy.allowOriginPat.Some? && policy.allowOriginPat.value(origin)))
  {
  }

  /** A configured exact origin shadows the pattern entirely. */
  lemma AllowOriginShadowsPattern(url: string, default: Option<string>, policy: RedirectPolicy,
                                  pat: Option<string -> bool>)
    requires policy.allowOrigin != ""
    ensures DecideRedirect(url, default, policy) == DecideRedirect(url, default, policy.(allowOriginPat := pat))
  {
  }

  /**
   * What an accepted path-only target is: it has no scheme, does not begin
   * with `//`, holds no backslash, and holds nothing the URL cleaning of a
   * browser would drop (tab, carriage return, line feed, a leading control
   * character or space) -- so no browser reads it as naming another host.
   */
  lemma AcceptedPathStaysLocal(url: string, default: Option<string>, policy: RedirectPolicy)
    requires IsPathOnly(EscapeBackslashes(url))
    requires !DecideRedirect(url, default, policy).refused
    ensures var t := DecideRedirect(url, default, policy).target;
            !HasScheme(t) && !StartsWith(t, "//") && '\\' !in t && IsCleanUrl(t)
  {
    PathOnlyHasNoAuthority(EscapeBackslashes(url));
  }

  /** A protocol-relative candidate (`//host/...`) is never taken as a path: only the cross-origin rule can admit it. */
  lemma ProtocolRelativeNeedsOriginCheck(url: string, default: Option<string>, policy: RedirectPolicy)
    requires StartsWith(EscapeBackslashes(url), "//")
    ensures !DecideRedirect(url, default, policy).refused <==>
              !IsPathOnly(EscapeBackslashes(url)) && OriginAccepted(Origin(Parse(EscapeBackslashes(url))), policy)
  {
  }

  /**
   * A candidate holding a tab, carriage return or line feed, or beginning
   * with a control character or space (such as `/\t/host`, which a browser
   * reads as `//host`), differs from its cleaned form and so is never taken
   * as a path: only the cross-origin rule can admit it.
   */
  lemma UncleanCandidateNeedsOriginCheck(url: string, default: Option<string>, policy: RedirectPolicy)
    requires !IsCleanUrl(url)
    ensures !IsPathOnly(EscapeBackslashes(url))
    ensures !DecideRedirect(url, default, policy).refused <==>
              OriginAccepted(Origin(Parse(EscapeBackslashes(url))), policy)
  {
    var e := EscapeBackslashes(url);
    if url != [] && IsC0OrSpace(url[0]) {
      assert url == [url[0]] + url[1..];
      assert e[0] == url[0];
    } else {
      var k :| 0 <= k < |url| && IsUnsafeUrlChar(url[k]);
      assert url[k] in url;
      EscapeKeepsOtherChars(url, url[k]);
    }
    assert !IsCleanUrl(e);
    if IsPathOnly(e) {
      PathOnlyHasNoAuthority(e);
    }
  }

  /**
   * A candidate that begins with a backslash (which some browsers read as
   * `/`, turning `\\host` into `//host`) is never accepted as a local path
   * when the base path begins with `/`.
   */
  lemma LeadingBackslashNotLocal(url: string, default: Option<string>, policy: RedirectPolicy)
    requires |url| > 0 && url[0] == '\\'
    requires StartsWith(policy.baseUrl, "/")
    requires IsPathOnly(EscapeBackslashes(url))
    ensures DecideRedirect(url, default, policy).refused
  {
    EscapeLeadingBackslash(url);
    PercentLedNotLocal(url, default, policy);
  }

  /** A path-only candidate whose escaped form begins with `%` is refused under a base path beginning with `/`. */
  lemma PercentLedNotLocal(url: string, default: Option<string>, policy: RedirectPolicy)
    requires |EscapeBackslashes(url)| > 0 && EscapeBackslashes(url)[0] == '%'
    requires StartsWith(policy.baseUrl, "/")
    requires IsPathOnly(EscapeBackslashes(url))
    ensures DecideRedirect(url, default, policy).refused
  {
    NotUnderSlashBase(EscapeBackslashes(url), policy.baseUrl);
    PathOnlyAcceptance(url, default, policy);
  }

  /** A path-only URL beginning with a character other than `/`, `;`, `?` or `#` is not under a base path beginning with `/`. */
  lemma NotUnderSlashBase(e: string, baseUrl: string)
    requires |e| > 0 && e[0] !in "/;?#"
    requires StartsWith(baseUrl, "/")
    requires IsPathOnly(e)
    ensures !UnderBase(e, baseUrl)
  {
    var p := Parse(e);
    assert e == PathOnly(p);
    PathOnlyFirstChar(p, baseUrl);
  }
}
