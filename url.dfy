/**
 * A simplified model of `urllib.parse.urlparse` as CPython 3.12.13 has it, and of the one
 * `urlunparse` call the redirect guard makes: the reconstruction of a URL
 * with its scheme and network location blanked out.
 */
module Url {
  import opened Text

  /** The six fields of `urlparse`'s result. */
  datatype ParsedUrl = ParsedUrl(scheme: string, netloc: string, path: string,
                                 params: string, query: string, fragment: string)

  /** The characters `urlsplit` strips from the front of a URL: the C0 controls and space. */
  predicate IsC0OrSpace(c: char) {
    c <= ' '
  }

  /** The characters `urlsplit` deletes wherever they occur: tab, carriage return and line feed. */
  predicate IsUnsafeUrlChar(c: char) {
    c == '\t' || c == '\r' || c == '\n'
  }

  /** A URL that `urlsplit`'s input cleaning leaves as it is. */
  predicate IsCleanUrl(url: string) {
    && (url == [] || !IsC0OrSpace(url[0]))
    && forall k :: 0 <= k < |url| ==> !IsUnsafeUrlChar(url[k])
  }

  /** `url.lstrip(_WHATWG_C0_CONTROL_OR_SPACE)`. */
  function StripLeading(url: string): (r: string)
    ensures |r| <= |url|
    ensures r == [] || !IsC0OrSpace(r[0])
    ensures url != [] && IsC0OrSpace(url[0]) ==> |r| < |url|
    ensures url == [] || !IsC0OrSpace(url[0]) ==> r == url
  {
    if url != [] && IsC0OrSpace(url[0]) then StripLeading(url[1..]) else url
  }

  /** `url.replace(b, "")` for each of tab, carriage return and line feed. */
  function RemoveUnsafe(url: string): (r: string)
    ensures |r| <= |url|
    ensures forall k :: 0 <= k < |r| ==> !IsUnsafeUrlChar(r[k])
    ensures (forall k :: 0 <= k < |url| ==> !IsUnsafeUrlChar(url[k])) ==> r == url
    ensures (exists k :: 0 <= k < |url| && IsUnsafeUrlChar(url[k])) ==> |r| < |url|
    ensures url != [] && !IsUnsafeUrlChar(url[0]) ==> r != [] && r[0] == url[0]
  {
    if url == [] then []
    else
      var rest := RemoveUnsafe(url[1..]);
      assert forall k :: 1 <= k < |url| ==> url[k] == url[1..][k - 1];
      if IsUnsafeUrlChar(url[0]) then rest else [url[0]] + rest
  }

  /** The input cleaning `urlsplit` applies before it splits: a URL it changes gets strictly shorter. */
  function Clean(url: string): (r: string)
    ensures IsCleanUrl(r)
    ensures IsCleanUrl(url) ==> r == url
    ensures !IsCleanUrl(url) ==> |r| < |url|
  {
    RemoveUnsafe(StripLeading(url))
  }

  predicate IsAsciiLetter(c: char) {
    'a' <= c <= 'z' || 'A' <= c <= 'Z'
  }

  /** The characters `urlsplit` accepts in a scheme. */
  predicate IsSchemeChar(c: char) {
    IsAsciiLetter(c) || '0' <= c <= '9' || c == '+' || c == '-' || c == '.'
  }

  /** A scheme is the non-empty text before the first `:`, starting with a letter and made of scheme characters. */
  predicate HasScheme(url: string) {
    var i := Find(url, ':', 0);
    0 < i < |url| && IsAsciiLetter(url[0]) && forall k :: 0 <= k < i ==> IsSchemeChar(url[k])
  }

  /** The lower-cased scheme, or "" when the URL has none. */
  function Scheme(url: string): string {
    if HasScheme(url) then Lower(url[..Find(url, ':', 0)]) else ""
  }

  /** What follows the scheme and its `:`. */
  function AfterScheme(url: string): (r: string)
    ensures |r| <= |url|
    ensures HasScheme(url) ==> |r| < |url|
    ensures !HasScheme(url) ==> r == url
  {
    if HasScheme(url) then url[Find(url, ':', 0) + 1..] else url
  }

  /** Whether the remainder carries a network location, introduced by `//`. */
  predicate HasNetloc(rest: string) {
    StartsWith(rest, "//")
  }

  /** The network location: from after `//` to the first `/`, `?` or `#`. */
  function Netloc(rest: string): string {
    if HasNetloc(rest) then rest[2..FindAny(rest, "/?#", 2)] else ""
  }

  /** What follows the network location (all of `rest` when there is none). */
  function AfterNetloc(rest: string): (r: string)
    ensures |r| <= |rest|
    ensures HasNetloc(rest) ==> |r| + 2 + |Netloc(rest)| == |rest|
    ensures !HasNetloc(rest) ==> r == rest
  {
    if HasNetloc(rest) then rest[FindAny(rest, "/?#", 2)..] else rest
  }

  /** `_splitparams`: the parameters begin at the first `;` of the last path segment. */
  function SplitParams(path: string): (r: (string, string))
    ensures StartsWith(path, r.0)
    ensures r.1 != "" ==> |r.0| + 1 + |r.1| <= |path|
    ensures r.1 == "" ==> |r.0| <= |path|
  {
    var semi := Find(path, ';', 0);
    if semi == |path| then (path, "")
    else
      var slash := RFind(path, '/');
      var i := if slash < 0 then semi else Find(path, ';', slash);
      if i == |path| then (path, "") else (path[..i], path[i + 1..])
  }

  /** The path, parameters, query and fragment of what follows the network location. */
  function SplitTail(tail: string): (p: ParsedUrl)
    ensures StartsWith(tail, p.path)
    ensures forall k :: 0 <= k < |p.path| ==> p.path[k] != '?' && p.path[k] != '#'
    ensures forall k :: 0 <= k < |p.query| ==> p.query[k] != '#'
  {
    var f := Find(tail, '#', 0);
    var body := tail[..f];
    var fragment := if f < |tail| then tail[f + 1..] else "";
    var q := Find(body, '?', 0);
    var query := if q < |body| then body[q + 1..] else "";
    var pp := SplitParams(body[..q]);
    assert StartsWith(tail, body[..q]);
    ParsedUrl("", "", pp.0, pp.1, query, fragment)
  }

  /**
   * `urlparse(url)`: the cleaned URL is split into its scheme, its network
   * location (which holds none of `/`, `?` and `#`) and the rest, whose path
   * holds neither `?` nor `#`.
   */
  function Parse(url: string): (r: ParsedUrl)
    ensures r.scheme != "" <==> HasScheme(Clean(url))
    ensures r.netloc != "" ==> HasNetloc(AfterScheme(Clean(url)))
    ensures forall k :: 0 <= k < |r.netloc| ==> r.netloc[k] !in "/?#"
    ensures forall k :: 0 <= k < |r.path| ==> r.path[k] != '?' && r.path[k] != '#'
  {
    var c := Clean(url);
    var rest := AfterScheme(c);
    SplitTail(AfterNetloc(rest)).(scheme := Scheme(c), netloc := Netloc(rest))
  }

  /**
   * `urlunparse(parsed._replace(netloc='', scheme=''))`: empty parts are
   * dropped with their delimiters, and -- as `urlunsplit` does when there is
   * no network location -- a path beginning with `//` gets a second `//` in
   * front, so the result begins with `//` only when it begins with `////`.
   */
  function PathOnly(p: ParsedUrl): (r: string)
    ensures StartsWith(r, "//") <==> StartsWith(p.path, "//")
    ensures StartsWith(r, "//") ==> StartsWith(r, "////")
  {
    var withParams := if p.params != "" then p.path + ";" + p.params else p.path;
    assert StartsWith(withParams, p.path);
    assert StartsWith(withParams, "//") <==> StartsWith(p.path, "//") by {
      if |p.path| < 2 && p.params != "" {
        assert withParams[|p.path|] == ';';
      }
    }
    var withAuthority := if StartsWith(withParams, "//") then "//" + withParams else withParams;
    var withQuery := if p.query != "" then withAuthority + "?" + p.query else withAuthority;
    var r := if p.fragment != "" then withQuery + "#" + p.fragment else withQuery;
    assert StartsWith(r, withAuthority);
    assert StartsWith(r, "//") <==> StartsWith(withAuthority, "//") by {
      if |withAuthority| < 2 && r != withAuthority {
        assert r[|withAuthority|] in "?#";
      }
    }
    r
  }

  /** The path-only form of what follows the network location is no longer than it, but for the extra `//`. */
  lemma PathOnlyNoLonger(tail: string)
    ensures |PathOnly(SplitTail(tail))| <= |tail| + (if StartsWith(tail, "//") then 2 else 0)
  {
    var f := Find(tail, '#', 0);
    var body := tail[..f];
    var q := Find(body, '?', 0);
    var pp := SplitParams(body[..q]);
    var p := SplitTail(tail);
    assert |pp.0| + (if pp.1 != "" then 1 + |pp.1| else 0) <= q;
    if StartsWith(p.path, "//") {
      assert tail[..2] == p.path[..2];
    }
  }

  /**
   * A URL that equals its own path-only reconstruction is already clean, has
   * neither a scheme nor a network location, and begins with `//` only when
   * it begins with `////`.
   */
  lemma PathOnlyHasNoAuthority(url: string)
    requires url == PathOnly(Parse(url))
    ensures Parse(url).scheme == "" && Parse(url).netloc == ""
    ensures IsCleanUrl(url) && !HasScheme(url)
    ensures StartsWith(url, "//") ==> StartsWith(url, "////")
  {
    var c := Clean(url);
    var rest := AfterScheme(c);
    var tail := AfterNetloc(rest);
    PathOnlyNoLonger(tail);
    assert PathOnly(Parse(url)) == PathOnly(SplitTail(tail));
    assert !HasScheme(c);
    assert Netloc(rest) == "";
    assert IsCleanUrl(url);
  }

  /**
   * The path-only form begins with the path, after the extra `//` when the
   * path begins with `//`; when the path is empty it is empty or begins with
   * a delimiter.
   */
  lemma PathOnlyStartsWithPath(p: ParsedUrl)
    ensures !StartsWith(p.path, "//") ==> StartsWith(PathOnly(p), p.path)
    ensures p.path == "" ==> PathOnly(p) == "" || PathOnly(p)[0] in ";?#"
  {
    var withParams := if p.params != "" then p.path + ";" + p.params else p.path;
    var withQuery := if p.query != "" then withParams + "?" + p.query else withParams;
    assert StartsWith(withParams, p.path);
    assert StartsWith(withQuery, p.path);
  }
  /**
   * A path-only form that begins with a character other than `/` and the
   * delimiters begins with the path, so the path is not under a base path
   * beginning with `/`.
   */
  lemma PathOnlyFirstChar(p: ParsedUrl, baseUrl: string)
    requires PathOnly(p) != "" && PathOnly(p)[0] !in "/;?#"
    requires StartsWith(baseUrl, "/")
    ensures p.path != "" && p.path[0] == PathOnly(p)[0]
    ensures !StartsWith(p.path + "/", baseUrl)
  {
    PathOnlyStartsWithPath(p);
    assert (p.path + "/")[0] == p.path[0];
  }

  /** What follows the network location, when it holds no delimiter, is all path. */
  lemma SplitTailPlain(tail: string)
    requires forall k :: 0 <= k < |tail| ==> tail[k] !in "?#;"
    ensures SplitTail(tail) == ParsedUrl("", "", tail, "", "", "")
  {
    assert Find(tail, '#', 0) == |tail|;
    assert tail[..|tail|] == tail;
    assert Find(tail, '?', 0) == |tail|;
    assert Find(tail, ';', 0) == |tail|;
  }

  /**
   * `////` followed by text without delimiters or characters the cleaning
   * removes has an empty network location and the path `//...`, which the
   * reconstruction turns back into the URL itself.
   */
  lemma NetworkPathParse(s: string)
    requires forall k :: 0 <= k < |s| ==> s[k] !in "?#;\t\r\n"
    ensures Parse("////" + s) == ParsedUrl("", "", "//" + s, "", "", "")
    ensures PathOnly(Parse("////" + s)) == "////" + s
  {
    var url := "////" + s;
    assert forall k :: 4 <= k < |url| ==> url[k] == s[k - 4];
    assert IsCleanUrl(url);
    assert !HasScheme(url);
    assert FindAny(url, "/?#", 2) == 2;
    var tail := url[2..];
    assert tail == "//" + s;
    assert forall k :: 2 <= k < |tail| ==> tail[k] == s[k - 2];
    SplitTailPlain(tail);
  }
}
