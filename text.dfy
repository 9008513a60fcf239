/** The few string operations of Python that the login handler relies on. */
module Text {

  /** Python's `s.startswith(prefix)`. */
  predicate StartsWith(s: string, prefix: string) {
    |prefix| <= |s| && s[..|prefix|] == prefix
  }

  /** Python's `s.replace("\\", "%5C")`: every backslash becomes its percent-encoded form. */
  function EscapeBackslashes(s: string): (r: string)
    ensures '\\' !in r
    ensures '\\' !in s ==> r == s
    ensures |r| >= |s|
  {
    if s == [] then []
    else
      assert s == [s[0]] + s[1..];
      (if s[0] == '\\' then "%5C" else [s[0]]) + EscapeBackslashes(s[1..])
  }

  /** Percent-decoding of `%5C` only, as a browser applies it to a path. */
  function UnescapeBackslashes(s: string): string {
    if s == [] then []
    else if |s| >= 3 && s[..3] == "%5C" then "\\" + UnescapeBackslashes(s[3..])
    else [s[0]] + UnescapeBackslashes(s[1..])
  }

  /** The escaping loses nothing: on a string without `%`, decoding `%5C` gives the original back. */
  lemma {:induction false} EscapeRoundTrip(s: string)
    requires '%' !in s
    ensures UnescapeBackslashes(EscapeBackslashes(s)) == s
  {
    if s != [] {
      assert s == [s[0]] + s[1..];
      EscapeRoundTrip(s[1..]);
      var rest := EscapeBackslashes(s[1..]);
      if s[0] == '\\' {
        UnescapeEncoded(rest);
      } else {
        UnescapePlain(s[0], rest);
      }
    }
  }

  lemma UnescapeEncoded(t: string)
    ensures UnescapeBackslashes("%5C" + t) == "\\" + UnescapeBackslashes(t)
  {
    var u := "%5C" + t;
    assert u[..3] == "%5C" && u[3..] == t;
  }

  lemma UnescapePlain(c: char, t: string)
    requires c != '%'
    ensures UnescapeBackslashes([c] + t) == [c] + UnescapeBackslashes(t)
  {
    var u := [c] + t;
    assert u[0] == c && u[1..] == t;
  }

  /** The escape keeps every character other than the backslash. */
  lemma {:induction false} EscapeKeepsOtherChars(s: string, c: char)
    requires c != '\\' && c in s
    ensures c in EscapeBackslashes(s)
  {
    assert s == [s[0]] + s[1..];
    if s[0] != c {
      assert c in s[1..];
      EscapeKeepsOtherChars(s[1..], c);
    }
  }

  /** A leading backslash becomes a leading `%`. */
  lemma EscapeLeadingBackslash(s: string)
    requires |s| > 0 && s[0] == '\\'
    ensures |EscapeBackslashes(s)| > 0 && EscapeBackslashes(s)[0] == '%'
  {
    assert s == [s[0]] + s[1..];
  }

  /** Lower-casing of one character (ASCII letters only). */
  function LowerChar(c: char): char {
    if 'A' <= c <= 'Z' then (c as int + 32) as char else c
  }

  /** Python's `s.lower()`, restricted to the ASCII letters. */
  function Lower(s: string): (r: string)
    ensures |r| == |s|
    ensures forall i :: 0 <= i < |s| ==> r[i] == LowerChar(s[i])
  {
    if s == [] then [] else [LowerChar(s[0])] + Lower(s[1..])
  }

  /** Python's `s.find(c, start)`, with `|s|` standing for -1. */
  function Find(s: string, c: char, start: nat): (i: nat)
    requires start <= |s|
    ensures start <= i <= |s|
    ensures i < |s| ==> s[i] == c
    ensures forall k :: start <= k < i ==> s[k] != c
    decreases |s| - start
  {
    if start == |s| || s[start] == c then start else Find(s, c, start + 1)
  }

  /** The first position at or after `start` holding one of `cs`, `|s|` when there is none. */
  function FindAny(s: string, cs: string, start: nat): (i: nat)
    requires start <= |s|
    ensures start <= i <= |s|
    ensures i < |s| ==> s[i] in cs
    ensures forall k :: start <= k < i ==> s[k] !in cs
    decreases |s| - start
  {
    if start == |s| || s[start] in cs then start else FindAny(s, cs, start + 1)
  }

  /** Python's `s.rfind(c)`: the last position holding `c`, or -1. */
  function RFind(s: string, c: char): (i: int)
    ensures -1 <= i < |s|
    ensures 0 <= i ==> s[i] == c
    ensures forall k :: i < k < |s| ==> s[k] != c
  {
    if s == [] then -1
    else if s[|s| - 1] == c then |s| - 1
    else RFind(s[..|s| - 1], c)
  }
}
