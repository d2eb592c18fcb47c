/**
 * The JavaScript string built-ins the wizard relies on: `trim` and `toLowerCase`
 * restricted to ASCII, `startsWith`, `replace` with a string pattern, and the
 * regular-expression class `\d`, which is exactly `[0-9]`.
 */
module Text {

  /** The ASCII characters that `String.prototype.trim` removes. */
  predicate IsSpace(c: char) {
    c == ' ' || c == '\t' || c == '\n' || c == '\r' || c == '\U{000B}' || c == '\U{000C}'
  }

  predicate AllSpace(s: string) {
    forall i :: 0 <= i < |s| ==> IsSpace(s[i])
  }

  /** Neither end of `s` is whitespace (vacuously true of the empty string). */
  predicate NoEdgeSpace(s: string) {
    s == [] || (!IsSpace(s[0]) && !IsSpace(s[|s| - 1]))
  }

  /** Drops the leading whitespace of `s`. */
  function TrimStart(s: string): (r: string)
    ensures |r| <= |s| && r == s[|s| - |r|..]
    ensures r == [] || !IsSpace(r[0])
    ensures AllSpace(s[..|s| - |r|])
  {
    if s != [] && IsSpace(s[0]) then TrimStart(s[1..]) else s
  }

  /** Drops the trailing whitespace of `s`. */
  function TrimEnd(s: string): (r: string)
    ensures |r| <= |s| && r == s[..|r|]
    ensures r == [] || !IsSpace(r[|r| - 1])
    ensures AllSpace(s[|r|..])
  {
    if s != [] && IsSpace(s[|s| - 1]) then TrimEnd(s[..|s| - 1]) else s
  }

  /** `s.trim()`: the text between the leading and the trailing whitespace. */
  function Trim(s: string): (r: string)
    ensures |r| <= |s|
    ensures NoEdgeSpace(r)
    ensures r == [] <==> AllSpace(s)
    ensures NoEdgeSpace(s) ==> r == s
  {
    var t := TrimStart(s);
    assert t == [] ==> AllSpace(s) by {
      if t == [] {
        assert s[..|s|] == s;
      }
    }
    TrimEnd(t)
  }

  lemma {:induction false} TrimStartPadded(p: string, m: string)
    requires AllSpace(p)
    requires m == [] || !IsSpace(m[0])
    ensures TrimStart(p + m) == m
  {
    if p != [] {
      assert (p + m)[1..] == p[1..] + m;
      TrimStartPadded(p[1..], m);
    }
  }

  lemma {:induction false} TrimEndPadded(m: string, q: string)
    requires AllSpace(q)
    requires m == [] || !IsSpace(m[|m| - 1])
    ensures TrimEnd(m + q) == m
  {
    if q != [] {
      assert (m + q)[..|m + q| - 1] == m + q[..|q| - 1];
      TrimEndPadded(m, q[..|q| - 1]);
    }
  }

  /**
   * Trim is determined by the padding: whatever whitespace surrounds a text with
   * no whitespace at its ends, trimming gives back exactly that text.
   */
  lemma TrimOfPadded(p: string, m: string, q: string)
    requires AllSpace(p) && AllSpace(q) && NoEdgeSpace(m)
    ensures Trim(p + m + q) == m
  {
    if m == [] {
      assert p + m + q == p + q;
      assert AllSpace(p + q);
    } else {
      assert p + m + q == p + (m + q);
      TrimStartPadded(p, m + q);
      TrimEndPadded(m, q);
    }
  }

  /** ASCII `toLowerCase` of one character. */
  function LowerChar(c: char): char {
    if 'A' <= c <= 'Z' then (c as int + 32) as char else c
  }

  /** `s.toLowerCase()`, character by character. */
  function ToLower(s: string): (r: string)
    ensures |r| == |s|
    ensures forall i :: 0 <= i < |s| ==> r[i] == LowerChar(s[i])
  {
    if s == [] then [] else [LowerChar(s[0])] + ToLower(s[1..])
  }

  lemma ToLowerAppend(a: string, b: string)
    ensures ToLower(a + b) == ToLower(a) + ToLower(b)
  {
    assert forall i :: 0 <= i < |a + b| ==> ToLower(a + b)[i] == (ToLower(a) + ToLower(b))[i];
  }

  /** `s.replace(pattern, "")` with a string pattern: only the first occurrence goes. */
  function ReplaceFirst(s: string, pattern: string): (r: string)
    ensures |r| == |s| || |r| == |s| - |pattern|
    ensures pattern <= s ==> r == s[|pattern|..]
  {
    if pattern <= s then s[|pattern|..]
    else if s == [] then s
    else [s[0]] + ReplaceFirst(s[1..], pattern)
  }

  /** The regular-expression class `\d`. */
  predicate IsDigit(c: char) {
    '0' <= c <= '9'
  }

  predicate AllDigits(s: string) {
    forall i :: 0 <= i < |s| ==> IsDigit(s[i])
  }
}
