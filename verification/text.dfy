/**
 * The two string operations the source takes from the JavaScript runtime:
 * `String.prototype.trim` and `String.prototype.toLowerCase`.
 */
module Text {

  /**
   * The code points `trim` removes: ECMAScript's WhiteSpace (TAB, VT, FF, SP, NBSP,
   * ZWNBSP and the Unicode "Zs" space separators) and LineTerminator (LF, CR, LS, PS).
   */
  predicate IsSpace(c: char) {
    || c == '\t' || c == '\n' || c == '\U{000B}' || c == '\U{000C}' || c == '\r'
    || c == ' ' || c == '\U{00A0}' || c == '\U{1680}' || ('\U{2000}' <= c <= '\U{200A}')
    || c == '\U{2028}' || c == '\U{2029}' || c == '\U{202F}' || c == '\U{205F}'
    || c == '\U{3000}' || c == '\U{FEFF}'
  }

  predicate AllSpace(s: string) {
    forall i :: 0 <= i < |s| ==> IsSpace(s[i])
  }

  /** A string with no whitespace at either end, which is what `trim` produces. */
  predicate IsTrimmed(s: string) {
    s == [] || (!IsSpace(s[0]) && !IsSpace(s[|s| - 1]))
  }

  /** Length of the longest all-whitespace prefix of `s`. */
  function LeadingSpace(s: string): (n: nat)
    ensures n <= |s|
    ensures AllSpace(s[..n])
    ensures n < |s| ==> !IsSpace(s[n])
  {
    if s == [] || !IsSpace(s[0]) then 0 else 1 + LeadingSpace(s[1..])
  }

  /** Length of the longest all-whitespace suffix of `s`. */
  function TrailingSpace(s: string): (n: nat)
    ensures n <= |s|
    ensures AllSpace(s[|s| - n..])
    ensures n < |s| ==> !IsSpace(s[|s| - 1 - n])
  {
    if s == [] || !IsSpace(s[|s| - 1]) then 0 else 1 + TrailingSpace(s[..|s| - 1])
  }

  /** `s` without its leading whitespace. */
  function TrimStart(s: string): (r: string)
    ensures r == s[LeadingSpace(s)..]
    ensures r == [] || !IsSpace(r[0])
    ensures r == [] <==> AllSpace(s)
  {
    var a := LeadingSpace(s);
    assert a < |s| ==> !IsSpace(s[a]);
    assert a == |s| ==> s == s[..a];
    s[a..]
  }

  /** `s` without its trailing whitespace: a prefix of `s` followed only by whitespace. */
  function TrimEnd(s: string): (r: string)
    ensures |r| <= |s| && r == s[..|r|] && AllSpace(s[|r|..])
    ensures r == [] || !IsSpace(r[|r| - 1])
    ensures s != [] && !IsSpace(s[0]) ==> r != []
  {
    var b := TrailingSpace(s);
    assert s[|s| - b..] == s[|s[..|s| - b]|..];
    s[..|s| - b]
  }

  /**
   * `s.trim()`: `s` with its leading and trailing whitespace removed. The result is the
   * stretch of `s` that starts at its first non-whitespace character and has only
   * whitespace after it.
   */
  function Trim(s: string): (r: string)
    ensures IsTrimmed(r)
    ensures r == [] <==> AllSpace(s)
    ensures var a := LeadingSpace(s); a + |r| <= |s| && s[a..a + |r|] == r && AllSpace(s[a + |r|..])
  {
    var rest := TrimStart(s);
    var r := TrimEnd(rest);
    var a := LeadingSpace(s);
    assert s[a..][..|r|] == s[a..a + |r|];
    assert s[a..][|r|..] == s[a + |r|..];
    r
  }

  /** Trimming adds no character that was not there. */
  lemma TrimKeepsCharacters(s: string, c: char)
    requires c in Trim(s)
    ensures c in s
  {
    var r := Trim(s);
    var a := LeadingSpace(s);
    var k :| 0 <= k < |r| && r[k] == c;
    assert s[a + k] == c;
  }

  /** A trimmed string is its own trim. */
  lemma TrimTrimmed(s: string)
    requires IsTrimmed(s)
    ensures Trim(s) == s
  {
  }

  /** Whitespace in front of a string adds exactly its length to the leading whitespace. */
  lemma {:induction false} LeadingSpaceOfPadded(p: string, s: string)
    requires AllSpace(p)
    ensures LeadingSpace(p + s) == |p| + LeadingSpace(s)
  {
    if p != [] {
      assert (p + s)[0] == p[0] && IsSpace(p[0]);
      assert (p + s)[1..] == p[1..] + s;
      LeadingSpaceOfPadded(p[1..], s);
    } else {
      assert p + s == s;
    }
  }

  /** Whitespace in front of a string does not change its trim. */
  lemma TrimSkipsLeadingSpace(p: string, s: string)
    requires AllSpace(p)
    ensures Trim(p + s) == Trim(s)
  {
    LeadingSpaceOfPadded(p, s);
    var rest := s[LeadingSpace(s)..];
    assert (p + s)[LeadingSpace(p + s)..] == rest;
  }

  /** `c.toLowerCase()` restricted to ASCII: 'A'..'Z' map to 'a'..'z', every other character is kept. */
  function LowerChar(c: char): char {
    if 'A' <= c <= 'Z' then (c as int + 32) as char else c
  }

  /** `s.toLowerCase()`, character by character with `LowerChar`. */
  function Lower(s: string): (r: string)
    ensures |r| == |s|
    ensures forall i :: 0 <= i < |s| && 'A' <= s[i] <= 'Z' ==> r[i] as int == s[i] as int + 32
    ensures forall i :: 0 <= i < |s| && !('A' <= s[i] <= 'Z') ==> r[i] == s[i]
  {
    seq(|s|, i requires 0 <= i < |s| => LowerChar(s[i]))
  }
}
