/** The JavaScript string built-ins the validator and the bridge rely on:
    the `\s` character class (which is also the set `String.prototype.trim`
    removes), `trim`, ASCII lower-casing and `Array.prototype.join`. */
module Text {

  /** The characters ECMAScript counts as WhiteSpace or LineTerminator:
      TAB, LF, VT, FF, CR, SPACE, the other Zs space separators, LS, PS and
      the byte-order mark. `\s` in a regular expression and `trim()` agree
      on this set. */
  predicate IsWhitespace(c: char) {
    c == '\t' || c == '\n' || c == '\U{000B}' || c == '\U{000C}' || c == '\r' || c == ' '
    || c == '\U{00A0}' || c == '\U{1680}' || ('\U{2000}' <= c <= '\U{200A}')
    || c == '\U{2028}' || c == '\U{2029}' || c == '\U{202F}' || c == '\U{205F}'
    || c == '\U{3000}' || c == '\U{FEFF}'
  }

  /** The character at position `i` of `s` is whitespace. Quantifying over
      this predicate, rather than over `IsWhitespace(s[i])`, keeps the
      solver from expanding the whitespace test at every index it meets. */
  predicate WhitespaceAt(s: string, i: nat)
    requires i < |s|
  {
    IsWhitespace(s[i])
  }

  predicate AllWhitespace(s: string) {
    forall i :: 0 <= i < |s| ==> WhitespaceAt(s, i)
  }

  lemma AllWhitespaceSingle(c: char)
    ensures AllWhitespace([c]) <==> IsWhitespace(c)
  {
    assert IsWhitespace(c) <==> WhitespaceAt([c], 0);
  }

  lemma AllWhitespaceAppend(a: string, b: string)
    ensures AllWhitespace(a + b) <==> AllWhitespace(a) && AllWhitespace(b)
  {
    if AllWhitespace(a) && AllWhitespace(b) {
      forall i | 0 <= i < |a + b| ensures WhitespaceAt(a + b, i) {
        if i < |a| {
          assert WhitespaceAt(a, i);
        } else {
          assert WhitespaceAt(b, i - |a|);
        }
      }
    }
    if AllWhitespace(a + b) {
      forall i | 0 <= i < |a| ensures WhitespaceAt(a, i) {
        assert WhitespaceAt(a + b, i);
      }
      forall i | 0 <= i < |b| ensures WhitespaceAt(b, i) {
        assert WhitespaceAt(a + b, i + |a|);
      }
    }
  }

  /** The length of the longest all-whitespace prefix of `s`. */
  function LeadingWhitespace(s: string): (n: nat)
    ensures n <= |s|
    ensures AllWhitespace(s[..n])
    ensures n < |s| ==> !IsWhitespace(s[n])
  {
    if s == [] || !IsWhitespace(s[0]) then 0
    else
      var m := LeadingWhitespace(s[1..]);
      assert s[..m + 1] == [s[0]] + s[1..][..m];
      AllWhitespaceSingle(s[0]);
      AllWhitespaceAppend([s[0]], s[1..][..m]);
      m + 1
  }

  /** The length of the longest all-whitespace suffix of `s`. */
  function TrailingWhitespace(s: string): (n: nat)
    ensures n <= |s|
    ensures AllWhitespace(s[|s| - n..])
    ensures n < |s| ==> !IsWhitespace(s[|s| - n - 1])
  {
    if s == [] || !IsWhitespace(s[|s| - 1]) then 0
    else
      var rest := s[..|s| - 1];
      var m := TrailingWhitespace(rest);
      assert s[|s| - (m + 1)..] == rest[|rest| - m..] + [s[|s| - 1]];
      AllWhitespaceSingle(s[|s| - 1]);
      AllWhitespaceAppend(rest[|rest| - m..], [s[|s| - 1]]);
      m + 1
  }

  /** `s.trim()`: `s` without its leading and trailing whitespace. */
  function Trim(s: string): (r: string)
    ensures r == [] <==> AllWhitespace(s)
  {
    var i := LeadingWhitespace(s);
    var t := s[i..];
    var j := |t| - TrailingWhitespace(t);
    assert s == s[..i] + t;
    assert t[|t| - |t|..] == t;
    AllWhitespaceAppend(s[..i], t);
    assert AllWhitespace(s) && i < |s| ==> WhitespaceAt(s, i);
    t[..j]
  }

  /** What `trim` removes: the trimmed string is a contiguous part of `s`
      that neither starts nor ends with whitespace, and everything cut off on
      either side of it is whitespace. */
  lemma TrimIsInfix(s: string)
    ensures var r := Trim(s);
            && (r != [] ==> !IsWhitespace(r[0]) && !IsWhitespace(r[|r| - 1]))
            && exists i :: 0 <= i <= |s| - |r| && r == s[i..i + |r|]
                           && AllWhitespace(s[..i]) && AllWhitespace(s[i + |r|..])
  {
    var i := LeadingWhitespace(s);
    var t := s[i..];
    var j := |t| - TrailingWhitespace(t);
    assert Trim(s) == t[..j];
    assert t[..j] == s[i..i + j];
    assert s[i + j..] == t[j..];
  }

  /** `!value || value.trim() === ""`: the value is empty or whitespace only. */
  function IsBlank(value: string): (b: bool)
    ensures b <==> AllWhitespace(value)
  {
    value == "" || Trim(value) == ""
  }

  /** ASCII lower-casing of one character. */
  function LowerChar(c: char): char {
    if 'A' <= c <= 'Z' then (c as int - 'A' as int + 'a' as int) as char else c
  }

  /** `s.toLowerCase()`, on ASCII letters. */
  function ToLower(s: string): (r: string)
    ensures |r| == |s|
    ensures forall i :: 0 <= i < |s| ==> r[i] == LowerChar(s[i])
  {
    if s == [] then [] else [LowerChar(s[0])] + ToLower(s[1..])
  }

  /** `xs.join(sep)`. */
  function Join(xs: seq<string>, sep: string): string {
    if xs == [] then ""
    else if |xs| == 1 then xs[0]
    else xs[0] + sep + Join(xs[1..], sep)
  }

  /** `x` occurs in `s` starting at offset `o`. */
  predicate OccursAt(x: string, s: string, o: int) {
    0 <= o <= |s| - |x| && s[o..o + |x|] == x
  }

  /** `x` occurs somewhere in `text`. */
  ghost predicate Mentions(text: string, x: string) {
    exists o :: OccursAt(x, text, o)
  }

  /** Every joined element occurs in the joined string. */
  lemma {:induction false} JoinContains(xs: seq<string>, sep: string, k: nat)
    requires k < |xs|
    ensures Mentions(Join(xs, sep), xs[k])
  {
    var j := Join(xs, sep);
    if |xs| == 1 {
      assert j[0..|xs[0]|] == xs[0];
      assert OccursAt(xs[k], j, 0);
    } else {
      var rest := Join(xs[1..], sep);
      assert j == xs[0] + sep + rest;
      if k == 0 {
        assert j[0..|xs[0]|] == xs[0];
        assert OccursAt(xs[k], j, 0);
      } else {
        JoinContains(xs[1..], sep, k - 1);
        var o :| OccursAt(xs[1..][k - 1], rest, o);
        var p := |xs[0]| + |sep|;
        assert j[p + o..p + o + |xs[k]|] == rest[o..o + |xs[k]|];
        assert OccursAt(xs[k], j, p + o);
      }
    }
  }
}
