/** The fragment of JavaScript regular expressions that validation.js uses:
    anchored patterns (`^…$`) made of a sequence of character classes, each
    with a quantifier (`+`, `*`, `{n}`, `{m,n}`, or none). `Matches` is what
    such a pattern means; `Test` is a backtracking search with the same
    answer as `RegExp.prototype.test` (it tries the shortest run of each
    piece first, where JavaScript tries the longest, which changes the order
    of the search but not its answer), and `TestIsMatches` proves the two
    agree on every pattern and every string. */
module Regex {
  import opened Text

  predicate IsAsciiLetter(c: char) { 'a' <= c <= 'z' || 'A' <= c <= 'Z' }
  predicate IsDigit(c: char) { '0' <= c <= '9' }

  /** The character classes written in validation.js. */
  datatype CharClass =
    | LocalChar        // [a-zA-Z0-9._-]
    | DomainChar       // [a-zA-Z0-9.-]
    | Letter           // [a-zA-Z]
    | Digit            // [0-9]
    | PhoneSeparator   // [\s().-]
    | NameChar         // [a-zA-Z\s'-]
    | Exactly(c: char) // a literal character, such as @ or \.

  predicate InClass(k: CharClass, c: char) {
    match k
    case LocalChar => IsAsciiLetter(c) || IsDigit(c) || c == '.' || c == '_' || c == '-'
    case DomainChar => IsAsciiLetter(c) || IsDigit(c) || c == '.' || c == '-'
    case Letter => IsAsciiLetter(c)
    case Digit => IsDigit(c)
    case PhoneSeparator => IsWhitespace(c) || c == '(' || c == ')' || c == '.' || c == '-'
    case NameChar => IsAsciiLetter(c) || IsWhitespace(c) || c == '\'' || c == '-'
    case Exactly(d) => c == d
  }

  predicate AllIn(k: CharClass, s: string) {
    forall i :: 0 <= i < |s| ==> InClass(k, s[i])
  }

  datatype Bound = AtMost(n: nat) | Unbounded

  /** A character class repeated at least `min` and at most `max` times:
      `+` is (1, Unbounded), `*` is (0, Unbounded), `{m,n}` is (m, AtMost(n)),
      and a class with no quantifier is (1, AtMost(1)). */
  datatype Piece = Piece(cls: CharClass, min: nat, max: Bound)

  type Pattern = seq<Piece>

  predicate WithinMax(b: Bound, n: nat) {
    b.AtMost? ==> n <= b.n
  }

  /** `x` is one run of the piece. */
  predicate PieceMatches(p: Piece, x: string) {
    p.min <= |x| && WithinMax(p.max, |x|) && AllIn(p.cls, x)
  }

  /** The whole of `s` splits into consecutive runs of the pattern's pieces. */
  ghost predicate Matches(p: Pattern, s: string)
    decreases |p|
  {
    if p == [] then s == []
    else exists x, y :: s == x + y && PieceMatches(p[0], x) && Matches(p[1..], y)
  }

  /** A backtracking search with the answer of `RegExp.prototype.test` on an
      anchored pattern: tries every admissible length of the first piece's
      run, shortest first, and the rest of the pattern on what remains. */
  predicate Test(p: Pattern, s: string)
    decreases |p|, |s| + 1
  {
    if p == [] then s == [] else TestFrom(p, s, 0)
  }

  /** The search for the first piece's run, which is already known to cover
      `s[..i]`: stop there, or extend the run by one more character. */
  predicate TestFrom(p: Pattern, s: string, i: nat)
    requires p != [] && i <= |s|
    decreases |p|, |s| - i
  {
    (p[0].min <= i && Test(p[1..], s[i..]))
    || (i < |s| && WithinMax(p[0].max, i + 1) && InClass(p[0].cls, s[i]) && TestFrom(p, s, i + 1))
  }

  /** The search from `i` finds exactly the splits whose first run is at
      least `i` long. */
  lemma {:induction false} TestFromIsMatches(p: Pattern, s: string, i: nat)
    requires p != [] && i <= |s|
    requires AllIn(p[0].cls, s[..i]) && WithinMax(p[0].max, i)
    ensures TestFrom(p, s, i) <==>
              exists j :: i <= j <= |s| && PieceMatches(p[0], s[..j]) && Matches(p[1..], s[j..])
    decreases |p|, |s| - i
  {
    TestIsMatches(p[1..], s[i..]);
    if i < |s| && WithinMax(p[0].max, i + 1) && InClass(p[0].cls, s[i]) {
      assert s[..i + 1] == s[..i] + [s[i]];
      TestFromIsMatches(p, s, i + 1);
    } else {
      forall j | i < j <= |s| ensures !PieceMatches(p[0], s[..j]) {
        assert s[..j][i] == s[i];
      }
    }
  }

  lemma {:induction false} TestIsMatches(p: Pattern, s: string)
    ensures Test(p, s) <==> Matches(p, s)
    decreases |p|, |s| + 1
  {
    if p != [] {
      assert s[..0] == [];
      TestFromIsMatches(p, s, 0);
      MatchesAtCut(p, s);
    }
  }

  /** A match of a non-empty pattern, with the split written as a cut position. */
  lemma MatchesAtCut(p: Pattern, s: string)
    requires p != []
    ensures Matches(p, s) <==>
              exists j :: 0 <= j <= |s| && PieceMatches(p[0], s[..j]) && Matches(p[1..], s[j..])
  {
    if Matches(p, s) {
      var x, y :| s == x + y && PieceMatches(p[0], x) && Matches(p[1..], y);
      CutOfSplit(s, x, y);
      assert PieceMatches(p[0], s[..|x|]) && Matches(p[1..], s[|x|..]);
    }
    forall j | 0 <= j <= |s| && PieceMatches(p[0], s[..j]) && Matches(p[1..], s[j..])
      ensures Matches(p, s)
    {
      SplitAtCut(p, s, j);
    }
  }

  lemma SplitAtCut(p: Pattern, s: string, j: nat)
    requires p != [] && j <= |s| && PieceMatches(p[0], s[..j]) && Matches(p[1..], s[j..])
    ensures Matches(p, s)
  {
    var x, y := s[..j], s[j..];
    assert s == x + y;
  }

  lemma CutOfSplit(s: string, x: string, y: string)
    requires s == x + y
    ensures s[..|x|] == x && s[|x|..] == y
  {
  }

  /** The concatenation of a sequence of strings. */
  function Concat(xs: seq<string>): string {
    if xs == [] then [] else xs[0] + Concat(xs[1..])
  }

  /** `xs` cuts `s` into one run per piece of `p`. */
  ghost predicate Partition(p: Pattern, s: string, xs: seq<string>) {
    |xs| == |p| && Concat(xs) == s && forall i :: 0 <= i < |p| ==> PieceMatches(p[i], xs[i])
  }

  /** A match is the same thing as a partition into runs, one per piece. */
  lemma {:induction false} MatchesIsPartition(p: Pattern, s: string)
    ensures Matches(p, s) <==> exists xs :: Partition(p, s, xs)
    decreases |p|
  {
    if p == [] {
      assert Partition(p, [], []);
    } else {
      if Matches(p, s) {
        var x, y :| s == x + y && PieceMatches(p[0], x) && Matches(p[1..], y);
        MatchesIsPartition(p[1..], y);
        var ys :| Partition(p[1..], y, ys);
        assert ([x] + ys)[1..] == ys;
        assert Partition(p, s, [x] + ys);
      }
      if exists xs :: Partition(p, s, xs) {
        var xs :| Partition(p, s, xs);
        assert Partition(p[1..], Concat(xs[1..]), xs[1..]);
        MatchesIsPartition(p[1..], Concat(xs[1..]));
      }
    }
  }
}
