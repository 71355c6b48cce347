/**
 * The regular expressions of the system, as predicates over ASCII text.
 *
 * Every pattern in use has the form `\b X \b` where X matches only word
 * characters and at least one of them. A regex `search` for such a pattern
 * therefore succeeds exactly at a maximal run of word characters
 * (`[A-Za-z0-9_]`) whose text has the shape X, and returns the leftmost one.
 * Each `Pattern` value names one of these shapes; `PatternText` gives the
 * regex source the program writes for it.
 */
module Patterns {
  import opened Wrappers
  import opened Text

  datatype Pattern =
    | CodeShape                    // \b[0-9][A-Z][0-9]{3}\b, compiled IGNORECASE
    | DigitRun(lo: nat, hi: nat)   // \b\d{lo,hi}\b  (written \b\d{lo}\b when lo == hi)
    | AlnumRun(width: nat)         // \b[A-Z0-9]{width}\b, compiled IGNORECASE

  function PatternText(p: Pattern): string {
    match p
    case CodeShape => @"\b[0-9][A-Z][0-9]{3}\b"
    case DigitRun(lo, hi) =>
      if lo == hi then @"\b\d{" + NatToString(lo) + @"}\b"
      else @"\b\d{" + NatToString(lo) + "," + NatToString(hi) + @"}\b"
    case AlnumRun(n) => @"\b[A-Z0-9]{" + NatToString(n) + @"}\b"
  }

  predicate AllDigits(w: string) {
    forall k :: 0 <= k < |w| ==> IsDigit(w[k])
  }

  predicate AllAlnum(w: string) {
    forall k :: 0 <= k < |w| ==> IsAlnum(w[k])
  }

  /** The text between the two `\b` of pattern `p`. */
  predicate Shape(p: Pattern, w: string) {
    match p
    case CodeShape =>
      |w| == 5 && IsDigit(w[0]) && IsLetter(w[1]) && IsDigit(w[2]) && IsDigit(w[3]) && IsDigit(w[4])
    case DigitRun(lo, hi) => 1 <= |w| && lo <= |w| <= hi && AllDigits(w)
    case AlnumRun(n) => 1 <= |w| && |w| == n && AllAlnum(w)
  }

  /** `s[i..j]` is a match of `p`: word boundaries on both sides and the right shape. */
  predicate MatchAt(p: Pattern, s: string, i: int, j: int) {
    && 0 <= i < j <= |s|
    && (i == 0 || !IsWordChar(s[i - 1]))
    && (j == |s| || !IsWordChar(s[j]))
    && Shape(p, s[i..j])
  }

  /** `re.search(p, s)` finds something. */
  ghost predicate Occurs(p: Pattern, s: string) {
    exists i, j :: MatchAt(p, s, i, j)
  }

  /** End of the run of word characters starting at `i`. */
  function WordEnd(s: string, i: nat): (j: nat)
    requires i <= |s|
    ensures i <= j <= |s|
    ensures forall k :: i <= k < j ==> IsWordChar(s[k])
    ensures j == |s| || !IsWordChar(s[j])
    decreases |s| - i
  {
    if i < |s| && IsWordChar(s[i]) then WordEnd(s, i + 1) else i
  }

  lemma ShapeIsWord(p: Pattern, w: string)
    requires Shape(p, w)
    ensures |w| >= 1 && forall k :: 0 <= k < |w| ==> IsWordChar(w[k])
  {
  }

  /** A match starting at `a` always ends where the word run starting at `a` ends. */
  lemma MatchEndsAtWordEnd(p: Pattern, s: string, a: nat)
    requires a <= |s|
    ensures forall b :: MatchAt(p, s, a, b) ==> b == WordEnd(s, a)
  {
    forall b | MatchAt(p, s, a, b)
      ensures b == WordEnd(s, a)
    {
      var e := WordEnd(s, a);
      ShapeIsWord(p, s[a..b]);
      assert forall k :: a <= k < b ==> IsWordChar(s[k]) by {
        forall k | a <= k < b ensures IsWordChar(s[k]) { assert s[k] == s[a..b][k - a]; }
      }
    }
  }

  /** The word run starting at `i` is preceded by a word boundary and has
      the shape of `p`. */
  predicate MatchStartsAt(p: Pattern, s: string, i: nat)
    requires i < |s|
  {
    var j := WordEnd(s, i);
    (i == 0 || !IsWordChar(s[i - 1])) && i < j && Shape(p, s[i..j])
  }

  /** A match starts at `i` exactly when the word run there is one. */
  lemma MatchStartsAtIff(p: Pattern, s: string, i: nat)
    requires i < |s|
    ensures MatchStartsAt(p, s, i) ==> MatchAt(p, s, i, WordEnd(s, i))
    ensures !MatchStartsAt(p, s, i) ==> forall b :: !MatchAt(p, s, i, b)
  {
    MatchEndsAtWordEnd(p, s, i);
  }

  /** The first word run starting at or after `i` that has the shape of
      `p`, as `(start, end)`. */
  function SearchFrom(p: Pattern, s: string, i: nat): (r: Option<(nat, nat)>)
    requires i <= |s|
    ensures r.Some? ==> i <= r.value.0 < r.value.1 <= |s|
    decreases |s| - i
  {
    if i == |s| then None
    else if MatchStartsAt(p, s, i) then Some((i, WordEnd(s, i)))
    else SearchFrom(p, s, i + 1)
  }

  /** What SearchFrom returns is a match. */
  lemma {:induction false} SearchFromSound(p: Pattern, s: string, i: nat)
    requires i <= |s|
    ensures SearchFrom(p, s, i).Some? ==> MatchAt(p, s, SearchFrom(p, s, i).value.0, SearchFrom(p, s, i).value.1)
    decreases |s| - i
  {
    if i < |s| {
      MatchStartsAtIff(p, s, i);
      if !MatchStartsAt(p, s, i) {
        SearchFromSound(p, s, i + 1);
      }
    }
  }

  /** No match starts between `i` and what SearchFrom returns, nor anywhere
      from `i` on when it returns nothing. */
  lemma {:induction false} SearchFromFirst(p: Pattern, s: string, i: nat)
    requires i <= |s|
    ensures var r := SearchFrom(p, s, i);
      forall a, b :: i <= a && (r.None? || a < r.value.0) ==> !MatchAt(p, s, a, b)
    decreases |s| - i
  {
    if i < |s| {
      MatchStartsAtIff(p, s, i);
      if !MatchStartsAt(p, s, i) {
        SearchFromFirst(p, s, i + 1);
      }
    }
  }

  /** SearchFrom finds the leftmost match at or after `i`, and finds
      nothing exactly when there is none. */
  lemma SearchFromIsLeftmost(p: Pattern, s: string, i: nat)
    requires i <= |s|
    ensures var r := SearchFrom(p, s, i);
      && (r.Some? ==> MatchAt(p, s, r.value.0, r.value.1))
      && (r.Some? ==> forall a, b :: i <= a < r.value.0 ==> !MatchAt(p, s, a, b))
      && (r.None? ==> forall a, b :: i <= a ==> !MatchAt(p, s, a, b))
  {
    SearchFromSound(p, s, i);
    SearchFromFirst(p, s, i);
  }

  /** `re.search(p, s).group(0)`, or None when there is no match. */
  function Search(p: Pattern, s: string): Option<string> {
    match SearchFrom(p, s, 0)
    case Some((i, j)) => Some(s[i..j])
    case None => None
  }

  /** `bool(re.search(p, s))` */
  function Found(p: Pattern, s: string): bool {
    SearchFrom(p, s, 0).Some?
  }

  /** Search succeeds exactly when the pattern occurs somewhere in the text. */
  lemma FoundIffOccurs(p: Pattern, s: string)
    ensures Found(p, s) <==> Occurs(p, s)
    ensures Found(p, s) <==> Search(p, s).Some?
  {
    SearchFromIsLeftmost(p, s, 0);
    var r := SearchFrom(p, s, 0);
    if r.Some? {
      assert MatchAt(p, s, r.value.0, r.value.1);
    }
  }

  /** What Search returns is the leftmost match, and it has the pattern's shape. */
  lemma SearchIsLeftmostMatch(p: Pattern, s: string)
    requires Search(p, s).Some?
    ensures exists i, j :: MatchAt(p, s, i, j) && s[i..j] == Search(p, s).value
                        && forall a, b :: 0 <= a < i ==> !MatchAt(p, s, a, b)
    ensures Shape(p, Search(p, s).value)
  {
    SearchFromIsLeftmost(p, s, 0);
    var r := SearchFrom(p, s, 0).value;
    assert MatchAt(p, s, r.0, r.1);
  }

  lemma LowerKeepsClasses(c: char)
    ensures IsDigit(LowerChar(c)) <==> IsDigit(c)
    ensures IsLetter(LowerChar(c)) <==> IsLetter(c)
    ensures IsAlnum(LowerChar(c)) <==> IsAlnum(c)
    ensures IsWordChar(LowerChar(c)) <==> IsWordChar(c)
  {
  }

  lemma LowerKeepsShape(p: Pattern, w: string)
    ensures Shape(p, Lower(w)) <==> Shape(p, w)
  {
    forall k | 0 <= k < |w| ensures IsDigit(Lower(w)[k]) <==> IsDigit(w[k]) {
      LowerKeepsClasses(w[k]);
    }
    forall k | 0 <= k < |w| ensures IsAlnum(Lower(w)[k]) <==> IsAlnum(w[k]) {
      LowerKeepsClasses(w[k]);
    }
    if |w| == 5 { LowerKeepsClasses(w[1]); }
  }

  lemma LowerKeepsMatch(p: Pattern, s: string, i: int, j: int)
    ensures MatchAt(p, Lower(s), i, j) <==> MatchAt(p, s, i, j)
  {
    if 0 <= i < j <= |s| {
      assert Lower(s)[i..j] == Lower(s[i..j]);
      LowerKeepsShape(p, s[i..j]);
      if i > 0 { LowerKeepsClasses(s[i - 1]); }
      if j < |s| { LowerKeepsClasses(s[j]); }
    }
  }

  /** Lower-casing the text does not change where a pattern occurs: every
      pattern here is case-insensitive. */
  lemma LowerKeepsOccurs(p: Pattern, s: string)
    ensures Occurs(p, Lower(s)) <==> Occurs(p, s)
  {
    if Occurs(p, s) {
      var i, j :| MatchAt(p, s, i, j);
      LowerKeepsMatch(p, s, i, j);
    }
    if Occurs(p, Lower(s)) {
      var i, j :| MatchAt(p, Lower(s), i, j);
      LowerKeepsMatch(p, s, i, j);
    }
  }

  /** A text that is itself one whole match is found, in full. */
  lemma WholeWordFound(p: Pattern, w: string)
    requires Shape(p, w)
    ensures Search(p, w) == Some(w)
  {
    ShapeIsWord(p, w);
    assert MatchAt(p, w, 0, |w|);
    SearchFromIsLeftmost(p, w, 0);
    var r := SearchFrom(p, w, 0);
    assert r.Some? && r.value.0 == 0;
    MatchEndsAtWordEnd(p, w, 0);
    assert w[0..|w|] == w;
  }

  /** A text made of digits only never contains a code of shape digit-letter-3 digits. */
  lemma DigitsHaveNoCode(s: string)
    requires AllDigits(s)
    ensures !Occurs(CodeShape, s)
  {
    forall i, j ensures !MatchAt(CodeShape, s, i, j) {
      if 0 <= i < j <= |s| && j - i == 5 {
        assert s[i..j][1] == s[i + 1];
      }
    }
  }

  /** A code of shape digit-letter-3 digits never matches a digit run. */
  lemma CodeIsNoDigitRun(w: string, lo: nat, hi: nat)
    requires Shape(CodeShape, w)
    ensures !Shape(DigitRun(lo, hi), w)
  {
  }
}
