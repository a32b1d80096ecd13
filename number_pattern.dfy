/**
 * The regular expressions of the label verifier: `/(\d+\.?\d*)unit/` (with
 * `unit` one of the volume unit literals, or empty for the ABV pattern) applied
 * with `String.prototype.match`, i.e. the leftmost match, and `parseFloat` of
 * the captured group.
 */
module NumberPattern {
  import opened Wrappers
  import opened JsString
  import opened Decimal

  /**
   * A captured `\d+\.?\d*`: whole-number digits in [start, wholeEnd), and when
   * end > wholeEnd a dot at wholeEnd followed by fraction digits up to end.
   */
  datatype Token = Token(start: nat, wholeEnd: nat, end: nat)

  /** The greedy `\d+\.?\d*` starting at a digit. */
  function TokenAt(s: string, p: nat): (t: Token)
    requires p < |s| && IsDigit(s[p])
    ensures t.start == p < t.wholeEnd <= t.end <= |s|
    ensures forall k :: p <= k < t.wholeEnd ==> IsDigit(s[k])
    ensures t.wholeEnd == |s| || !IsDigit(s[t.wholeEnd])
    ensures t.end > t.wholeEnd <==> t.wholeEnd < |s| && s[t.wholeEnd] == '.'
    ensures t.end > t.wholeEnd ==> forall k :: t.wholeEnd < k < t.end ==> IsDigit(s[k])
    ensures t.end == |s| || !IsDigit(s[t.end])
  {
    var w := DigitsEnd(s, p);
    if w < |s| && s[w] == '.' then Token(p, w, DigitsEnd(s, w + 1)) else Token(p, w, w)
  }

  /** The literal `u` occurs in `s` at index `i`. */
  predicate LiteralAt(s: string, i: nat, u: string)
  {
    i + |u| <= |s| && s[i..i + |u|] == u
  }

  /** The pattern `(\d+\.?\d*)u` matches `s` starting at index `p`. */
  predicate MatchesAt(s: string, p: nat, u: string)
  {
    p < |s| && IsDigit(s[p]) && LiteralAt(s, TokenAt(s, p).end, u)
  }

  /** `s.match(/(\d+\.?\d*)u/)` searching from index `from`: the leftmost match, if any. */
  function Search(s: string, u: string, from: nat): (m: Option<Token>)
    requires from <= |s|
    ensures m.Some? ==> from <= m.value.start && MatchesAt(s, m.value.start, u) && m.value == TokenAt(s, m.value.start)
    ensures m.Some? ==> forall q :: from <= q < m.value.start ==> !MatchesAt(s, q, u)
    ensures m.None? ==> forall q :: from <= q < |s| ==> !MatchesAt(s, q, u)
    decreases |s| - from
  {
    if from == |s| then None
    else if MatchesAt(s, from, u) then Some(TokenAt(s, from))
    else Search(s, u, from + 1)
  }

  /**
   * One way the backtracking regular-expression engine can split `s[p..]`:
   * digits [p, a), an optional dot [a, b), digits [b, c), and the literal at c.
   */
  ghost predicate Split(s: string, u: string, p: nat, a: nat, b: nat, c: nat)
  {
    p < a <= b <= c <= |s|
    && (forall k :: p <= k < a ==> IsDigit(s[k]))
    && (b == a || (b == a + 1 && s[a] == '.'))
    && (forall k :: b <= k < c ==> IsDigit(s[k]))
    && LiteralAt(s, c, u)
  }

  /**
   * For a unit literal that starts with neither a digit nor a dot, backtracking
   * cannot find any other split than the greedy one: the pattern matches at p
   * exactly when MatchesAt says so, and it captures exactly TokenAt.
   */
  lemma SplitIsGreedy(s: string, u: string, p: nat, a: nat, b: nat, c: nat)
    requires u != [] && !IsDigit(u[0]) && u[0] != '.'
    requires Split(s, u, p, a, b, c)
    ensures MatchesAt(s, p, u)
    ensures TokenAt(s, p) == if b == a then Token(p, c, c) else Token(p, a, c)
  {
    assert s[c] == u[0];
    if b == a {
      DigitsEndAt(s, p, c);
    } else {
      DigitsEndAt(s, p, a);
      DigitsEndAt(s, a + 1, c);
    }
  }

  lemma GreedyIsSplit(s: string, u: string, p: nat)
    requires MatchesAt(s, p, u)
    ensures var t := TokenAt(s, p);
      Split(s, u, p, t.wholeEnd, if t.end > t.wholeEnd then t.wholeEnd + 1 else t.wholeEnd, t.end)
  {
  }

  /** `parseFloat` of a captured `\d+\.?\d*` group. */
  function ParseFloat(text: string): (v: real)
    ensures v >= 0.0
  {
    var w := DigitsEnd(text, 0);
    DigitsValue(text[..w]) as real
      + if w < |text| && text[w] == '.' then FractionValue(text[w + 1..DigitsEnd(text, w + 1)]) else 0.0
  }

  /** The text of a token's capture group. */
  function Captured(s: string, t: Token): string
    requires t.start <= t.end <= |s|
  {
    s[t.start..t.end]
  }

  /** With an empty unit literal the pattern matches at exactly the digits. */
  lemma EmptyUnitMatchesDigits(s: string)
    ensures forall p :: 0 <= p < |s| ==> (MatchesAt(s, p, "") <==> IsDigit(s[p]))
  {
    forall p | 0 <= p < |s| && IsDigit(s[p])
      ensures MatchesAt(s, p, "")
    {
      var e := TokenAt(s, p).end;
      assert s[e..e] == "";
    }
  }

  /** No occurrence of `c` in `s[i..]` comes right after a digit or a dot. */
  predicate NeverAfterNumber(s: string, c: char, i: nat)
    decreases |s| - i
  {
    i >= |s| || ((i == 0 || s[i] != c || !(IsDigit(s[i - 1]) || s[i - 1] == '.')) && NeverAfterNumber(s, c, i + 1))
  }

  lemma {:induction false} NeverAfterNumberAt(s: string, c: char, i: nat, j: nat)
    requires NeverAfterNumber(s, c, i) && i <= j < |s| && 0 < j
    ensures IsDigit(s[j - 1]) || s[j - 1] == '.' ==> s[j] != c
    decreases j - i
  {
    if i < j {
      NeverAfterNumberAt(s, c, i + 1, j);
    }
  }

  /** A unit literal whose first character never follows a digit or a dot does not match. */
  lemma NoMatchUnlessAfterNumber(s: string, u: string)
    requires u != [] && NeverAfterNumber(s, u[0], 0)
    ensures Search(s, u, 0).None?
  {
    forall p | 0 <= p < |s| && IsDigit(s[p])
      ensures !MatchesAt(s, p, u)
    {
      var t := TokenAt(s, p);
      assert IsDigit(s[t.end - 1]) || s[t.end - 1] == '.';
      if t.end < |s| {
        NeverAfterNumberAt(s, u[0], 0, t.end);
        if t.end + |u| <= |s| {
          assert s[t.end..t.end + |u|][0] == s[t.end];
        }
      }
    }
  }

  /** The match Search reports is the one at the first position where the pattern matches. */
  lemma SearchFindsAt(s: string, u: string, p: nat)
    requires MatchesAt(s, p, u)
    requires forall q :: 0 <= q < p ==> !MatchesAt(s, q, u)
    ensures Search(s, u, 0) == Some(TokenAt(s, p))
  {
  }

  /** The token at p, from where its digit runs end. */
  lemma TokenIs(s: string, p: nat, w: nat, e: nat)
    requires p < |s| && IsDigit(s[p]) && p <= w <= |s| && DigitsEnd(s, p) == w
    requires if w < |s| && s[w] == '.' then w + 1 <= |s| && DigitsEnd(s, w + 1) == e else e == w
    ensures TokenAt(s, p) == Token(p, w, e)
  {
  }

  /** parseFloat of a digit string. */
  lemma ParseWhole(text: string)
    requires DigitsEnd(text, 0) == |text|
    ensures ParseFloat(text) == DigitsValue(text) as real
  {
    assert text[..|text|] == text;
  }

  /** parseFloat of digits, a dot and digits. */
  lemma ParseDecimal(text: string, w: nat)
    requires w < |text| && DigitsEnd(text, 0) == w && text[w] == '.' && DigitsEnd(text, w + 1) == |text|
    ensures ParseFloat(text) == DigitsValue(text[..w]) as real + FractionValue(text[w + 1..])
  {
    assert text[w + 1..DigitsEnd(text, w + 1)] == text[w + 1..];
  }
}
