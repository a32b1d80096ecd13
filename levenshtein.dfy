/**
 * `levenshteinDistance(str1, str2)` of backend/server.js: a
 * (|str2| + 1) x (|str1| + 1) matrix whose entry [i, j] is the distance
 * between the first i characters of str2 and the first j characters of str1.
 */
module Levenshtein {

  function Min3(a: int, b: int, c: int): (m: int)
    ensures m <= a && m <= b && m <= c
    ensures m == a || m == b || m == c
  {
    if a <= b && a <= c then a else if b <= c then b else c
  }

  function Max(a: int, b: int): int
  {
    if a < b then b else a
  }

  function Abs(x: int): nat
  {
    if x < 0 then -x else x
  }

  /**
   * The recurrence the matrix is filled with: the distance between the first
   * j characters of s1 and the first i characters of s2.
   */
  function Dist(s1: string, s2: string, j: nat, i: nat): nat
    requires j <= |s1| && i <= |s2|
    decreases i + j
  {
    if i == 0 then j
    else if j == 0 then i
    else if s2[i - 1] == s1[j - 1] then Dist(s1, s2, j - 1, i - 1)
    else Min3(Dist(s1, s2, j - 1, i - 1) + 1, Dist(s1, s2, j - 1, i) + 1, Dist(s1, s2, j, i - 1) + 1)
  }

  /** The edit distance between two whole strings. */
  function EditDistance(s1: string, s2: string): nat
  {
    Dist(s1, s2, |s1|, |s2|)
  }

  /** levenshteinDistance(str1, str2), filling an array in nested loops. */
  method LevenshteinDistance(str1: string, str2: string) returns (distance: int)
    ensures distance == EditDistance(str1, str2)
  {
    var matrix := new int[|str2| + 1, |str1| + 1];
    for i := 0 to |str2| + 1
      invariant forall r :: 0 <= r < i ==> matrix[r, 0] == r
    {
      matrix[i, 0] := i;
    }
    for j := 0 to |str1| + 1
      invariant forall r :: 0 <= r <= |str2| ==> matrix[r, 0] == r
      invariant forall c :: 0 <= c < j ==> matrix[0, c] == c
    {
      matrix[0, j] := j;
    }
    for i := 1 to |str2| + 1
      invariant forall r, c {:trigger matrix[r, c]} :: 0 <= r < i && 0 <= c <= |str1| ==> matrix[r, c] == Dist(str1, str2, c, r)
      invariant forall r :: i <= r <= |str2| ==> matrix[r, 0] == r
    {
      for j := 1 to |str1| + 1
        invariant forall r, c {:trigger matrix[r, c]} :: 0 <= r < i && 0 <= c <= |str1| ==> matrix[r, c] == Dist(str1, str2, c, r)
        invariant forall c {:trigger matrix[i, c]} :: 0 <= c < j ==> matrix[i, c] == Dist(str1, str2, c, i)
        invariant forall r :: i < r <= |str2| ==> matrix[r, 0] == r
      {
        var entry;
        if str2[i - 1] == str1[j - 1] {
          entry := matrix[i - 1, j - 1];
        } else {
          entry := Min3(matrix[i - 1, j - 1] + 1, matrix[i, j - 1] + 1, matrix[i - 1, j] + 1);
        }
        assert entry == Dist(str1, str2, j, i);
        matrix[i, j] := entry;
      }
    }
    distance := matrix[|str2|, |str1|];
  }

  /** The distance does not depend on which string names the rows. */
  predicate SymmetricAt(s1: string, s2: string, j: nat, i: nat)
    requires j <= |s1| && i <= |s2|
  {
    Dist(s1, s2, j, i) == Dist(s2, s1, i, j)
  }

  lemma {:induction false} DistSymmetric(s1: string, s2: string, j: nat, i: nat)
    requires j <= |s1| && i <= |s2|
    ensures SymmetricAt(s1, s2, j, i)
    decreases i + j
  {
    if i > 0 && j > 0 {
      DistSymmetric(s1, s2, j - 1, i - 1);
      DistSymmetric(s1, s2, j - 1, i);
      DistSymmetric(s1, s2, j, i - 1);
      SymmetricStep(s1, s2, j, i);
    }
  }

  /** Symmetry of the three neighbours carries over to the entry they determine. */
  lemma SymmetricStep(s1: string, s2: string, j: nat, i: nat)
    requires 0 < j <= |s1| && 0 < i <= |s2|
    requires SymmetricAt(s1, s2, j - 1, i - 1) && SymmetricAt(s1, s2, j - 1, i) && SymmetricAt(s1, s2, j, i - 1)
    ensures SymmetricAt(s1, s2, j, i)
  {
    var diag, left, up := Dist(s1, s2, j - 1, i - 1), Dist(s1, s2, j - 1, i), Dist(s1, s2, j, i - 1);
    Min3Swap(diag + 1, left + 1, up + 1);
  }

  lemma Min3Swap(a: int, b: int, c: int)
    ensures Min3(a, b, c) == Min3(a, c, b)
  {
  }

  lemma EditDistanceSymmetric(s1: string, s2: string)
    ensures EditDistance(s1, s2) == EditDistance(s2, s1)
  {
    DistSymmetric(s1, s2, |s1|, |s2|);
  }

  /** The distance between two prefixes is zero exactly when they are equal. */
  lemma {:induction false} DistZeroIff(s1: string, s2: string, j: nat, i: nat)
    requires j <= |s1| && i <= |s2|
    ensures Dist(s1, s2, j, i) == 0 <==> s1[..j] == s2[..i]
    decreases i + j
  {
    if i > 0 && j > 0 {
      assert s1[..j] == s1[..j - 1] + [s1[j - 1]];
      assert s2[..i] == s2[..i - 1] + [s2[i - 1]];
      if s2[i - 1] == s1[j - 1] {
        DistZeroIff(s1, s2, j - 1, i - 1);
      } else {
        assert j != i || s1[..j][j - 1] != s2[..i][j - 1];
      }
    }
  }

  /** The distance is zero exactly between equal strings. */
  lemma EditDistanceZeroIff(s1: string, s2: string)
    ensures EditDistance(s1, s2) == 0 <==> s1 == s2
  {
    DistZeroIff(s1, s2, |s1|, |s2|);
    assert s1[..|s1|] == s1 && s2[..|s2|] == s2;
  }

  /** The length difference is a lower bound of the distance between two prefixes. */
  predicate AtLeastGap(s1: string, s2: string, j: nat, i: nat)
    requires j <= |s1| && i <= |s2|
  {
    j - i <= Dist(s1, s2, j, i) && i - j <= Dist(s1, s2, j, i)
  }

  lemma {:induction false} DistAtLeastGap(s1: string, s2: string, j: nat, i: nat)
    requires j <= |s1| && i <= |s2|
    ensures AtLeastGap(s1, s2, j, i)
    decreases i + j
  {
    if i > 0 && j > 0 {
      DistAtLeastGap(s1, s2, j - 1, i - 1);
      DistAtLeastGap(s1, s2, j - 1, i);
      DistAtLeastGap(s1, s2, j, i - 1);
      GapStep(j, i, s2[i - 1] == s1[j - 1], Dist(s1, s2, j - 1, i - 1), Dist(s1, s2, j - 1, i), Dist(s1, s2, j, i - 1), Dist(s1, s2, j, i));
    }
  }

  /** One step of the recurrence keeps the length-difference bound of its neighbours. */
  lemma GapStep(j: int, i: int, same: bool, diag: int, left: int, up: int, entry: int)
    requires j - i <= diag && i - j <= diag
    requires j - 1 - i <= left && i - j + 1 <= left
    requires j - i + 1 <= up && i - 1 - j <= up
    requires entry == if same then diag else Min3(diag + 1, left + 1, up + 1)
    ensures j - i <= entry && i - j <= entry
  {
  }

  /** The longer length is an upper bound of the distance between two prefixes. */
  lemma {:induction false} DistAtMostLonger(s1: string, s2: string, j: nat, i: nat)
    requires j <= |s1| && i <= |s2|
    ensures Dist(s1, s2, j, i) <= Max(j, i)
    decreases i + j
  {
    if i > 0 && j > 0 {
      DistAtMostLonger(s1, s2, j - 1, i - 1);
      assert Dist(s1, s2, j, i) <= Dist(s1, s2, j - 1, i - 1) + 1;
    }
  }

  lemma EditDistanceBounds(s1: string, s2: string)
    ensures Abs(|s1| - |s2|) <= EditDistance(s1, s2) <= Max(|s1|, |s2|)
  {
    DistAtLeastGap(s1, s2, |s1|, |s2|);
    DistAtMostLonger(s1, s2, |s1|, |s2|);
  }
}
