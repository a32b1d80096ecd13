/**
 * `normalizeText` of backend/server.js: lower-case, delete every character
 * outside `[\w\s.]`, collapse each whitespace run to one space, trim.
 */
module TextNormalizer {
  import opened Wrappers
  import opened JsString

  /** The characters that survive `replace(/[^\w\s.]/g, '')`. */
  predicate IsKept(c: char)
  {
    IsWordChar(c) || IsSpace(c) || c == '.'
  }

  /** The non-space characters a normalised string may contain. */
  predicate IsNormalChar(c: char)
  {
    IsAsciiLower(c) || IsDigit(c) || c == '_' || c == '.'
  }

  /** `replace(/[^\w\s.]/g, '')`. */
  function KeepWordSpaceDot(s: string): (r: string)
    ensures |r| <= |s|
    ensures forall i :: 0 <= i < |r| ==> IsKept(r[i])
    ensures (forall i :: 0 <= i < |s| ==> !IsAsciiUpper(s[i])) ==> forall i :: 0 <= i < |r| ==> !IsAsciiUpper(r[i])
  {
    if s == [] then []
    else if IsKept(s[0]) then [s[0]] + KeepWordSpaceDot(s[1..])
    else KeepWordSpaceDot(s[1..])
  }

  /** Never two spaces in a row. */
  ghost predicate NoDoubleSpace(r: string)
  {
    forall i, j :: 0 <= i && j == i + 1 && j < |r| ==> r[i] != ' ' || r[j] != ' '
  }

  /** No whitespace other than single spaces, and never two in a row. */
  ghost predicate SingleSpaced(r: string)
  {
    (forall i :: 0 <= i < |r| ==> IsSpace(r[i]) ==> r[i] == ' ') && NoDoubleSpace(r)
  }

  /** `replace(/\s+/g, ' ')`. */
  function CollapseSpaces(s: string): (r: string)
    ensures |r| <= |s|
    ensures s != [] ==> r != [] && r[0] == if IsSpace(s[0]) then ' ' else s[0]
    decreases |s|
  {
    if s == [] then []
    else if IsSpace(s[0]) then [' '] + CollapseSpaces(TrimStart(s[1..]))
    else [s[0]] + CollapseSpaces(s[1..])
  }

  /** What CollapseSpaces goes on with after the first character of s. */
  function CollapseRest(s: string): (rest: string)
    requires s != []
    ensures |rest| < |s| && rest == s[|s| - |rest|..]
  {
    if IsSpace(s[0]) then TrimStart(s[1..]) else s[1..]
  }

  lemma CollapseStep(s: string)
    requires s != []
    ensures CollapseSpaces(s) == [if IsSpace(s[0]) then ' ' else s[0]] + CollapseSpaces(CollapseRest(s))
  {
  }

  /** Every whitespace run becomes one space. */
  lemma {:induction false} CollapseSingleSpaced(s: string)
    ensures SingleSpaced(CollapseSpaces(s))
    decreases |s|
  {
    if s != [] {
      var rest := CollapseRest(s);
      CollapseSingleSpaced(rest);
      CollapseStep(s);
      var r, t := CollapseSpaces(s), CollapseSpaces(rest);
      forall i | 0 <= i < |r|
        ensures IsSpace(r[i]) ==> r[i] == ' '
      {
        if i > 0 {
          assert r[i] == t[i - 1];
        }
      }
      forall i | 0 <= i < |r| - 1
        ensures r[i] == ' ' ==> r[i + 1] != ' '
      {
        assert r[i + 1] == t[i];
        if i > 0 {
          assert r[i] == t[i - 1];
        } else if IsSpace(s[0]) {
          assert rest != [] && !IsSpace(rest[0]);
        }
      }
    }
  }

  /** Collapsing introduces no characters beyond the space. */
  lemma {:induction false} CollapseAlphabet(s: string)
    requires forall i :: 0 <= i < |s| ==> IsNormalChar(s[i]) || IsSpace(s[i])
    ensures forall i :: 0 <= i < |CollapseSpaces(s)| ==> IsNormalChar(CollapseSpaces(s)[i]) || CollapseSpaces(s)[i] == ' '
    decreases |s|
  {
    if s != [] {
      var rest := CollapseRest(s);
      forall i | 0 <= i < |rest|
        ensures IsNormalChar(rest[i]) || IsSpace(rest[i])
      {
        assert rest[i] == s[|s| - |rest| + i];
      }
      CollapseAlphabet(rest);
      CollapseStep(s);
      var r, t := CollapseSpaces(s), CollapseSpaces(rest);
      forall i | 0 <= i < |r|
        ensures IsNormalChar(r[i]) || r[i] == ' '
      {
        if i > 0 {
          assert r[i] == t[i - 1];
        }
      }
    }
  }

  /** Only normal characters and plain spaces. */
  ghost predicate NormalAlphabet(r: string)
  {
    forall i :: 0 <= i < |r| ==> IsNormalChar(r[i]) || r[i] == ' '
  }

  /** The shape of every string `normalizeText` returns. */
  ghost predicate Canonical(r: string)
  {
    NormalAlphabet(r) && NoDoubleSpace(r) && (r != [] ==> r[0] != ' ' && r[|r| - 1] != ' ')
  }

  lemma NormalNotSpace(c: char)
    requires IsNormalChar(c)
    ensures !IsSpace(c) && IsKept(c) && !IsAsciiUpper(c)
  {
  }

  /** A slice keeps the alphabet and the spacing of its string. */
  lemma SliceShape(s: string, o: nat, k: nat)
    requires o + k <= |s| && NoDoubleSpace(s) && NormalAlphabet(s)
    ensures NoDoubleSpace(s[o..o + k]) && NormalAlphabet(s[o..o + k])
  {
    var b := s[o..o + k];
    assert forall i :: 0 <= i < |b| ==> b[i] == s[o + i];
  }

  /** Trimming a single-spaced string over the normal alphabet leaves a canonical one. */
  lemma TrimCanonical(s: string)
    requires NoDoubleSpace(s) && NormalAlphabet(s)
    ensures Canonical(Trim(s)) && |Trim(s)| <= |s|
  {
    var o := TrimIsSlice(s);
    TrimEnds(s);
    SliceShape(s, o, |Trim(s)|);
  }

  /** `normalizeText(text)`; an absent or empty text gives the empty string. */
  function NormalizeText(text: Option<string>): (r: string)
    ensures Canonical(r)
    ensures |r| <= |TextOf(text)|
  {
    if IsFalsy(text) then ""
    else
      var kept := KeepWordSpaceDot(ToLowerCase(text.value));
      var collapsed := CollapseSpaces(kept);
      CollapseSingleSpaced(kept);
      CollapseAlphabet(kept);
      assert NoDoubleSpace(collapsed);
      TrimCanonical(collapsed);
      Trim(collapsed)
  }

  /** Deleting characters works piece by piece. */
  lemma {:induction false} KeepConcat(a: string, b: string)
    ensures KeepWordSpaceDot(a + b) == KeepWordSpaceDot(a) + KeepWordSpaceDot(b)
  {
    if a == [] {
      assert a + b == b;
    } else {
      assert (a + b)[1..] == a[1..] + b;
      KeepConcat(a[1..], b);
    }
  }

  lemma {:induction false} KeepFixed(s: string)
    requires forall i :: 0 <= i < |s| ==> IsKept(s[i])
    ensures KeepWordSpaceDot(s) == s
  {
    if s != [] {
      KeepFixed(s[1..]);
    }
  }

  lemma {:induction false} CollapseFixed(s: string)
    requires NoDoubleSpace(s) && NormalAlphabet(s)
    ensures CollapseSpaces(s) == s
  {
    if s != [] {
      var t := s[1..];
      assert NoDoubleSpace(t) && NormalAlphabet(t) by {
        assert forall i :: 0 <= i < |t| ==> t[i] == s[i + 1];
      }
      CollapseFixed(t);
      if s[0] == ' ' {
        if t != [] {
          assert t[0] == s[1] != ' ';
          NormalNotSpace(t[0]);
        }
        assert TrimStart(t) == t;
      } else {
        NormalNotSpace(s[0]);
      }
    }
  }

  lemma TrimFixed(s: string)
    requires s == [] || (!IsSpace(s[0]) && !IsSpace(s[|s| - 1]))
    ensures Trim(s) == s
  {
  }

  /** Collapsing whitespace never touches a non-space character. */
  lemma {:induction false} CollapseKeepsNonSpace(s: string)
    ensures RemoveSpaces(CollapseSpaces(s)) == RemoveSpaces(s)
    decreases |s|
  {
    if s != [] {
      var rest := CollapseRest(s);
      CollapseKeepsNonSpace(rest);
      CollapseStep(s);
      var c := if IsSpace(s[0]) then ' ' else s[0];
      RemoveSpacesConcat([c], CollapseSpaces(rest));
      assert s == [s[0]] + s[1..];
      RemoveSpacesConcat([s[0]], s[1..]);
      if IsSpace(s[0]) {
        RemoveSpacesTrimStart(s[1..]);
      }
    }
  }

  /** Collapsing works piece by piece when the cut does not fall inside a whitespace run. */
  lemma {:induction false} CollapseConcat(a: string, b: string)
    requires a == [] || !IsSpace(a[|a| - 1])
    ensures CollapseSpaces(a + b) == CollapseSpaces(a) + CollapseSpaces(b)
    decreases |a|
  {
    if a == [] {
      assert a + b == b;
    } else {
      var rest := CollapseRest(a);
      var c := if IsSpace(a[0]) then ' ' else a[0];
      var x, y := CollapseSpaces(rest), CollapseSpaces(b);
      var ab := a + b;
      CollapseRestConcat(a, b);
      CollapseConcat(rest, b);
      var restAb := CollapseRest(ab);
      assert restAb == rest + b;
      assert CollapseSpaces(restAb) == x + y;
      CollapseStep(a);
      assert CollapseSpaces(a) == [c] + x;
      CollapseStep(ab);
      assert CollapseSpaces(ab) == [c] + (x + y);
      ConsAssoc(c, x, y);
    }
  }

  lemma ConsAssoc(c: char, x: string, y: string)
    ensures [c] + (x + y) == ([c] + x) + y
  {
  }

  lemma CollapseRestConcat(a: string, b: string)
    requires a != [] && !IsSpace(a[|a| - 1])
    ensures CollapseRest(a + b) == CollapseRest(a) + b
    ensures (a + b)[0] == a[0]
    ensures CollapseRest(a) == [] || !IsSpace(CollapseRest(a)[|CollapseRest(a)| - 1])
  {
    assert (a + b)[0] == a[0];
    assert (a + b)[1..] == a[1..] + b;
    if IsSpace(a[0]) {
      TrimStartConcat(a[1..], b);
    }
  }

  /** A whitespace run, of any length and kind, becomes one plain space. */
  lemma CollapseRun(w: string, b: string)
    requires w != [] && forall k :: 0 <= k < |w| ==> IsSpace(w[k])
    requires b == [] || !IsSpace(b[0])
    ensures CollapseSpaces(w + b) == [' '] + CollapseSpaces(b)
  {
    assert (w + b)[0] == w[0];
    assert (w + b)[1..] == w[1..] + b;
    TrimStartRun(w[1..], b);
  }

  /** Each step of normalisation leaves a canonical string alone. */
  lemma CanonicalSteps(s: string)
    requires Canonical(s)
    ensures ToLowerCase(s) == s && KeepWordSpaceDot(s) == s && CollapseSpaces(s) == s && Trim(s) == s
  {
    forall i | 0 <= i < |s|
      ensures IsKept(s[i]) && !IsAsciiUpper(s[i])
    {
      if s[i] != ' ' {
        NormalNotSpace(s[i]);
      }
    }
    if s != "" {
      NormalNotSpace(s[0]);
      NormalNotSpace(s[|s| - 1]);
    }
    assert ToLowerCase(s) == s by { LowerCaseFixed(s); }
    assert KeepWordSpaceDot(s) == s by { KeepFixed(s); }
    assert CollapseSpaces(s) == s by { CollapseFixed(s); }
    assert Trim(s) == s by { TrimFixed(s); }
  }

  /** A canonical string is left unchanged by normalisation. */
  lemma CanonicalIsFixed(s: string)
    requires Canonical(s)
    ensures NormalizeText(Some(s)) == s
  {
    if s != "" {
      CanonicalSteps(s);
    }
  }

  /** The strings `normalizeText` leaves alone are exactly the canonical ones. */
  lemma FixedPointIff(s: string)
    ensures NormalizeText(Some(s)) == s <==> Canonical(s)
  {
    if Canonical(s) {
      CanonicalIsFixed(s);
    }
  }

  /** Normalising twice is the same as normalising once. */
  lemma NormalizeIdempotent(text: Option<string>)
    ensures NormalizeText(Some(NormalizeText(text))) == NormalizeText(text)
  {
    CanonicalIsFixed(NormalizeText(text));
  }

  /** normalizeText, one replacement at a time. */
  lemma NormalizeSteps(text: string, lower: string, kept: string, collapsed: string, n: string)
    requires text != "" && ToLowerCase(text) == lower && KeepWordSpaceDot(lower) == kept
    requires CollapseSpaces(kept) == collapsed && Trim(collapsed) == n
    ensures NormalizeText(Some(text)) == n
  {
    assert NormalizeText(Some(text)) == Trim(CollapseSpaces(KeepWordSpaceDot(ToLowerCase(text))));
  }

  /** A text whose deletion step already yields a canonical string normalises to it. */
  lemma CanonicalAfterKeep(text: string, lower: string, n: string)
    requires text != "" && ToLowerCase(text) == lower && KeepWordSpaceDot(lower) == n && Canonical(n)
    ensures NormalizeText(Some(text)) == n
  {
    CanonicalSteps(n);
    NormalizeSteps(text, lower, n, n, n);
  }

  /** A text whose lower-case form is canonical normalises to it. */
  lemma CanonicalAfterLower(text: string, n: string)
    requires text != "" && ToLowerCase(text) == n && Canonical(n)
    ensures NormalizeText(Some(text)) == n
  {
    CanonicalSteps(n);
    CanonicalAfterKeep(text, n, n);
  }

  /** Normalisation keeps exactly the non-space characters the deletion step keeps. */
  lemma NormalizeKeepsNonSpace(t: string)
    ensures RemoveSpaces(NormalizeText(Some(t))) == RemoveSpaces(KeepWordSpaceDot(ToLowerCase(t)))
  {
    if t != "" {
      var kept := KeepWordSpaceDot(ToLowerCase(t));
      CollapseKeepsNonSpace(kept);
      RemoveSpacesTrim(CollapseSpaces(kept));
    }
  }

  /** A non-empty run of whitespace. */
  ghost predicate Blank(w: string)
  {
    w != [] && forall k :: 0 <= k < |w| ==> IsSpace(w[k])
  }

  /** A non-empty run of normal characters. */
  ghost predicate Word(a: string)
  {
    a != [] && forall k :: 0 <= k < |a| ==> IsNormalChar(a[k])
  }

  lemma WordShape(a: string)
    requires Word(a)
    ensures !IsSpace(a[0]) && !IsSpace(a[|a| - 1])
    ensures KeepWordSpaceDot(a) == a && CollapseSpaces(a) == a
  {
    NormalNotSpace(a[0]);
    NormalNotSpace(a[|a| - 1]);
    forall k | 0 <= k < |a|
      ensures IsKept(a[k]) && a[k] != ' '
    {
      NormalNotSpace(a[k]);
    }
    KeepFixed(a);
    CollapseFixed(a);
  }

  lemma BlankKept(w: string)
    requires Blank(w)
    ensures KeepWordSpaceDot(w) == w
  {
    KeepFixed(w);
  }

  /**
   * Two words with whitespace before, between and after them normalise to
   * the two words joined by one space.
   */
  lemma NormalizeSpacedWords(text: string, w1: string, a: string, w2: string, b: string, w3: string)
    requires ToLowerCase(text) == w1 + a + w2 + b + w3
    requires Blank(w1) && Word(a) && Blank(w2) && Word(b) && Blank(w3)
    ensures NormalizeText(Some(text)) == a + [' '] + b
  {
    var lower := w1 + (a + (w2 + (b + w3)));
    assert ToLowerCase(text) == lower;
    assert text != "" by { assert |lower| > 0; }
    SpacedKept(w1, a, w2, b, w3);
    var collapsed := [' '] + (a + ([' '] + (b + [' '])));
    SpacedCollapsed(w1, a, w2, b, w3);
    SpacedTrimmed(a, b);
    NormalizeSteps(text, lower, lower, collapsed, a + [' '] + b);
  }

  lemma SpacedKept(w1: string, a: string, w2: string, b: string, w3: string)
    requires Blank(w1) && Word(a) && Blank(w2) && Word(b) && Blank(w3)
    ensures KeepWordSpaceDot(w1 + (a + (w2 + (b + w3)))) == w1 + (a + (w2 + (b + w3)))
  {
    WordShape(a);
    WordShape(b);
    BlankKept(w1);
    BlankKept(w2);
    BlankKept(w3);
    KeepConcat(b, w3);
    KeepConcat(w2, b + w3);
    KeepConcat(a, w2 + (b + w3));
    KeepConcat(w1, a + (w2 + (b + w3)));
  }

  lemma SpacedCollapsed(w1: string, a: string, w2: string, b: string, w3: string)
    requires Blank(w1) && Word(a) && Blank(w2) && Word(b) && Blank(w3)
    ensures CollapseSpaces(w1 + (a + (w2 + (b + w3)))) == [' '] + (a + ([' '] + (b + [' '])))
  {
    WordShape(a);
    WordShape(b);
    var tail3 := b + w3;
    var tail2 := w2 + tail3;
    var tail1 := a + tail2;
    assert w3 + [] == w3;
    CollapseRun(w3, []);
    CollapseConcat(b, w3);
    assert CollapseSpaces(tail3) == b + [' '];
    assert tail3[0] == b[0];
    CollapseRun(w2, tail3);
    CollapseConcat(a, tail2);
    assert CollapseSpaces(tail1) == a + ([' '] + (b + [' ']));
    assert tail1[0] == a[0];
    CollapseRun(w1, tail1);
  }

  lemma SpacedTrimmed(a: string, b: string)
    requires Word(a) && Word(b)
    ensures Trim([' '] + (a + ([' '] + (b + [' '])))) == a + [' '] + b
  {
    NormalNotSpace(a[0]);
    NormalNotSpace(b[|b| - 1]);
    var n := a + [' '] + b;
    assert n[0] == a[0] && n[|n| - 1] == b[|b| - 1];
    Regroup(a, b);
    TrimPadded(n);
  }

  lemma Regroup(a: string, b: string)
    ensures a + ([' '] + (b + [' '])) == (a + [' '] + b) + [' ']
  {
  }

  /** Trimming removes one space at each end of a text that has no whitespace at its ends. */
  lemma TrimPadded(n: string)
    requires n != [] && !IsSpace(n[0]) && !IsSpace(n[|n| - 1])
    ensures Trim([' '] + (n + [' '])) == n
  {
    var padded := [' '] + (n + [' ']);
    assert padded[1..] == n + [' '];
    assert (n + [' '])[0] == n[0];
    assert TrimStart(padded) == n + [' '];
    assert (n + [' '])[..|n|] == n;
  }

  /** A sample with whitespace at both ends and a long run inside. */
  lemma NormalizeSpacedOldTom(s: string, n: string)
    requires s == "  Old   Tom " && n == "old tom"
    ensures NormalizeText(Some(s)) == n
  {
    var w1, a, w2, b, w3 := "  ", "old", "   ", "tom", " ";
    LowerSpacedOldTom(s, w1, a, w2, b, w3);
    SpacedOldTomPieces(w1, a, w2, b, w3);
    NormalizeSpacedWords(s, w1, a, w2, b, w3);
    JoinOldTom(a, b, n);
  }

  lemma LowerSpacedOldTom(s: string, w1: string, a: string, w2: string, b: string, w3: string)
    requires s == "  Old   Tom " && w1 == "  " && a == "old" && w2 == "   " && b == "tom" && w3 == " "
    ensures ToLowerCase(s) == w1 + a + w2 + b + w3
  {
  }

  lemma SpacedOldTomPieces(w1: string, a: string, w2: string, b: string, w3: string)
    requires w1 == "  " && a == "old" && w2 == "   " && b == "tom" && w3 == " "
    ensures Blank(w1) && Word(a) && Blank(w2) && Word(b) && Blank(w3)
  {
  }

  lemma JoinOldTom(a: string, b: string, n: string)
    requires a == "old" && b == "tom" && n == "old tom"
    ensures a + [' '] + b == n
  {
  }

  /**
   * The two sample brand names, normalised. The examples are stated over
   * variables, so that the verifier does not evaluate the literals character
   * by character more often than needed.
   */
  lemma NormalizeOldTom(s: string, n: string)
    requires s == "Old Tom Distillery" && n == "old tom distillery"
    ensures NormalizeText(Some(s)) == n
  {
    LowerOldTom(s, n);
    CanonicalOldTom(n);
    CanonicalAfterLower(s, n);
  }

  lemma LowerOldTom(s: string, n: string)
    requires s == "Old Tom Distillery" && n == "old tom distillery"
    ensures ToLowerCase(s) == n
  {
  }

  lemma CanonicalOldTom(n: string)
    requires n == "old tom distillery"
    ensures Canonical(n)
  {
  }

  lemma NormalizeToms(s: string, n: string)
    requires s == "Tom's Distillery" && n == "toms distillery"
    ensures NormalizeText(Some(s)) == n
  {
    var a, b, c := "tom", "'", "s distillery";
    LowerToms(s, a, b, c);
    KeepToms(a, b, c);
    JoinToms(a, c, n);
    CanonicalToms(n);
    CanonicalAfterKeep(s, a + b + c, n);
  }

  lemma LowerToms(s: string, a: string, b: string, c: string)
    requires s == "Tom's Distillery" && a == "tom" && b == "'" && c == "s distillery"
    ensures ToLowerCase(s) == a + b + c
  {
  }

  lemma KeepToms(a: string, b: string, c: string)
    requires a == "tom" && b == "'" && c == "s distillery"
    ensures KeepWordSpaceDot(a + b + c) == a + c
  {
    AllKeptTom(a);
    AllKeptSDistillery(c);
    KeepDropOne(a, b, c);
  }

  lemma AllKeptTom(a: string)
    requires a == "tom"
    ensures forall i :: 0 <= i < |a| ==> IsKept(a[i])
  {
  }

  lemma AllKeptSDistillery(c: string)
    requires c == "s distillery"
    ensures forall i :: 0 <= i < |c| ==> IsKept(c[i])
  {
  }

  lemma JoinToms(a: string, c: string, n: string)
    requires a == "tom" && c == "s distillery" && n == "toms distillery"
    ensures a + c == n
  {
  }

  lemma CanonicalToms(n: string)
    requires n == "toms distillery"
    ensures Canonical(n)
  {
  }

  /** Deleting one character outside the class between two texts inside it. */
  lemma KeepDropOne(a: string, b: string, c: string)
    requires forall i :: 0 <= i < |a| ==> IsKept(a[i])
    requires forall i :: 0 <= i < |c| ==> IsKept(c[i])
    requires |b| == 1 && !IsKept(b[0])
    ensures KeepWordSpaceDot(a + b + c) == a + c
  {
    assert a + b + c == a + (b + c);
    KeepConcat(a, b + c);
    KeepConcat(b, c);
    KeepFixed(a);
    KeepFixed(c);
  }
}
