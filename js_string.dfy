/**
 * The pieces of JavaScript string behaviour the label verifier relies on:
 * falsiness of a possibly missing string, the `\s`, `\w` and `\d` character
 * classes, `toLowerCase` restricted to ASCII, `replace(/\s+/g, '')` and `trim`.
 */
module JsString {
  import opened Wrappers

  /** `!x` for a field that is either absent (`undefined`/`null`) or a string. */
  predicate IsFalsy(x: Option<string>)
  {
    x.None? || x.value == ""
  }

  /** The string a possibly absent field contributes once it is known to be truthy. */
  function TextOf(x: Option<string>): string
  {
    if x.Some? then x.value else ""
  }

  predicate IsDigit(c: char)
  {
    '0' <= c <= '9'
  }

  predicate IsAsciiUpper(c: char)
  {
    'A' <= c <= 'Z'
  }

  predicate IsAsciiLower(c: char)
  {
    'a' <= c <= 'z'
  }

  /** `\w` of a regular expression without the `u` flag. */
  predicate IsWordChar(c: char)
  {
    IsAsciiLower(c) || IsAsciiUpper(c) || IsDigit(c) || c == '_'
  }

  /**
   * `\s`: the ECMAScript WhiteSpace and LineTerminator code points.
   * `String.prototype.trim` strips exactly the same set.
   */
  predicate IsSpace(c: char)
  {
    c == ' ' || ('\t' <= c <= '\r') || ('\U{00A0}' <= c && IsWideSpace(c))
  }

  /** The whitespace of `\s` outside ASCII. */
  predicate IsWideSpace(c: char)
  {
    c == '\U{00A0}' || c == '\U{1680}' || ('\U{2000}' <= c <= '\U{200A}')
    || c == '\U{2028}' || c == '\U{2029}' || c == '\U{202F}' || c == '\U{205F}'
    || c == '\U{3000}' || c == '\U{FEFF}'
  }

  function LowerChar(c: char): (r: char)
    ensures !IsAsciiUpper(r)
    ensures IsAsciiUpper(c) ==> IsAsciiLower(r) && r as int == c as int + 32
    ensures !IsAsciiUpper(c) ==> r == c
  {
    if IsAsciiUpper(c) then (c as int + 32) as char else c
  }

  /** `s.toLowerCase()` on the ASCII letters; every other character is kept as it is. */
  function ToLowerCase(s: string): (r: string)
    ensures |r| == |s|
    ensures forall i :: 0 <= i < |s| ==> r[i] == LowerChar(s[i])
  {
    seq(|s|, i requires 0 <= i < |s| => LowerChar(s[i]))
  }

  /** Lower-casing leaves a text without upper-case letters alone. */
  lemma LowerCaseFixed(s: string)
    requires forall i :: 0 <= i < |s| ==> !IsAsciiUpper(s[i])
    ensures ToLowerCase(s) == s
  {
  }

  /** `s.replace(/\s+/g, '')`: every whitespace character removed, the rest kept in order. */
  function RemoveSpaces(s: string): (r: string)
    ensures |r| <= |s|
    ensures forall i :: 0 <= i < |r| ==> !IsSpace(r[i])
    ensures (forall i :: 0 <= i < |s| ==> !IsSpace(s[i])) ==> r == s
  {
    if s == [] then []
    else if IsSpace(s[0]) then RemoveSpaces(s[1..])
    else [s[0]] + RemoveSpaces(s[1..])
  }

  /** Removing whitespace keeps only characters of the original. */
  lemma {:induction false} RemoveSpacesSubset(s: string, c: char)
    requires c in RemoveSpaces(s)
    ensures c in s
  {
    if s != [] && !IsSpace(s[0]) && c != s[0] {
      RemoveSpacesSubset(s[1..], c);
    } else if s != [] && IsSpace(s[0]) {
      RemoveSpacesSubset(s[1..], c);
    }
  }

  /** Removing whitespace works piece by piece. */
  lemma {:induction false} RemoveSpacesConcat(a: string, b: string)
    ensures RemoveSpaces(a + b) == RemoveSpaces(a) + RemoveSpaces(b)
  {
    if a == [] {
      assert a + b == b;
    } else {
      assert (a + b)[1..] == a[1..] + b;
      RemoveSpacesConcat(a[1..], b);
    }
  }

  /** Removing one whitespace character between two texts. */
  lemma RemoveSpaceBetween(a: string, c: char, b: string)
    requires IsSpace(c)
    ensures RemoveSpaces(a + [c] + b) == RemoveSpaces(a) + RemoveSpaces(b)
  {
    RemoveSpacesConcat(a + [c], b);
    RemoveSpacesConcat(a, [c]);
  }

  /** `s.trimStart()`: the suffix of `s` left after its leading whitespace. */
  function TrimStart(s: string): (r: string)
    ensures |r| <= |s| && r == s[|s| - |r|..]
    ensures r == [] || !IsSpace(r[0])
    ensures forall k :: 0 <= k < |s| - |r| ==> IsSpace(s[k])
  {
    if s != [] && IsSpace(s[0]) then TrimStart(s[1..]) else s
  }

  /** `s.trimEnd()`: the prefix of `s` left after its trailing whitespace. */
  function TrimEnd(s: string): (r: string)
    ensures |r| <= |s| && r == s[..|r|]
    ensures r == [] || !IsSpace(r[|r| - 1])
    ensures forall k :: |r| <= k < |s| ==> IsSpace(s[k])
  {
    if s != [] && IsSpace(s[|s| - 1]) then TrimEnd(s[..|s| - 1]) else s
  }

  /** `s.trim()`. */
  function Trim(s: string): (r: string)
  {
    TrimEnd(TrimStart(s))
  }

  /** A slice of a suffix is a slice of the whole. */
  lemma SliceOfSuffix(s: string, o: nat, k: nat)
    requires o + k <= |s|
    ensures s[o..][..k] == s[o..o + k]
  {
  }

  /** `trim` keeps a slice of its input. */
  lemma TrimIsSlice(s: string) returns (o: nat)
    ensures o + |Trim(s)| <= |s| && Trim(s) == s[o..o + |Trim(s)|]
  {
    var a := TrimStart(s);
    var b := TrimEnd(a);
    o := |s| - |a|;
    assert a == s[o..];
    assert b == a[..|b|];
    SliceOfSuffix(s, o, |b|);
  }

  /** What `trim` keeps neither starts nor ends with whitespace. */
  lemma TrimEnds(s: string)
    ensures Trim(s) != [] ==> !IsSpace(Trim(s)[0]) && !IsSpace(Trim(s)[|Trim(s)| - 1])
  {
    var a := TrimStart(s);
    var b := TrimEnd(a);
    if b != [] {
      assert b[0] == a[0];
    }
  }

  /** A text of whitespace only is removed entirely. */
  lemma {:induction false} RemoveSpacesAllSpace(w: string)
    requires forall k :: 0 <= k < |w| ==> IsSpace(w[k])
    ensures RemoveSpaces(w) == []
  {
    if w != [] {
      RemoveSpacesAllSpace(w[1..]);
    }
  }

  /** `trimStart` removes only whitespace. */
  lemma {:induction false} RemoveSpacesTrimStart(s: string)
    ensures RemoveSpaces(TrimStart(s)) == RemoveSpaces(s)
  {
    if s != [] && IsSpace(s[0]) {
      RemoveSpacesTrimStart(s[1..]);
    }
  }

  /** `trimEnd` removes only whitespace. */
  lemma RemoveSpacesTrimEnd(s: string)
    ensures RemoveSpaces(TrimEnd(s)) == RemoveSpaces(s)
  {
    var r := TrimEnd(s);
    var w := s[|r|..];
    assert s == r + w;
    RemoveSpacesConcat(r, w);
    RemoveSpacesAllSpace(w);
  }

  /** `trim` removes only whitespace. */
  lemma RemoveSpacesTrim(s: string)
    ensures RemoveSpaces(Trim(s)) == RemoveSpaces(s)
  {
    RemoveSpacesTrimStart(s);
    RemoveSpacesTrimEnd(TrimStart(s));
  }

  /** `trimStart` of a text that ends with a non-space stops inside that text. */
  lemma {:induction false} TrimStartConcat(x: string, y: string)
    requires x != [] && !IsSpace(x[|x| - 1])
    ensures TrimStart(x + y) == TrimStart(x) + y
    ensures TrimStart(x) != [] && !IsSpace(TrimStart(x)[|TrimStart(x)| - 1])
  {
    assert (x + y)[0] == x[0];
    if IsSpace(x[0]) {
      assert (x + y)[1..] == x[1..] + y;
      TrimStartConcat(x[1..], y);
    }
  }

  /** `trimStart` of a whitespace run followed by a non-space is what follows the run. */
  lemma {:induction false} TrimStartRun(w: string, b: string)
    requires forall k :: 0 <= k < |w| ==> IsSpace(w[k])
    requires b == [] || !IsSpace(b[0])
    ensures TrimStart(w + b) == b
  {
    if w == [] {
      assert w + b == b;
    } else {
      assert (w + b)[1..] == w[1..] + b;
      TrimStartRun(w[1..], b);
    }
  }
}
