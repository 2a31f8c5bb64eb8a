/** The small option type used throughout the model for JavaScript values that may be missing. */
module Options {
  datatype Option<+T> = None | Some(value: T) {
    function GetOr(default: T): T {
      match this
      case Some(v) => v
      case None => default
    }
  }
}

/**
 * String primitives the router relies on: ASCII case mapping, JavaScript's notion of
 * white space (shared by `String.prototype.trim` and the regex class `\s`), substring
 * search, prefix tests, and splitting and joining on a separator character.
 */
module Text {

  /** A character that `trim()` removes and that the regex class `\s` matches. */
  predicate IsWhitespace(c: char) {
    || c == '\t' || c == '\n' || c == '\U{B}' || c == '\U{C}' || c == '\r' || c == ' '
    || c == '\U{A0}' || c == '\U{1680}' || ('\U{2000}' <= c <= '\U{200A}')
    || c == '\U{2028}' || c == '\U{2029}' || c == '\U{202F}' || c == '\U{205F}'
    || c == '\U{3000}' || c == '\U{FEFF}'
  }

  /** A character at which the regex `.` stops matching. */
  predicate IsLineTerminator(c: char) {
    c == '\n' || c == '\r' || c == '\U{2028}' || c == '\U{2029}'
  }

  predicate IsBlank(s: string) {
    forall j :: 0 <= j < |s| ==> IsWhitespace(s[j])
  }

  function LowerChar(c: char): char {
    if 'A' <= c <= 'Z' then (c as int + 32) as char else c
  }

  function UpperChar(c: char): char {
    if 'a' <= c <= 'z' then (c as int - 32) as char else c
  }

  /** `toLowerCase()`, restricted to the ASCII letters. */
  function Lower(s: string): string {
    seq(|s|, i requires 0 <= i < |s| => LowerChar(s[i]))
  }

  /** `toUpperCase()`, restricted to the ASCII letters. */
  function Upper(s: string): string {
    seq(|s|, i requires 0 <= i < |s| => UpperChar(s[i]))
  }

  /** Upper-casing a text first does not change its lower-case form. */
  lemma LowerOfUpper(s: string)
    ensures Lower(Upper(s)) == Lower(s)
  {
    forall i | 0 <= i < |s|
      ensures Lower(Upper(s))[i] == Lower(s)[i]
    {
      var c := s[i];
      if 'a' <= c <= 'z' {
        assert UpperChar(c) as int == c as int - 32;
      }
    }
  }

  lemma LowerAppend(a: string, b: string)
    ensures Lower(a + b) == Lower(a) + Lower(b)
  {
  }

  /** Removes the leading white space, as `trimStart()` does. */
  function TrimStart(s: string): (r: string)
    ensures |r| <= |s| && r == s[|s| - |r|..]
    ensures forall j :: 0 <= j < |s| - |r| ==> IsWhitespace(s[j])
    ensures r == [] || !IsWhitespace(r[0])
  {
    if s != [] && IsWhitespace(s[0]) then TrimStart(s[1..]) else s
  }

  lemma TrimStartSkips(s: string)
    requires s != [] && IsWhitespace(s[0])
    ensures TrimStart(s) == TrimStart(s[1..])
  {
  }

  lemma TrimStartStops(s: string)
    requires s == [] || !IsWhitespace(s[0])
    ensures TrimStart(s) == s
  {
  }

  /** Removes the trailing white space, as `trimEnd()` does. */
  function TrimEnd(s: string): (r: string)
    ensures |r| <= |s| && r == s[..|r|]
    ensures forall j :: |r| <= j < |s| ==> IsWhitespace(s[j])
    ensures r == [] || !IsWhitespace(r[|r| - 1])
  {
    if s != [] && IsWhitespace(s[|s| - 1]) then TrimEnd(s[..|s| - 1]) else s
  }

  /** `trim()`: the text without its leading and trailing white space. */
  function Trim(s: string): string {
    TrimEnd(TrimStart(s))
  }

  /** Trimming keeps a contiguous middle part, drops only white space, and leaves none at either end. */
  lemma TrimBounds(s: string)
    ensures exists a :: IsAt(s, a, Trim(s)) && IsBlank(s[..a]) && IsBlank(s[a + |Trim(s)|..])
    ensures Trim(s) == [] || (!IsWhitespace(Trim(s)[0]) && !IsWhitespace(Trim(s)[|Trim(s)| - 1]))
    ensures Trim(s) == [] <==> IsBlank(s)
  {
    var t := TrimStart(s);
    var a := |s| - |t|;
    var r := TrimEnd(t);
    assert r == Trim(s);
    assert r == s[a..a + |r|];
    assert IsAt(s, a, r);
    assert IsBlank(s[..a]);
    assert s[a + |r|..] == t[|r|..];
    assert IsBlank(t[|r|..]) by {
      forall j | 0 <= j < |t| - |r| ensures IsWhitespace(t[|r|..][j]) {
        assert t[|r|..][j] == t[|r| + j];
      }
    }
    if r == [] {
      assert t == [];
    } else {
      assert r[0] == s[a] && !IsWhitespace(s[a]);
    }
  }

  /** Leading white space in front of a text that does not start with white space is all removed. */
  lemma {:induction false} TrimStartPadded(pre: string, x: string)
    requires IsBlank(pre) && (x == [] || !IsWhitespace(x[0]))
    ensures TrimStart(pre + x) == x
  {
    if pre == [] {
      assert pre + x == x;
    } else {
      assert (pre + x)[1..] == pre[1..] + x;
      TrimStartPadded(pre[1..], x);
    }
  }

  /** Trailing white space after a text that does not end with white space is all removed. */
  lemma {:induction false} TrimEndPadded(x: string, post: string)
    requires IsBlank(post) && (x == [] || !IsWhitespace(x[|x| - 1]))
    ensures TrimEnd(x + post) == x
  {
    if post == [] {
      assert x + post == x;
    } else {
      assert (x + post)[..|x + post| - 1] == x + post[..|post| - 1];
      TrimEndPadded(x, post[..|post| - 1]);
    }
  }

  /**
   * Trimming a text padded with white space on both sides gives the text back, when the
   * text itself neither starts nor ends with white space.
   */
  lemma TrimPadded(pre: string, x: string, post: string)
    requires IsBlank(pre) && IsBlank(post)
    requires x != [] && !IsWhitespace(x[0]) && !IsWhitespace(x[|x| - 1])
    ensures Trim(pre + x + post) == x
  {
    assert pre + x + post == pre + (x + post);
    TrimStartPadded(pre, x + post);
    TrimEndPadded(x, post);
  }

  /** Trimming twice is the same as trimming once. */
  lemma TrimIdempotent(s: string)
    ensures Trim(Trim(s)) == Trim(s)
  {
    var r := Trim(s);
    TrimBounds(s);
    if r != [] {
      assert TrimStart(r) == r;
      assert TrimEnd(r) == r;
    }
  }

  /** The word `w` occurs in `s` starting at index `i`. */
  predicate IsAt(s: string, i: int, w: string) {
    0 <= i && i + |w| <= |s| && s[i..i + |w|] == w
  }

  predicate StartsWith(s: string, p: string) {
    |p| <= |s| && s[..|p|] == p
  }

  /** `s.includes(w)`. */
  predicate Contains(s: string, w: string) {
    exists i :: 0 <= i <= |s| - |w| && IsAt(s, i, w)
  }

  /** Some word of `ws` occurs in `s`: a regex alternation of plain words. */
  predicate ContainsAny(s: string, ws: seq<string>) {
    exists k :: 0 <= k < |ws| && Contains(s, ws[k])
  }

  /** The regex `a\s?b` matches somewhere in `s`. */
  predicate ContainsSpaced(s: string, a: string, b: string) {
    exists i :: 0 <= i <= |s| - |a| && IsAt(s, i, a) &&
      (IsAt(s, i + |a|, b) || (i + |a| < |s| && IsWhitespace(s[i + |a|]) && IsAt(s, i + |a| + 1, b)))
  }

  /**
   * An unanchored regex made of alternatives: each plain word is an alternative, and
   * each pair (a, b) of `spaced` is the alternative `a\s?b`.
   */
  datatype Pattern = Pattern(words: seq<string>, spaced: seq<(string, string)>)

  predicate Matches(p: Pattern, s: string) {
    || ContainsAny(s, p.words)
    || exists k :: 0 <= k < |p.spaced| && ContainsSpaced(s, p.spaced[k].0, p.spaced[k].1)
  }

  /** Any occurrence of an alternative's word makes the pattern match. */
  lemma WordMatches(p: Pattern, s: string, k: nat, i: nat)
    requires k < |p.words| && IsAt(s, i, p.words[k])
    ensures Matches(p, s)
  {
    assert Contains(s, p.words[k]);
  }

  /** The piece of `s` before the first `sep`: what `s.split(sep)[0]` gives. */
  function Field(s: string, sep: char): (r: string)
    ensures sep !in r
    ensures StartsWith(s, r)
    ensures |r| < |s| ==> s[|r|] == sep
  {
    if s == [] || s[0] == sep then [] else [s[0]] + Field(s[1..], sep)
  }

  /** A field is exactly the text up to the separator that ends it, or up to the end. */
  lemma {:induction false} FieldOf(x: string, sep: char, rest: string)
    requires sep !in x
    requires rest == [] || rest[0] == sep
    ensures Field(x + rest, sep) == x
  {
    if x != [] {
      assert (x + rest)[1..] == x[1..] + rest;
      FieldOf(x[1..], sep, rest);
    }
  }

  /** `xs.join(sep)`. */
  function Join(xs: seq<string>, sep: char): string {
    if xs == [] then [] else if |xs| == 1 then xs[0] else xs[0] + [sep] + Join(xs[1..], sep)
  }

  /** Where the k-th piece starts in `Join(xs, sep)`. */
  function JoinOffset(xs: seq<string>, k: nat): nat
    requires k <= |xs|
  {
    if k == 0 then 0 else |xs[0]| + 1 + JoinOffset(xs[1..], k - 1)
  }

  /**
   * The pieces of a joined list stand in order: the k-th at its offset, followed by the
   * separator when another piece comes after it, and by the end of the text otherwise.
   */
  lemma {:induction false} JoinPieceAt(xs: seq<string>, sep: char, k: nat)
    requires k < |xs|
    ensures IsAt(Join(xs, sep), JoinOffset(xs, k), xs[k])
    ensures k + 1 < |xs| ==>
              JoinOffset(xs, k) + |xs[k]| < |Join(xs, sep)| && Join(xs, sep)[JoinOffset(xs, k) + |xs[k]|] == sep
    ensures k + 1 < |xs| ==> JoinOffset(xs, k + 1) == JoinOffset(xs, k) + |xs[k]| + 1
    ensures k + 1 == |xs| ==> JoinOffset(xs, k) + |xs[k]| == |Join(xs, sep)|
  {
    var j := Join(xs, sep);
    if |xs| > 1 {
      assert j == xs[0] + [sep] + Join(xs[1..], sep);
    }
    if k > 0 {
      JoinPieceAt(xs[1..], sep, k - 1);
      var o := |xs[0]| + 1;
      var rest := Join(xs[1..], sep);
      assert j[o..] == rest;
      var p := JoinOffset(xs[1..], k - 1);
      assert j[o + p..o + p + |xs[k]|] == rest[p..p + |xs[k]|];
      if k + 1 < |xs| {
        assert JoinOffset(xs, k + 1) == o + JoinOffset(xs[1..], k);
      }
    }
  }
}
