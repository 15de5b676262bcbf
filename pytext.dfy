/**
 * The Python `str` operations the core relies on, over `seq<char>`:
 * `strip()`, `rstrip(c)`, `lower()`, `upper()`, `in`, `split(c)[0]` and `rfind(c)`.
 */
module PyText {

  /** The characters `str.strip()` removes when it is given no argument (those for which `str.isspace()` holds). */
  predicate IsSpace(c: char) {
    ('\t' <= c <= '\r') || ('\U{1C}' <= c <= ' ') || c == '\U{85}' || c == '\U{A0}' || c == '\U{1680}'
    || ('\U{2000}' <= c <= '\U{200A}') || c == '\U{2028}' || c == '\U{2029}' || c == '\U{202F}'
    || c == '\U{205F}' || c == '\U{3000}'
  }

  predicate AllSpace(s: string) {
    forall i :: 0 <= i < |s| ==> IsSpace(s[i])
  }

  /** `s.lstrip()` */
  function StripLeading(s: string): (r: string)
    ensures |r| <= |s| && r == s[|s| - |r|..]
    ensures forall i :: 0 <= i < |s| - |r| ==> IsSpace(s[i])
    ensures r == [] || !IsSpace(r[0])
  {
    if s != [] && IsSpace(s[0]) then StripLeading(s[1..]) else s
  }

  /** `s.rstrip()` */
  function StripTrailing(s: string): (r: string)
    ensures |r| <= |s| && r == s[..|r|]
    ensures forall i :: |r| <= i < |s| ==> IsSpace(s[i])
    ensures r == [] || !IsSpace(r[|r| - 1])
  {
    if s != [] && IsSpace(s[|s| - 1]) then StripTrailing(s[..|s| - 1]) else s
  }

  /** `s.strip()`: the result neither starts nor ends with whitespace. */
  function Strip(s: string): (r: string)
    ensures |r| <= |s|
    ensures r == [] || (!IsSpace(r[0]) && !IsSpace(r[|r| - 1]))
  {
    StripTrailing(StripLeading(s))
  }

  /** `r` is the slice of `s` from index `i`, with only whitespace before and after it. */
  predicate TrimmedSliceAt(s: string, r: string, i: int) {
    0 <= i <= |s| - |r| && r == s[i..i + |r|] && AllSpace(s[..i]) && AllSpace(s[i + |r|..])
  }

  /** What `strip()` removes is whitespace only, from either end: the result is a slice of `s`. */
  lemma StripIsTrimmedSlice(s: string)
    ensures exists i :: TrimmedSliceAt(s, Strip(s), i)
  {
    var left := StripLeading(s);
    var r := StripTrailing(left);
    var i := |s| - |left|;
    assert AllSpace(s[..i]) by {
      forall j | 0 <= j < i
        ensures IsSpace(s[..i][j])
      {
        assert s[..i][j] == s[j];
      }
    }
    assert AllSpace(s[i + |r|..]) by {
      assert s[i + |r|..] == left[|r|..];
      forall j | 0 <= j < |left| - |r|
        ensures IsSpace(left[|r|..][j])
      {
        assert left[|r|..][j] == left[|r| + j];
      }
    }
    assert r == s[i..i + |r|] by {
      assert left == s[i..];
    }
    assert Strip(s) == r;
    assert TrimmedSliceAt(s, r, i);
  }

  lemma {:induction false} StripLeadingPadding(w: string, s: string)
    requires AllSpace(w)
    ensures StripLeading(w + s) == StripLeading(s)
  {
    if w != [] {
      assert (w + s)[1..] == w[1..] + s;
      StripLeadingPadding(w[1..], s);
    } else {
      assert w + s == s;
    }
  }

  lemma {:induction false} StripTrailingPadding(s: string, w: string)
    requires AllSpace(w)
    ensures StripTrailing(s + w) == StripTrailing(s)
  {
    if w != [] {
      var w' := w[..|w| - 1];
      assert (s + w)[..|s + w| - 1] == s + w';
      StripTrailingPadding(s, w');
    } else {
      assert s + w == s;
    }
  }

  lemma {:induction false} StripRightPadding(s: string, w: string)
    requires AllSpace(w)
    ensures Strip(s + w) == Strip(s)
  {
    if s == [] {
      assert s + w == w;
      StripLeadingPadding(w, []);
      assert w + [] == w;
    } else if IsSpace(s[0]) {
      assert (s + w)[1..] == s[1..] + w;
      StripRightPadding(s[1..], w);
    } else {
      StripTrailingPadding(s, w);
    }
  }

  /** Whitespace around a string never changes what `strip()` returns. */
  lemma StripIgnoresPadding(w1: string, s: string, w2: string)
    requires AllSpace(w1) && AllSpace(w2)
    ensures Strip(w1 + s + w2) == Strip(s)
  {
    calc {
      Strip(w1 + s + w2);
      { assert w1 + s + w2 == w1 + (s + w2); }
      StripTrailing(StripLeading(w1 + (s + w2)));
      { StripLeadingPadding(w1, s + w2); }
      StripTrailing(StripLeading(s + w2));
      { StripRightPadding(s, w2); }
      Strip(s);
    }
  }

  /** A string with no whitespace at either end is its own `strip()`. */
  lemma StripKeepsCore(s: string)
    requires s == [] || (!IsSpace(s[0]) && !IsSpace(s[|s| - 1]))
    ensures Strip(s) == s
  {
  }

  /** `s.rstrip(c)` */
  function RStrip(s: string, c: char): (r: string)
    ensures |r| <= |s| && r == s[..|r|]
    ensures r == [] || r[|r| - 1] != c
    ensures forall i :: |r| <= i < |s| ==> s[i] == c
  {
    if s != [] && s[|s| - 1] == c then RStrip(s[..|s| - 1], c) else s
  }

  function LowerChar(c: char): char {
    if 'A' <= c <= 'Z' then (c as int + 32) as char else c
  }

  function UpperChar(c: char): char {
    if 'a' <= c <= 'z' then (c as int - 32) as char else c
  }

  /** `s.lower()`, on ASCII letters */
  function Lower(s: string): (r: string)
    ensures |r| == |s|
  {
    seq(|s|, i requires 0 <= i < |s| => LowerChar(s[i]))
  }

  /** `s.upper()`, on ASCII letters */
  function Upper(s: string): (r: string)
    ensures |r| == |s|
  {
    seq(|s|, i requires 0 <= i < |s| => UpperChar(s[i]))
  }

  /** `sub` occurs in `s` starting at index `i`. */
  predicate OccursAt(s: string, sub: string, i: int) {
    0 <= i <= |s| - |sub| && s[i..i + |sub|] == sub
  }

  /** `sub in s` */
  predicate Contains(s: string, sub: string) {
    exists i | 0 <= i <= |s| - |sub| :: OccursAt(s, sub, i)
  }

  /** The `|sub|` characters of `s` from index `i` on lower-case to `sub`. */
  predicate OccursAtIgnoringCase(s: string, sub: string, i: int) {
    0 <= i <= |s| - |sub| && Lower(s[i..i + |sub|]) == sub
  }

  /** `sub` occurs in `s.lower()` exactly when some window of `s` lower-cases to `sub`. */
  lemma LowerContains(s: string, sub: string)
    ensures Contains(Lower(s), sub) <==> exists i :: OccursAtIgnoringCase(s, sub, i)
  {
    forall i | 0 <= i <= |s| - |sub|
      ensures OccursAt(Lower(s), sub, i) <==> OccursAtIgnoringCase(s, sub, i)
    {
      assert Lower(s)[i..i + |sub|] == Lower(s[i..i + |sub|]);
    }
  }

  /** `s.split(c)[0]`: everything before the first `c`, or all of `s` when it has none. */
  function PrefixBefore(s: string, c: char): (r: string)
    ensures |r| <= |s| && r == s[..|r|]
    ensures c !in r
    ensures |r| < |s| ==> s[|r|] == c
  {
    if s == [] || s[0] == c then [] else [s[0]] + PrefixBefore(s[1..], c)
  }

  /** `s.rfind(c)`: the index of the last `c` in `s`, or -1. */
  function RFind(s: string, c: char): (i: int)
    ensures -1 <= i < |s|
    ensures i >= 0 ==> s[i] == c
    ensures forall j :: i < j < |s| ==> s[j] != c
  {
    if s == [] then -1 else if s[|s| - 1] == c then |s| - 1 else RFind(s[..|s| - 1], c)
  }
}
