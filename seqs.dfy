/** Sequence helpers: Python's list comprehension with a condition. */
module Seqs {

  /** `[x for x in s if f(x)]`: the elements of `s` that satisfy `f`, in their order in `s`. */
  function Filter<T>(s: seq<T>, f: T -> bool): (r: seq<T>)
    ensures |r| <= |s|
    ensures forall i :: 0 <= i < |r| ==> r[i] in s && f(r[i])
  {
    if s == [] then [] else (if f(s[0]) then [s[0]] else []) + Filter(s[1..], f)
  }

  /** Every element of `s` that satisfies `f` is kept. */
  lemma {:induction false} FilterKeeps<T>(s: seq<T>, f: T -> bool, k: nat)
    requires k < |s| && f(s[k])
    ensures s[k] in Filter(s, f)
  {
    if k > 0 {
      FilterKeeps(s[1..], f, k - 1);
    }
  }

  lemma FilterKeepsAll<T>(s: seq<T>, f: T -> bool)
    ensures forall k :: 0 <= k < |s| && f(s[k]) ==> s[k] in Filter(s, f)
  {
  }

  /** Nothing is kept only when no element satisfies `f`. */
  lemma {:induction false} FilterEmpty<T>(s: seq<T>, f: T -> bool)
    requires Filter(s, f) == []
    ensures forall i :: 0 <= i < |s| ==> !f(s[i])
  {
    if s != [] {
      FilterEmpty(s[1..], f);
      assert forall i :: 1 <= i < |s| ==> s[i] == s[1..][i - 1];
    }
  }

  /**
   * The element of a non-empty `s` that an unspecified choice settles on: `pick` names
   * it, and every element is named by some `pick`.
   */
  function Choose<T>(s: seq<T>, pick: nat): (x: T)
    requires s != []
    ensures x in s
    ensures pick < |s| ==> x == s[pick]
  {
    s[if pick < |s| then pick else |s| - 1]
  }

  /** Filtering distributes over concatenation: the filter keeps the order of its input. */
  lemma {:induction false} FilterAppend<T>(a: seq<T>, b: seq<T>, f: T -> bool)
    ensures Filter(a + b, f) == Filter(a, f) + Filter(b, f)
  {
    if a == [] {
      assert a + b == b;
    } else {
      assert (a + b)[1..] == a[1..] + b;
      FilterAppend(a[1..], b, f);
    }
  }

  /** The first element kept is the first element of `s` that satisfies `f`. */
  lemma {:induction false} FilterFirst<T>(s: seq<T>, f: T -> bool, k: nat)
    requires k < |s| && f(s[k])
    requires forall j :: 0 <= j < k ==> !f(s[j])
    ensures Filter(s, f) != [] && Filter(s, f)[0] == s[k]
  {
    if k > 0 {
      FilterFirst(s[1..], f, k - 1);
    }
  }
}
