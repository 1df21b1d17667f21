/** Filtering and mapping sequences, with the facts that say where each kept element lands. */
module Seqs {

  /** The number of elements of `s` that satisfy `p`. */
  function Count<T>(s: seq<T>, p: T -> bool): (n: nat)
    ensures n <= |s|
  {
    if |s| == 0 then 0 else Count(s[..|s| - 1], p) + (if p(s[|s| - 1]) then 1 else 0)
  }

  /** The elements of `s` that satisfy `p`, in their order in `s`. */
  function Filter<T>(s: seq<T>, p: T -> bool): (r: seq<T>)
    ensures |r| == Count(s, p)
  {
    if |s| == 0 then [] else Filter(s[..|s| - 1], p) + (if p(s[|s| - 1]) then [s[|s| - 1]] else [])
  }

  /** `f` applied to every element of `s`. */
  function Map<T, U>(s: seq<T>, f: T -> U): (r: seq<U>)
    ensures |r| == |s|
    ensures forall k :: 0 <= k < |s| ==> r[k] == f(s[k])
  {
    seq(|s|, k requires 0 <= k < |s| => f(s[k]))
  }

  lemma MapSnoc<T, U>(s: seq<T>, x: T, f: T -> U)
    ensures Map(s + [x], f) == Map(s, f) + [f(x)]
  {
  }

  /** Filtering one more element of a prefix: the step of a loop that keeps some elements. */
  lemma FilterStep<T>(s: seq<T>, p: T -> bool, j: nat)
    requires j < |s|
    ensures p(s[j]) ==> Filter(s[..j + 1], p) == Filter(s[..j], p) + [s[j]]
    ensures !p(s[j]) ==> Filter(s[..j + 1], p) == Filter(s[..j], p)
  {
    assert s[..j + 1][..j] == s[..j];
    assert Filter(s[..j], p) + [] == Filter(s[..j], p);
  }

  /** Filtering then mapping one more element of a prefix. */
  lemma MapFilterStep<T, U>(s: seq<T>, p: T -> bool, f: T -> U, j: nat)
    requires j < |s|
    ensures p(s[j]) ==> Map(Filter(s[..j + 1], p), f) == Map(Filter(s[..j], p), f) + [f(s[j])]
    ensures !p(s[j]) ==> Map(Filter(s[..j + 1], p), f) == Map(Filter(s[..j], p), f)
  {
    FilterStep(s, p, j);
    if p(s[j]) {
      MapSnoc(Filter(s[..j], p), s[j], f);
    }
  }

  /** The element at position `i` of `s`, when kept, is the `Count(s[..i], p)`-th kept element. */
  lemma {:induction false} FilterAt<T>(s: seq<T>, p: T -> bool, i: nat)
    requires i < |s| && p(s[i])
    ensures Count(s[..i], p) < |Filter(s, p)|
    ensures Filter(s, p)[Count(s[..i], p)] == s[i]
  {
    if i < |s| - 1 {
      var init := s[..|s| - 1];
      assert init[..i] == s[..i];
      FilterAt(init, p, i);
    } else {
      assert s[..i] == s[..|s| - 1];
    }
  }

  /** Every kept element comes from some position of `s` that satisfies `p`. */
  lemma {:induction false} FilterOrigin<T>(s: seq<T>, p: T -> bool, k: nat)
    requires k < |Filter(s, p)|
    ensures exists i :: 0 <= i < |s| && p(s[i]) && Count(s[..i], p) == k && Filter(s, p)[k] == s[i]
  {
    var init := s[..|s| - 1];
    if k < |Filter(init, p)| {
      FilterOrigin(init, p, k);
      var i :| 0 <= i < |init| && p(init[i]) && Count(init[..i], p) == k && Filter(init, p)[k] == init[i];
      assert init[..i] == s[..i];
    } else {
      var i := |s| - 1;
      assert s[..i] == init;
    }
  }
}
