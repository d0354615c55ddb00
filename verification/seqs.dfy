/**
 * The two array primitives the site's logic is built on: `Array.prototype.filter`
 * and the first-match scan behind `Array.prototype.find` and `for ... break` loops.
 */
module Seqs {
  import opened Wrappers

  /** `r` can be obtained from `s` by deleting elements, keeping the order of the rest. */
  ghost predicate IsSubsequence<T>(r: seq<T>, s: seq<T>)
    decreases |s|
  {
    r == [] || (s != [] && ((r[0] == s[0] && IsSubsequence(r[1..], s[1..])) || IsSubsequence(r, s[1..])))
  }

  lemma {:induction false} SubsequenceNotLonger<T>(r: seq<T>, s: seq<T>)
    requires IsSubsequence(r, s)
    ensures |r| <= |s|
    decreases |s|
  {
    if r != [] {
      if r[0] == s[0] && IsSubsequence(r[1..], s[1..]) {
        SubsequenceNotLonger(r[1..], s[1..]);
      } else {
        SubsequenceNotLonger(r, s[1..]);
      }
    }
  }

  /**
   * `s.filter(keep)`: the elements of `s` that satisfy `keep`, in their original order.
   * The two postconditions determine the result completely: an order-preserving
   * selection that holds each kept value exactly as often as `s` does, and nothing else.
   */
  function Filter<T(!new)>(s: seq<T>, keep: T -> bool): (r: seq<T>)
    ensures IsSubsequence(r, s)
    ensures forall x :: multiset(r)[x] == if keep(x) then multiset(s)[x] else 0
  {
    if s == [] then []
    else
      var rest := Filter(s[1..], keep);
      assert s == [s[0]] + s[1..];
      if keep(s[0]) then
        assert ([s[0]] + rest)[1..] == rest;
        [s[0]] + rest
      else rest
  }

  /** Every element kept by `Filter` satisfies the predicate. */
  lemma FilterAllKept<T(!new)>(s: seq<T>, keep: T -> bool)
    ensures forall i :: 0 <= i < |Filter(s, keep)| ==> keep(Filter(s, keep)[i])
  {
    var r := Filter(s, keep);
    forall i | 0 <= i < |r| ensures keep(r[i]) {
      assert r[i] in multiset(r);
    }
  }

  /**
   * The index of the first element of `s` satisfying `hit`, or `None`: the scan a
   * `for` loop with `break` or `Array.prototype.find` performs.
   */
  function FindFirst<T>(s: seq<T>, hit: T -> bool): (r: Option<nat>)
    ensures r.Some? ==> r.value < |s| && hit(s[r.value])
    ensures r.Some? ==> forall j :: 0 <= j < r.value ==> !hit(s[j])
    ensures r.None? ==> forall j :: 0 <= j < |s| ==> !hit(s[j])
  {
    if s == [] then None
    else if hit(s[0]) then Some(0)
    else match FindFirst(s[1..], hit)
      case None => None
      case Some(k) => Some(k + 1)
  }
}
