/**
 * Order-preserving selection, the shape of every Python list comprehension
 * with an `if` clause in the server.
 */
module Seqs {

  ghost predicate StrictlyIncreasing(idx: seq<nat>) {
    forall i, j :: 0 <= i < j < |idx| ==> idx[i] < idx[j]
  }

  /** `idx` lists, in increasing order, exactly the positions of `s` where `p` holds. */
  ghost predicate Enumerates<T>(s: seq<T>, p: T -> bool, idx: seq<nat>) {
    && StrictlyIncreasing(idx)
    && (forall j :: 0 <= j < |idx| ==> idx[j] < |s| && p(s[idx[j]]))
    && (forall i :: 0 <= i < |s| && p(s[i]) ==> i in idx)
  }

  /** The positions of `s` where `p` holds, in increasing order. */
  function Positions<T>(s: seq<T>, p: T -> bool): (idx: seq<nat>)
    ensures Enumerates(s, p, idx)
    ensures |idx| <= |s|
  {
    if |s| == 0 then []
    else
      var prev := Positions(s[..|s| - 1], p);
      assert forall i :: 0 <= i < |s| - 1 ==> s[..|s| - 1][i] == s[i];
      if p(s[|s| - 1]) then prev + [|s| - 1] else prev
  }

  /** `[x for x in s if p(x)]` */
  function Filter<T>(s: seq<T>, p: T -> bool): (r: seq<T>)
    ensures |r| <= |s|
    ensures forall j :: 0 <= j < |r| ==> p(r[j])
  {
    if |s| == 0 then []
    else
      var prev := Filter(s[..|s| - 1], p);
      if p(s[|s| - 1]) then prev + [s[|s| - 1]] else prev
  }

  /**
   * The filtered sequence is `s` read at exactly the positions where `p`
   * holds, in order: nothing passing is lost, nothing failing kept.
   */
  lemma {:induction false} FilterSelects<T>(s: seq<T>, p: T -> bool)
    ensures var idx := Positions(s, p); var r := Filter(s, p);
      |r| == |idx| && forall j :: 0 <= j < |r| ==> r[j] == s[idx[j]]
  {
    if |s| > 0 {
      var init := s[..|s| - 1];
      FilterSelects(init, p);
      assert forall i :: 0 <= i < |init| ==> init[i] == s[i];
    }
  }

  /** Filtering a sequence whose every element passes changes nothing. */
  lemma {:induction false} FilterAllPass<T>(s: seq<T>, p: T -> bool)
    requires forall i :: 0 <= i < |s| ==> p(s[i])
    ensures Filter(s, p) == s
  {
    if |s| > 0 {
      var init := s[..|s| - 1];
      assert forall i :: 0 <= i < |init| ==> init[i] == s[i];
      FilterAllPass(init, p);
      assert init + [s[|s| - 1]] == s;
    }
  }

  /** Filtering is idempotent: every element of a filtered sequence passes. */
  lemma {:induction false} FilterIdempotent<T>(s: seq<T>, p: T -> bool)
    ensures Filter(Filter(s, p), p) == Filter(s, p)
  {
    FilterAllPass(Filter(s, p), p);
  }
}
