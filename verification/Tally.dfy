/** Counting the threads of a state machine that are at a given kind of program point. */
module Tally {

  /** How many elements of `ts` satisfy `p`. */
  function Count<T>(ts: seq<T>, p: T -> bool): nat {
    if ts == [] then 0
    else Count(ts[..|ts| - 1], p) + (if p(ts[|ts| - 1]) then 1 else 0)
  }

  lemma {:induction false} CountUpdate<T>(ts: seq<T>, i: nat, x: T, p: T -> bool)
    requires i < |ts|
    ensures Count(ts[i := x], p) == Count(ts, p) - (if p(ts[i]) then 1 else 0) + (if p(x) then 1 else 0)
  {
    var last := |ts| - 1;
    if i == last {
      assert ts[i := x][..last] == ts[..last];
    } else {
      assert ts[i := x][..last] == ts[..last][i := x];
      CountUpdate(ts[..last], i, x, p);
    }
  }

  lemma {:induction false} CountAppend<T>(ts: seq<T>, x: T, p: T -> bool)
    ensures Count(ts + [x], p) == Count(ts, p) + (if p(x) then 1 else 0)
  {
    assert (ts + [x])[..|ts|] == ts;
  }

  lemma CountUpdateAppend<T>(ts: seq<T>, i: nat, x: T, y: T, p: T -> bool)
    requires i < |ts|
    ensures Count(ts[i := x] + [y], p)
              == Count(ts, p) - (if p(ts[i]) then 1 else 0) + (if p(x) then 1 else 0) + (if p(y) then 1 else 0)
  {
    CountUpdate(ts, i, x, p);
    CountAppend(ts[i := x], y, p);
  }

  lemma {:induction false} CountBound<T>(ts: seq<T>, p: T -> bool)
    ensures Count(ts, p) <= |ts|
  {
    if ts != [] {
      CountBound(ts[..|ts| - 1], p);
    }
  }

  /** A zero count means that no element satisfies `p`. */
  lemma {:induction false} CountZero<T>(ts: seq<T>, p: T -> bool)
    ensures Count(ts, p) == 0 <==> forall i :: 0 <= i < |ts| ==> !p(ts[i])
  {
    if ts != [] {
      var last := |ts| - 1;
      CountZero(ts[..last], p);
      assert forall i :: 0 <= i < last ==> ts[..last][i] == ts[i];
    }
  }
}
