/** A value that may be absent, and sums over sequences. */
module Common {

  datatype Option<+T> = None | Some(value: T)

  function SumOf(xs: seq<int>): int
  {
    if xs == [] then 0 else SumOf(xs[..|xs| - 1]) + xs[|xs| - 1]
  }

  lemma SumAppend(xs: seq<int>, x: int)
    ensures SumOf(xs + [x]) == SumOf(xs) + x
  {
    assert (xs + [x])[..|xs|] == xs;
  }

  lemma {:induction false} SumUpdate(xs: seq<int>, i: nat, x: int)
    requires i < |xs|
    ensures SumOf(xs[i := x]) == SumOf(xs) - xs[i] + x
  {
    var last := |xs| - 1;
    if i == last {
      assert xs[i := x][..last] == xs[..last];
    } else {
      assert xs[i := x][..last] == xs[..last][i := x];
      SumUpdate(xs[..last], i, x);
    }
  }

  lemma {:induction false} SumAtMost(xs: seq<int>, ys: seq<int>)
    requires |xs| == |ys| && forall i | 0 <= i < |xs| :: xs[i] <= ys[i]
    ensures SumOf(xs) <= SumOf(ys)
  {
    if xs == [] {
    } else {
      SumAtMost(xs[..|xs| - 1], ys[..|ys| - 1]);
    }
  }
}
