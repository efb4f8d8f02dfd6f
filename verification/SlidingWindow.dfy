/** "Subtract the oldest, add the newest" over a circular array keeps the sum of the last 15 values. */
module SlidingWindow {
  import opened Statistics

  function At(xs: seq<real>, j: int): real {
    if 0 <= j < |xs| then xs[j] else 0.0
  }

  /** The sum of xs from lo up to hi, counting what lies outside xs as 0. */
  function RangeSum(xs: seq<real>, lo: int, hi: int): real
    decreases hi - lo
  {
    if hi <= lo then 0.0 else RangeSum(xs, lo, hi - 1) + At(xs, hi - 1)
  }

  function Sum(xs: seq<real>): real {
    if xs == [] then 0.0 else Sum(xs[..|xs| - 1]) + xs[|xs| - 1]
  }

  /** The ring holds the last 15 of the values pushed, each in its place, and their sum. */
  ghost predicate Holds(r: Ring, oldest: nat, xs: seq<real>) {
    && |r.slots| == 15 && oldest == |xs| % 15
    && (forall j: int :: |xs| - 15 <= j < |xs| ==> r.slots[j % 15] == At(xs, j))
    && r.total == RangeSum(xs, |xs| - 15, |xs|)
    && r.total == Sum(r.slots)
  }

  lemma {:induction false} ShiftSum(xs: seq<real>, lo: int, hi: int)
    requires lo <= hi
    ensures RangeSum(xs, lo, hi) + At(xs, hi) == At(xs, lo) + RangeSum(xs, lo + 1, hi + 1)
    decreases hi - lo
  {
    if lo < hi {
      ShiftSum(xs, lo, hi - 1);
    }
  }

  lemma {:induction false} SumPrefix(xs: seq<real>, ys: seq<real>, lo: int, hi: int)
    requires xs <= ys && hi <= |xs|
    ensures RangeSum(xs, lo, hi) == RangeSum(ys, lo, hi)
    decreases hi - lo
  {
    if lo < hi {
      SumPrefix(xs, ys, lo, hi - 1);
    }
  }

  lemma {:induction false} SumUpdate(xs: seq<real>, i: nat, x: real)
    requires i < |xs|
    ensures Sum(xs[i := x]) == Sum(xs) - xs[i] + x
  {
    var n := |xs| - 1;
    if i == n {
      assert xs[i := x][..n] == xs[..n];
    } else {
      assert xs[i := x][..n] == xs[..n][i := x];
      SumUpdate(xs[..n], i, x);
    }
  }

  /** Minutes less than 15 apart have different places. */
  lemma DistinctPlaces(i: int, j: int)
    requires i < j < i + 15
    ensures i % 15 != j % 15
  {
  }

  lemma PushKeepsPlaces(r: Ring, oldest: nat, xs: seq<real>, x: real, j: int)
    requires Holds(r, oldest, xs) && |xs| + 1 - 15 <= j < |xs| + 1
    ensures Push(r, oldest, x).slots[j % 15] == At(xs + [x], j)
  {
    hide RangeSum, Sum;
    if j < |xs| {
      DistinctPlaces(j, |xs|);
      assert At(xs, j) == At(xs + [x], j);
    }
  }

  lemma PushKeepsTotal(r: Ring, oldest: nat, xs: seq<real>, x: real)
    requires Holds(r, oldest, xs)
    ensures Push(r, oldest, x).total == RangeSum(xs + [x], |xs| - 14, |xs| + 1)
    ensures Push(r, oldest, x).total == Sum(Push(r, oldest, x).slots)
  {
    hide RangeSum, Sum;
    var n := |xs|;
    assert r.slots[(n - 15) % 15] == At(xs, n - 15) == At(xs + [x], n - 15);
    SumPrefix(xs, xs + [x], n - 15, n);
    ShiftSum(xs + [x], n - 15, n);
    SumUpdate(r.slots, oldest, x);
  }

  lemma NextPlace(n: nat)
    ensures (n % 15 + 1) % 15 == (n + 1) % 15
  {
  }

  lemma PushKeepsSize(r: Ring, oldest: nat, x: real)
    requires oldest < |r.slots|
    ensures |Push(r, oldest, x).slots| == |r.slots|
  {
  }

  lemma PushKeepsAllPlaces(r: Ring, oldest: nat, xs: seq<real>, x: real)
    requires Holds(r, oldest, xs)
    ensures |Push(r, oldest, x).slots| == 15
    ensures forall j: int :: |xs| - 14 <= j < |xs| + 1 ==> Push(r, oldest, x).slots[j % 15] == At(xs + [x], j)
  {
    hide RangeSum, Sum, At, Push;
    PushKeepsSize(r, oldest, x);
    forall j: int | |xs| - 14 <= j < |xs| + 1
      ensures Push(r, oldest, x).slots[j % 15] == At(xs + [x], j)
    {
      PushKeepsPlaces(r, oldest, xs, x, j);
    }
  }

  lemma PushKeeps(r: Ring, oldest: nat, xs: seq<real>, x: real)
    requires Holds(r, oldest, xs)
    ensures Holds(Push(r, oldest, x), (oldest + 1) % 15, xs + [x])
  {
    hide RangeSum, Sum, At, Push;
    PushKeepsTotal(r, oldest, xs, x);
    PushKeepsAllPlaces(r, oldest, xs, x);
    NextPlace(|xs|);
  }

  lemma EmptyHolds()
    ensures Holds(Start().avg.volumes, 0, [])
  {
    var slots := Start().avg.volumes.slots;
    ZeroSum(slots);
    ZeroRange(-15, 0);
  }

  lemma {:induction false} ZeroSum(xs: seq<real>)
    requires forall i :: 0 <= i < |xs| ==> xs[i] == 0.0
    ensures Sum(xs) == 0.0
  {
    if xs != [] {
      ZeroSum(xs[..|xs| - 1]);
    }
  }

  lemma {:induction false} ZeroRange(lo: int, hi: int)
    ensures RangeSum([], lo, hi) == 0.0
    decreases hi - lo
  {
    if lo < hi {
      ZeroRange(lo, hi - 1);
    }
  }
}
