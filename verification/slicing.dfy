/** Python's slice semantics on one axis, which every crop of the volume
    tensor goes through: a slice `start:stop:step` picks the indices
    start, start+step, ... that lie below stop, after negative bounds have
    been counted from the end and every bound clamped to the axis. */
module Slicing {
  import opened Results

  function Min(a: int, b: int): int { if a <= b then a else b }

  function Max(a: int, b: int): int { if a >= b then a else b }

  /** `v` moved into [lo, hi]. */
  function Clamp(v: int, lo: int, hi: int): (r: int)
    requires lo <= hi
    ensures lo <= r <= hi
    ensures lo <= v <= hi ==> r == v
  {
    Max(lo, Min(v, hi))
  }

  /** The indices start, start + step, ..., `count` of them. */
  datatype Range = Range(start: int, count: nat, step: int)

  /** The `i`-th index of the progression. */
  function Pick(r: Range, i: int): int { r.start + i * r.step }

  /** Every index of the progression lies inside an axis of length `n`. */
  predicate Fits(r: Range, n: int) {
    r.step >= 1 && (r.count == 0 || (0 <= r.start && Pick(r, r.count - 1) < n))
  }

  lemma PickInside(r: Range, n: int, i: int)
    requires Fits(r, n) && 0 <= i < r.count
    ensures 0 <= Pick(r, i) < n
  {
    var k := r.count - 1 - i;
    assert k * r.step >= 0;
    assert Pick(r, r.count - 1) == Pick(r, i) + k * r.step;
  }

  /** The whole axis, in order. */
  function Whole(n: nat): (r: Range)
    ensures Fits(r, n) && r.count == n
    ensures forall i :: 0 <= i < n ==> Pick(r, i) == i
  {
    Range(0, n, 1)
  }

  /** Python's normalisation of one slice bound on an axis of length `n`
      (positive step): negative values count from the end, then the bound is
      clamped to [0, n]; a missing bound takes `absent`. */
  function Bound(b: Option<int>, absent: nat, n: nat): (r: nat)
    requires absent <= n
    ensures r <= n
    ensures b.None? ==> r == absent
    ensures b.Some? && 0 <= b.value <= n ==> r == b.value
    ensures b.Some? && -(n as int) <= b.value < 0 ==> r == b.value + n
    ensures b.Some? && b.value < -(n as int) ==> r == 0
    ensures b.Some? && b.value > n ==> r == n
  {
    match b
    case None => absent
    case Some(v) => if v < 0 then Max(v + n, 0) else Min(v, n)
  }

  /** The indices `x[start:stop:step]` picks from an axis of length `n`. */
  function Resolve(start: Option<int>, stop: Option<int>, step: int, n: nat): (r: Range)
    requires step >= 1
    ensures Fits(r, n) && r.step == step
    ensures r.start == Bound(start, 0, n)
    ensures forall i :: 0 <= i < r.count ==> Pick(r, i) < Bound(stop, n, n)
    ensures Pick(r, r.count) >= Bound(stop, n, n)
  {
    var lo, hi := Bound(start, 0, n), Bound(stop, n, n);
    if hi <= lo then Range(lo, 0, step)
    else
      var r := Range(lo, StepsToCover(hi - lo, step), step);
      ProgressionBelow(r, hi);
      r
  }

  /** With step one a slice keeps the indices from its start up to its
      stop, or none when the stop is not past the start. */
  lemma {:induction false} ResolveUnit(start: Option<int>, stop: Option<int>, n: nat)
    ensures Resolve(start, stop, 1, n).count == Max(Bound(stop, n, n) - Bound(start, 0, n), 0)
  {
    var r := Resolve(start, stop, 1, n);
    if r.count > 0 {
      assert Pick(r, r.count - 1) == r.start + r.count - 1;
    }
    assert Pick(r, r.count) == r.start + r.count;
  }

  /** ceil(d / step): the number of steps of length `step` that start below `d`. */
  function StepsToCover(d: int, step: int): (q: nat)
    requires d >= 1 && step >= 1
    ensures q >= 1 && (q - 1) * step < d <= q * step
  {
    var q, m := (d + step - 1) / step, (d + step - 1) % step;
    assert d + step - 1 == q * step + m && 0 <= m < step;
    assert (q - 1) * step == q * step - step;
    q
  }

  lemma ProgressionBelow(r: Range, hi: int)
    requires r.step >= 1 && r.count >= 1 && Pick(r, r.count - 1) < hi
    ensures forall i :: 0 <= i < r.count ==> Pick(r, i) < hi
  {
    forall i | 0 <= i < r.count ensures Pick(r, i) < hi {
      assert (r.count - 1 - i) * r.step >= 0;
      assert Pick(r, i) + (r.count - 1 - i) * r.step == Pick(r, r.count - 1);
    }
  }
}
