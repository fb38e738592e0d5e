/** `Volume.quantile(q)`: an order statistic of all voxel values, the k-th
    smallest for q <= 0.5 and the k-th largest above, with k = floor(n q) + 1
    or floor(n (1 - q)) + 1 over the n voxel values.  The k smallest (or
    largest) values are what `topk` selects; the answer is the largest (or
    smallest) of them, which is the value at position k - 1 (or n - k) of the
    sorted data. */
module Quantile {
  import opened Results
  import opened Tensors
  import opened Volumes

  /** The number of elements of `s` that satisfy `p`. */
  function CountIf(s: seq<real>, p: real -> bool): (n: nat)
    ensures n <= |s|
  {
    if |s| == 0 then 0 else (if p(s[0]) then 1 else 0) + CountIf(s[1..], p)
  }

  lemma {:induction false} CountIfSome(s: seq<real>, p: real -> bool, i: int)
    requires 0 <= i < |s| && p(s[i])
    ensures CountIf(s, p) >= 1
  {
    if i > 0 {
      CountIfSome(s[1..], p, i - 1);
    }
  }

  lemma {:induction false} CountIfNone(s: seq<real>, p: real -> bool)
    requires forall i :: 0 <= i < |s| ==> !p(s[i])
    ensures CountIf(s, p) == 0
  {
    if |s| > 0 {
      CountIfNone(s[1..], p);
    }
  }

  /** No element from position m on satisfies p: at most m do. */
  lemma {:induction false} CountIfNoneFrom(s: seq<real>, p: real -> bool, m: nat)
    requires forall i :: m <= i < |s| ==> !p(s[i])
    ensures CountIf(s, p) <= m
  {
    if |s| > 0 {
      CountIfNoneFrom(s[1..], p, if m == 0 then 0 else m - 1);
    }
  }

  /** No element before position m satisfies p: at most |s| - m do. */
  lemma {:induction false} CountIfNoneBefore(s: seq<real>, p: real -> bool, m: nat)
    requires m <= |s| && forall i :: 0 <= i < m ==> !p(s[i])
    ensures CountIf(s, p) <= |s| - m
  {
    if m > 0 {
      CountIfNoneBefore(s[1..], p, m - 1);
    }
  }

  /** Every element from position m on satisfies p: at least |s| - m do. */
  lemma {:induction false} CountIfAllFrom(s: seq<real>, p: real -> bool, m: nat)
    requires m <= |s| && forall i :: m <= i < |s| ==> p(s[i])
    ensures CountIf(s, p) >= |s| - m
  {
    if |s| > 0 {
      CountIfAllFrom(s[1..], p, if m == 0 then 0 else m - 1);
    }
  }

  /** Every element before position m satisfies p: at least m do. */
  lemma {:induction false} CountIfAllBefore(s: seq<real>, p: real -> bool, m: nat)
    requires m <= |s| && forall i :: 0 <= i < m ==> p(s[i])
    ensures CountIf(s, p) >= m
  {
    if m > 0 {
      CountIfAllBefore(s[1..], p, m - 1);
    }
  }

  function Below(x: real): real -> bool { y => y < x }
  function AtMost(x: real): real -> bool { y => y <= x }
  function Above(x: real): real -> bool { y => y > x }
  function AtLeast(x: real): real -> bool { y => y >= x }

  /** `x` is a k-th smallest value of `s` (counting from 1): fewer than k
      values lie below it and at least k lie at or below it. */
  predicate IsKthSmallest(s: seq<real>, k: int, x: real) {
    x in s && CountIf(s, Below(x)) < k <= CountIf(s, AtMost(x))
  }

  /** `x` is a k-th largest value of `s` (counting from 1). */
  predicate IsKthLargest(s: seq<real>, k: int, x: real) {
    x in s && CountIf(s, Above(x)) < k <= CountIf(s, AtLeast(x))
  }

  predicate Sorted(s: seq<real>) {
    forall i, j :: 0 <= i < j < |s| ==> s[i] <= s[j]
  }

  /** `x` inserted before the first larger element. */
  function Insert(x: real, s: seq<real>): seq<real>
  {
    if |s| == 0 || x <= s[0] then [x] + s else [s[0]] + Insert(x, s[1..])
  }

  lemma {:induction false} InsertPermutes(x: real, s: seq<real>)
    ensures multiset(Insert(x, s)) == multiset(s) + multiset{x}
    ensures |Insert(x, s)| == |s| + 1
  {
    if |s| > 0 && x > s[0] {
      InsertPermutes(x, s[1..]);
      assert s == [s[0]] + s[1..];
    }
  }

  /** Inserting a value no smaller than `b` among values no smaller than `b`
      keeps every value at least `b`. */
  lemma {:induction false} InsertAbove(x: real, s: seq<real>, b: real)
    requires b <= x && forall i :: 0 <= i < |s| ==> b <= s[i]
    ensures forall i :: 0 <= i < |Insert(x, s)| ==> b <= Insert(x, s)[i]
  {
    if |s| > 0 && x > s[0] {
      InsertAbove(x, s[1..], b);
      assert Insert(x, s) == [s[0]] + Insert(x, s[1..]);
    }
  }

  lemma {:induction false} InsertSorted(x: real, s: seq<real>)
    requires Sorted(s)
    ensures Sorted(Insert(x, s))
  {
    var r := Insert(x, s);
    if |s| == 0 || x <= s[0] {
      assert r == [x] + s;
    } else {
      var rest := Insert(x, s[1..]);
      InsertSorted(x, s[1..]);
      InsertAbove(x, s[1..], s[0]);
      assert r == [s[0]] + rest;
      forall i, j | 0 <= i < j < |r| ensures r[i] <= r[j] {
        if i > 0 {
          assert r[i] == rest[i - 1] && r[j] == rest[j - 1];
        } else {
          assert r[j] == rest[j - 1];
        }
      }
    }
  }

  lemma {:induction false} InsertCount(x: real, s: seq<real>, p: real -> bool)
    ensures CountIf(Insert(x, s), p) == (if p(x) then 1 else 0) + CountIf(s, p)
  {
    var r := Insert(x, s);
    if |s| == 0 || x <= s[0] {
      assert r[1..] == s;
    } else {
      InsertCount(x, s[1..], p);
      assert r[1..] == Insert(x, s[1..]);
    }
  }

  /** Inserting the head of `s` into a sorted permutation of its tail gives
      a sorted permutation of `s`. */
  lemma InsertStep(s: seq<real>, rest: seq<real>)
    requires |s| > 0 && Sorted(rest) && multiset(rest) == multiset(s[1..])
    ensures Sorted(Insert(s[0], rest)) && multiset(Insert(s[0], rest)) == multiset(s)
    ensures |Insert(s[0], rest)| == |s|
  {
    InsertSorted(s[0], rest);
    InsertPermutes(s[0], rest);
    assert s == [s[0]] + s[1..];
    assert multiset(s) == multiset(s[1..]) + multiset{s[0]};
    assert |rest| == |multiset(rest)| == |s[1..]|;
  }

  /** The values of `s` in ascending order. */
  function Sort(s: seq<real>): (r: seq<real>)
    ensures Sorted(r) && multiset(r) == multiset(s) && |r| == |s|
  {
    if |s| == 0 then []
    else
      var rest := Sort(s[1..]);
      InsertStep(s, rest);
      Insert(s[0], rest)
  }

  /** Sorting keeps every count. */
  lemma {:induction false} SortCount(s: seq<real>, p: real -> bool)
    ensures CountIf(Sort(s), p) == CountIf(s, p)
  {
    if |s| > 0 {
      SortCount(s[1..], p);
      InsertCount(s[0], Sort(s[1..]), p);
    }
  }

  /** In a sorted sequence, the value at position j has at most j values
      below it and at least j + 1 values at or below it. */
  lemma SortedPositionFromBelow(t: seq<real>, j: int)
    requires Sorted(t) && 0 <= j < |t|
    ensures CountIf(t, Below(t[j])) <= j
    ensures CountIf(t, AtMost(t[j])) >= j + 1
  {
    var x := t[j];
    forall i | j <= i < |t| ensures !Below(x)(t[i]) {
    }
    CountIfNoneFrom(t, Below(x), j);
    forall i | 0 <= i < j + 1 ensures AtMost(x)(t[i]) {
    }
    CountIfAllBefore(t, AtMost(x), j + 1);
  }

  /** ... and at most |t| - 1 - j values above it and at least |t| - j at or
      above it. */
  lemma SortedPositionFromAbove(t: seq<real>, j: int)
    requires Sorted(t) && 0 <= j < |t|
    ensures CountIf(t, Above(t[j])) <= |t| - 1 - j
    ensures CountIf(t, AtLeast(t[j])) >= |t| - j
  {
    var x := t[j];
    forall i | 0 <= i < j + 1 ensures !Above(x)(t[i]) {
    }
    CountIfNoneBefore(t, Above(x), j + 1);
    forall i | j <= i < |t| ensures AtLeast(x)(t[i]) {
    }
    CountIfAllFrom(t, AtLeast(x), j);
  }

  /** `topk(k, largest=False).values.max()`. */
  function KthSmallest(s: seq<real>, k: int): (x: real)
    requires 1 <= k <= |s|
    ensures IsKthSmallest(s, k, x)
  {
    var t := Sort(s);
    SortedPositionFromBelow(t, k - 1);
    SortCount(s, Below(t[k - 1]));
    SortCount(s, AtMost(t[k - 1]));
    assert t[k - 1] in multiset(s);
    t[k - 1]
  }

  /** `topk(k, largest=True).values.min()`. */
  function KthLargest(s: seq<real>, k: int): (x: real)
    requires 1 <= k <= |s|
    ensures IsKthLargest(s, k, x)
  {
    var t := Sort(s);
    SortedPositionFromAbove(t, |s| - k);
    SortCount(s, Above(t[|s| - k]));
    SortCount(s, AtLeast(t[|s| - k]));
    assert t[|s| - k] in multiset(s);
    t[|s| - k]
  }

  /** The minimum is the first smallest value. */
  lemma MinIsFirstSmallest(s: seq<real>)
    requires |s| > 0
    ensures IsKthSmallest(s, 1, MinOf(s))
  {
    var lo := MinOf(s);
    CountIfNone(s, Below(lo));
    var i :| 0 <= i < |s| && s[i] == lo;
    CountIfSome(s, AtMost(lo), i);
  }

  /** The maximum is the first largest value. */
  lemma MaxIsFirstLargest(s: seq<real>)
    requires |s| > 0
    ensures IsKthLargest(s, 1, MaxOf(s))
  {
    var hi := MaxOf(s);
    CountIfNone(s, Above(hi));
    var i :| 0 <= i < |s| && s[i] == hi;
    CountIfSome(s, AtLeast(hi), i);
  }

  /** `int(n * q) + 1` (q is non-negative, so the cast is a floor). */
  function Order(n: nat, q: real): int
    requires 0.0 <= q
  {
    (n as real * q).Floor + 1
  }

  /** For q in [0, 1) and n >= 1 the order lies in 1..n. */
  lemma OrderInRange(n: nat, q: real)
    requires 0.0 <= q < 1.0 && n >= 1
    ensures 1 <= Order(n, q) <= n
  {
    var x := n as real * q;
    assert 0.0 <= x < n as real by {
      assert n as real * q < n as real * 1.0;
    }
    assert x.Floor as real <= x;
  }

  /** The rank `quantile` asks for. */
  function QuantileRank(n: nat, q: real): int
    requires 0.0 < q < 1.0
  {
    if q > 0.5 then Order(n, 1.0 - q) else Order(n, q)
  }

  /** `v.quantile(q)`: q outside [0, 1] is refused; q = 0 and q = 1 give the
      minimum and maximum; otherwise the k-th smallest (q <= 0.5) or k-th
      largest (q > 0.5) voxel value.  A volume without voxels has no quantile. */
  function QuantileOf(v: Volume, q: real): (r: Result<real>)
    requires Valid(v)
    ensures (q < 0.0 || q > 1.0) ==> r == Err(QuantileOutOfRange)
    ensures 0.0 <= q <= 1.0 ==> (r.Err? <==> |Flatten(v.tensor)| == 0)
    ensures 0.0 <= q <= 1.0 && r.Err? ==> r.error == EmptyReduction
    ensures r.Ok? ==> exists c, p :: InBounds(v.tensor, c, p) && Get(v.tensor, c, p) == r.value
    ensures r.Ok? && q == 0.0 ==> forall c, p :: InBounds(v.tensor, c, p) ==> r.value <= Get(v.tensor, c, p)
    ensures r.Ok? && q == 1.0 ==> forall c, p :: InBounds(v.tensor, c, p) ==> Get(v.tensor, c, p) <= r.value
    ensures r.Ok? && 0.0 < q < 1.0 ==>
              1 <= QuantileRank(|Flatten(v.tensor)|, q) <= |Flatten(v.tensor)| &&
              (q <= 0.5 ==> IsKthSmallest(Flatten(v.tensor), QuantileRank(|Flatten(v.tensor)|, q), r.value)) &&
              (q > 0.5 ==> IsKthLargest(Flatten(v.tensor), QuantileRank(|Flatten(v.tensor)|, q), r.value))
  {
    var data := Flatten(v.tensor);
    var n := |data|;
    if q < 0.0 || q > 1.0 then Err(QuantileOutOfRange)
    else if n == 0 then Err(EmptyReduction)
    else if q == 0.0 then
      var m := MinOf(data);
      assert forall c, p :: InBounds(v.tensor, c, p) ==> Get(v.tensor, c, p) in data;
      Ok(m)
    else if q == 1.0 then
      var m := MaxOf(data);
      assert forall c, p :: InBounds(v.tensor, c, p) ==> Get(v.tensor, c, p) in data;
      Ok(m)
    else if q > 0.5 then
      var k := Order(n, 1.0 - q);
      OrderInRange(n, 1.0 - q);
      Ok(KthLargest(data, k))
    else
      var k := Order(n, q);
      OrderInRange(n, q);
      Ok(KthSmallest(data, k))
  }
}
