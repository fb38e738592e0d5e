/** Dense voxel tensors of shape (C, W, H, D) -- C channels over a W x H x D
    spatial grid -- and the few tensor operations the volume code performs on
    them: building, slicing, channel concatenation, flattening, masking and
    reduction over the channel axis.  The shape is kept beside the nested
    sequences because a sequence of length zero forgets the extents inside it. */
module Tensors {
  import opened Results
  import opened Geometry
  import opened Slicing

  datatype Tensor<T> = Tensor(channels: nat, size: Size3, vox: seq<seq<seq<seq<T>>>>)

  /** A 3-D (W, H, D) tensor: the input of the volume constructor when it has
      no channel axis, and the result of reducing over the channel axis. */
  datatype Grid<T> = Grid(size: Size3, vox: seq<seq<seq<T>>>)

  predicate InGrid(p: Int3, size: Int3) {
    0 <= p.x < size.x && 0 <= p.y < size.y && 0 <= p.z < size.z
  }

  predicate InBounds<T>(t: Tensor<T>, c: int, p: Int3) {
    0 <= c < t.channels && InGrid(p, t.size)
  }

  /** The nested sequences have exactly the extents the shape records. */
  predicate WellFormed<T>(t: Tensor<T>) {
    |t.vox| == t.channels && forall c :: 0 <= c < |t.vox| ==> CubeShaped(t.vox[c], t.size)
  }

  predicate CubeShaped<T>(s: seq<seq<seq<T>>>, size: Size3) {
    |s| == size.x && forall x :: 0 <= x < |s| ==> SquareShaped(s[x], size)
  }

  predicate SquareShaped<T>(s: seq<seq<T>>, size: Size3) {
    |s| == size.y && forall y :: 0 <= y < |s| ==> |s[y]| == size.z
  }

  predicate GridWellFormed<T>(g: Grid<T>) {
    && |g.vox| == g.size.x
    && (forall x :: 0 <= x < |g.vox| ==> |g.vox[x]| == g.size.y)
    && (forall x, y :: 0 <= x < |g.vox| && 0 <= y < |g.vox[x]| ==> |g.vox[x][y]| == g.size.z)
  }

  function Get<T>(t: Tensor<T>, c: int, p: Int3): T
    requires WellFormed(t) && InBounds(t, c, p)
  {
    t.vox[c][p.x][p.y][p.z]
  }

  function GridGet<T>(g: Grid<T>, p: Int3): T
    requires GridWellFormed(g) && InGrid(p, g.size)
  {
    g.vox[p.x][p.y][p.z]
  }

  /** Tensors of the same shape that agree voxel by voxel are equal. */
  lemma Extensionality<T>(a: Tensor<T>, b: Tensor<T>)
    requires WellFormed(a) && WellFormed(b) && a.channels == b.channels && a.size == b.size
    requires forall c, p :: InBounds(a, c, p) ==> Get(a, c, p) == Get(b, c, p)
    ensures a == b
  {
    forall c | 0 <= c < a.channels ensures a.vox[c] == b.vox[c] {
      forall x | 0 <= x < a.size.x ensures a.vox[c][x] == b.vox[c][x] {
        forall y | 0 <= y < a.size.y ensures a.vox[c][x][y] == b.vox[c][x][y] {
          forall z | 0 <= z < a.size.z ensures a.vox[c][x][y][z] == b.vox[c][x][y][z] {
            assert InBounds(a, c, Int3(x, y, z));
          }
        }
      }
    }
  }

  /** The tensor of the given shape whose voxel (c, p) is f(c, p). */
  function Build<T>(channels: nat, size: Size3, f: (int, Int3) --> T): (t: Tensor<T>)
    requires forall c, p :: 0 <= c < channels && InGrid(p, size) ==> f.requires(c, p)
    ensures WellFormed(t) && t.channels == channels && t.size == size
    ensures forall c, p :: InBounds(t, c, p) ==> Get(t, c, p) == f(c, p)
  {
    var vox := seq(channels, c requires 0 <= c < channels => BuildCube(size, p requires InGrid(p, size) => f(c, p)));
    var t := Tensor(channels, size, vox);
    forall c, p | InBounds(t, c, p) ensures Get(t, c, p) == f(c, p) {
      assert vox[c] == BuildCube(size, p requires InGrid(p, size) => f(c, p));
    }
    t
  }

  /** One channel of `Build`: the W x H x D block whose voxel p is g(p). */
  function BuildCube<T>(size: Size3, g: Int3 --> T): (s: seq<seq<seq<T>>>)
    requires forall p :: InGrid(p, size) ==> g.requires(p)
    ensures CubeShaped(s, size)
    ensures forall p :: InGrid(p, size) ==> s[p.x][p.y][p.z] == g(p)
  {
    seq(size.x, x requires 0 <= x < size.x =>
      BuildSquare(size, (y: int, z: int) requires 0 <= y < size.y && 0 <= z < size.z =>
        assert InGrid(Int3(x, y, z), size); g(Int3(x, y, z))))
  }

  /** One x-slice of `BuildCube`: the H x D block whose voxel (y, z) is h(y, z). */
  function BuildSquare<T>(size: Size3, h: (int, int) --> T): (s: seq<seq<T>>)
    requires forall y, z :: 0 <= y < size.y && 0 <= z < size.z ==> h.requires(y, z)
    ensures SquareShaped(s, size)
    ensures forall y, z :: 0 <= y < size.y && 0 <= z < size.z ==> s[y][z] == h(y, z)
  {
    seq(size.y, y requires 0 <= y < size.y => seq(size.z, z requires 0 <= z < size.z => h(y, z)))
  }

  /** The grid of the given shape whose voxel p is f(p). */
  function BuildGrid<T>(size: Size3, f: Int3 --> T): (g: Grid<T>)
    requires forall p :: InGrid(p, size) ==> f.requires(p)
    ensures GridWellFormed(g) && g.size == size
    ensures forall p :: InGrid(p, size) ==> GridGet(g, p) == f(p)
  {
    Grid(size,
      seq(size.x, x requires 0 <= x < size.x =>
        seq(size.y, y requires 0 <= y < size.y =>
          seq(size.z, z requires 0 <= z < size.z =>
            assert InGrid(Int3(x, y, z), size); f(Int3(x, y, z))))))
  }

  /** `tensor.unsqueeze(0)`: a grid becomes a one-channel tensor. */
  function Unsqueeze<T>(g: Grid<T>): (t: Tensor<T>)
    requires GridWellFormed(g)
    ensures WellFormed(t) && t.channels == 1 && t.size == g.size
    ensures forall p :: InGrid(p, g.size) ==> Get(t, 0, p) == GridGet(g, p)
  {
    Tensor(1, g.size, [g.vox])
  }

  /** `torch.full(shape, value)`. */
  function Full<T>(channels: nat, size: Size3, value: T): (t: Tensor<T>)
    ensures WellFormed(t) && t.channels == channels && t.size == size
    ensures forall c, p :: InBounds(t, c, p) ==> Get(t, c, p) == value
  {
    Build(channels, size, (c, p) => value)
  }

  // ---------------------------------------------------------------------------
  // slicing
  // ---------------------------------------------------------------------------

  /** One resolved slice per axis: channel, then the three spatial axes. */
  datatype Window = Window(c: Range, x: Range, y: Range, z: Range)

  predicate WindowFits<T>(w: Window, t: Tensor<T>) {
    Fits(w.c, t.channels) && Fits(w.x, t.size.x) && Fits(w.y, t.size.y) && Fits(w.z, t.size.z)
  }

  /** The spatial extent a window selects. */
  function WindowSize(w: Window): Size3 {
    Int3(w.x.count, w.y.count, w.z.count)
  }

  /** The source voxel that voxel `p` of the sliced tensor is taken from. */
  function Picked(w: Window, p: Int3): Int3 {
    Int3(Pick(w.x, p.x), Pick(w.y, p.y), Pick(w.z, p.z))
  }

  lemma PickedInside<T>(t: Tensor<T>, w: Window, c: int, p: Int3)
    requires WindowFits(w, t) && 0 <= c < w.c.count && InGrid(p, WindowSize(w))
    ensures InBounds(t, Pick(w.c, c), Picked(w, p))
  {
    PickInside(w.c, t.channels, c);
    PickInside(w.x, t.size.x, p.x);
    PickInside(w.y, t.size.y, p.y);
    PickInside(w.z, t.size.z, p.z);
  }

  /** `tensor[c0:c1:cs, x0:x1:xs, y0:y1:ys, z0:z1:zs]` once every slice has
      been resolved against its axis. */
  function Slice<T>(t: Tensor<T>, w: Window): (r: Tensor<T>)
    requires WellFormed(t) && WindowFits(w, t)
    ensures WellFormed(r) && r.channels == w.c.count && r.size == WindowSize(w)
    ensures forall c, p :: InBounds(r, c, p) ==>
              InBounds(t, Pick(w.c, c), Picked(w, p)) && Get(r, c, p) == Get(t, Pick(w.c, c), Picked(w, p))
  {
    var f := (c: int, p: Int3) requires 0 <= c < w.c.count && InGrid(p, WindowSize(w)) =>
      (PickedInside(t, w, c, p); Get(t, Pick(w.c, c), Picked(w, p)));
    var r := Build(w.c.count, WindowSize(w), f);
    forall c, p | InBounds(r, c, p)
      ensures InBounds(t, Pick(w.c, c), Picked(w, p)) && Get(r, c, p) == Get(t, Pick(w.c, c), Picked(w, p))
    {
      PickedInside(t, w, c, p);
      assert Get(r, c, p) == f(c, p);
    }
    r
  }

  // ---------------------------------------------------------------------------
  // channel concatenation
  // ---------------------------------------------------------------------------

  /** The number of channels of the first `k` tensors. */
  function ChannelsBefore<T>(ts: seq<Tensor<T>>, k: nat): nat
    requires k <= |ts|
  {
    if k == 0 then 0 else ts[0].channels + ChannelsBefore(ts[1..], k - 1)
  }

  /** `torch.cat(ts, dim=0)` for tensors over the same spatial grid. */
  function Cat<T>(ts: seq<Tensor<T>>, size: Size3): (r: Tensor<T>)
    requires forall k :: 0 <= k < |ts| ==> WellFormed(ts[k]) && ts[k].size == size
    ensures WellFormed(r) && r.size == size && r.channels == ChannelsBefore(ts, |ts|)
    ensures forall k, c, p :: 0 <= k < |ts| && InBounds(ts[k], c, p) ==>
              InBounds(r, ChannelsBefore(ts, k) + c, p) && Get(r, ChannelsBefore(ts, k) + c, p) == Get(ts[k], c, p)
  {
    if |ts| == 0 then Tensor(0, size, [])
    else
      var rest := Cat(ts[1..], size);
      var r := Tensor(ts[0].channels + rest.channels, size, ts[0].vox + rest.vox);
      ChannelConcat(ts[0], rest, r);
      forall k, c, p | 0 <= k < |ts| && InBounds(ts[k], c, p)
        ensures InBounds(r, ChannelsBefore(ts, k) + c, p) && Get(r, ChannelsBefore(ts, k) + c, p) == Get(ts[k], c, p)
      {
        if k > 0 {
          assert ts[1..][k - 1] == ts[k];
          assert ChannelsBefore(ts, k) == ts[0].channels + ChannelsBefore(ts[1..], k - 1);
        }
      }
      r
  }

  lemma ChannelConcat<T>(a: Tensor<T>, b: Tensor<T>, r: Tensor<T>)
    requires WellFormed(a) && WellFormed(b) && a.size == b.size
    requires r == Tensor(a.channels + b.channels, a.size, a.vox + b.vox)
    ensures WellFormed(r)
    ensures forall c, p :: InBounds(a, c, p) ==> InBounds(r, c, p) && Get(r, c, p) == Get(a, c, p)
    ensures forall c, p :: InBounds(b, c, p) ==> InBounds(r, a.channels + c, p) && Get(r, a.channels + c, p) == Get(b, c, p)
  {
    forall c | 0 <= c < |r.vox| ensures r.vox[c] == if c < a.channels then a.vox[c] else b.vox[c - a.channels] {
    }
  }

  // ---------------------------------------------------------------------------
  // flattening and boolean masks
  // ---------------------------------------------------------------------------

  /** The number of voxels of `channels` channels over a grid of `size`. */
  function Extent(channels: nat, size: Size3): nat {
    var a: nat := channels * size.x;
    var b: nat := a * size.y;
    b * size.z
  }

  /** The buffer position of voxel `p` of channel `c`. */
  function Flat(c: int, p: Int3, size: Size3): int {
    ((c * size.x + p.x) * size.y + p.y) * size.z + p.z
  }

  /** Multiplying by a non-negative number keeps the order. */
  lemma MulMono(a: int, b: int, n: int)
    requires a <= b && 0 <= n
    ensures a * n <= b * n
  {
    assert b * n - a * n == (b - a) * n;
  }

  /** One more mixed-radix digit keeps a position below the grown extent. */
  lemma Digit(a: int, r: int, m: int, n: int)
    requires 0 <= a < m && 0 <= r < n
    ensures 0 <= a * n + r < m * n
  {
    MulMono(0, a, n);
    MulMono(a + 1, m, n);
  }

  /** A mixed-radix digit and what precedes it are determined by the number. */
  lemma DigitUnique(a1: int, r1: int, a2: int, r2: int, n: int)
    requires 0 <= r1 < n && 0 <= r2 < n && a1 * n + r1 == a2 * n + r2
    ensures a1 == a2 && r1 == r2
  {
    if a1 > a2 {
      MulMono(a2 + 1, a1, n);
    } else if a1 < a2 {
      MulMono(a1 + 1, a2, n);
    }
  }

  /** Every voxel of the tensor has a position inside the buffer. */
  lemma FlatInside(channels: nat, size: Size3, c: int, p: Int3)
    requires 0 <= c < channels && InGrid(p, size)
    ensures 0 <= Flat(c, p, size) < Extent(channels, size)
  {
    Digit(c, p.x, channels, size.x);
    Digit(c * size.x + p.x, p.y, channels * size.x, size.y);
    Digit((c * size.x + p.x) * size.y + p.y, p.z, channels * size.x * size.y, size.z);
  }

  /** Distinct voxels have distinct positions. */
  lemma FlatUnique(size: Size3, c1: int, p1: Int3, c2: int, p2: Int3)
    requires InGrid(p1, size) && InGrid(p2, size) && Flat(c1, p1, size) == Flat(c2, p2, size)
    ensures c1 == c2 && p1 == p2
  {
    DigitUnique((c1 * size.x + p1.x) * size.y + p1.y, p1.z, (c2 * size.x + p2.x) * size.y + p2.y, p2.z, size.z);
    DigitUnique(c1 * size.x + p1.x, p1.y, c2 * size.x + p2.x, p2.y, size.y);
    DigitUnique(c1, p1.x, c2, p2.x, size.x);
  }

  /** Concatenation of a sequence of sequences. */
  function Join<T>(ss: seq<seq<T>>): seq<T> {
    if |ss| == 0 then [] else ss[0] + Join(ss[1..])
  }

  lemma {:induction false} JoinMember<T>(ss: seq<seq<T>>, v: T)
    ensures v in Join(ss) <==> exists i :: 0 <= i < |ss| && v in ss[i]
  {
    if |ss| > 0 {
      JoinMember(ss[1..], v);
      if v in Join(ss[1..]) {
        var i :| 0 <= i < |ss[1..]| && v in ss[1..][i];
        assert v in ss[i + 1];
      }
      if exists i :: 0 <= i < |ss| && v in ss[i] {
        var i :| 0 <= i < |ss| && v in ss[i];
        if i > 0 {
          assert v in ss[1..][i - 1];
        }
      }
    }
  }

  /** Pieces of one common length `n` laid end to end take `|ss| * n`. */
  lemma {:induction false} JoinLength<T>(ss: seq<seq<T>>, n: nat)
    requires forall i :: 0 <= i < |ss| ==> |ss[i]| == n
    ensures |Join(ss)| == |ss| * n
  {
    if |ss| > 0 {
      JoinLength(ss[1..], n);
      MulPred(|ss|, n);
    }
  }

  lemma MulPred(i: int, n: int)
    ensures i * n == (i - 1) * n + n
  {
  }

  /** Of pieces of one common length `n`, the `j`-th entry of piece `i`
      lands at `k == i * n + j` of their concatenation. */
  lemma {:induction false} JoinAt<T>(ss: seq<seq<T>>, n: nat, i: int, j: int, k: int)
    requires forall i :: 0 <= i < |ss| ==> |ss[i]| == n
    requires 0 <= i < |ss| && 0 <= j < n && k == i * n + j
    ensures 0 <= k < |Join(ss)| && Join(ss)[k] == ss[i][j]
  {
    MulMono(0, i, n);
    JoinLength(ss[1..], n);
    if i > 0 {
      MulPred(i, n);
      JoinAt(ss[1..], n, i - 1, j, k - n);
    }
  }

  /** The spatial rows (c, x, y) of a tensor, each a sequence over z. */
  function Rows<T>(t: Tensor<T>): seq<seq<T>> {
    Join(seq(|t.vox|, c requires 0 <= c < |t.vox| => Join(t.vox[c])))
  }

  /** There are `C * W * H` rows, each running along z. */
  lemma RowsLength<T>(t: Tensor<T>)
    requires WellFormed(t)
    ensures |Rows(t)| == t.channels * t.size.x * t.size.y
    ensures forall i :: 0 <= i < |Rows(t)| ==> |Rows(t)[i]| == t.size.z
  {
    var chans := seq(|t.vox|, c requires 0 <= c < |t.vox| => Join(t.vox[c]));
    forall c | 0 <= c < t.channels ensures |chans[c]| == t.size.x * t.size.y {
      JoinLength(t.vox[c], t.size.y);
    }
    JoinLength(chans, t.size.x * t.size.y);
    forall i | 0 <= i < |Rows(t)| ensures |Rows(t)[i]| == t.size.z {
      JoinMember(chans, Rows(t)[i]);
      var c :| 0 <= c < |chans| && Rows(t)[i] in chans[c];
      JoinMember(t.vox[c], Rows(t)[i]);
      var x :| 0 <= x < |t.vox[c]| && Rows(t)[i] in t.vox[c][x];
    }
  }

  lemma Regroup(c: int, w: int, x: int, h: int, y: int)
    ensures (c * w + x) * h + y == c * (w * h) + (x * h + y)
  {
  }

  /** Row (c, x, y) is the `(c * W + x) * H + y`-th. */
  lemma RowAt<T>(t: Tensor<T>, c: int, x: int, y: int)
    requires WellFormed(t) && 0 <= c < t.channels && 0 <= x < t.size.x && 0 <= y < t.size.y
    ensures 0 <= (c * t.size.x + x) * t.size.y + y < |Rows(t)|
    ensures Rows(t)[(c * t.size.x + x) * t.size.y + y] == t.vox[c][x][y]
  {
    var w, h := t.size.x, t.size.y;
    var chans := seq(|t.vox|, c requires 0 <= c < |t.vox| => Join(t.vox[c]));
    forall c' | 0 <= c' < t.channels ensures |chans[c']| == w * h {
      JoinLength(t.vox[c'], h);
    }
    JoinAt(t.vox[c], h, x, y, x * h + y);
    Digit(x, y, w, h);
    Regroup(c, w, x, h, y);
    JoinAt(chans, w * h, c, x * h + y, (c * w + x) * h + y);
  }

  /** Voxel (c, p) sits at `Flat(c, p, size)` of the concatenated rows. */
  lemma FlatAt<T>(t: Tensor<T>, c: int, p: Int3)
    requires WellFormed(t) && InBounds(t, c, p)
    ensures 0 <= Flat(c, p, t.size) < |Join(Rows(t))| && Join(Rows(t))[Flat(c, p, t.size)] == Get(t, c, p)
  {
    RowsLength(t);
    RowAt(t, c, p.x, p.y);
    JoinAt(Rows(t), t.size.z, (c * t.size.x + p.x) * t.size.y + p.y, p.z, Flat(c, p, t.size));
  }

  /** `tensor.flatten()`: every voxel, channel-major then x, y, z; voxel
      (c, p) sits at its place `Flat(c, p, size)` of the contiguous layout,
      and the result has exactly one place per voxel. */
  function Flatten<T(!new)>(t: Tensor<T>): (r: seq<T>)
    requires WellFormed(t)
    ensures |r| == Extent(t.channels, t.size)
    ensures forall c, p :: InBounds(t, c, p) ==>
              0 <= Flat(c, p, t.size) < |r| && r[Flat(c, p, t.size)] == Get(t, c, p)
    ensures forall v :: v in r <==> exists c, p :: InBounds(t, c, p) && Get(t, c, p) == v
  {
    var r := Join(Rows(t));
    RowsLength(t);
    JoinLength(Rows(t), t.size.z);
    forall c, p | InBounds(t, c, p)
      ensures 0 <= Flat(c, p, t.size) < |r| && r[Flat(c, p, t.size)] == Get(t, c, p)
    {
      FlatAt(t, c, p);
    }
    forall v ensures v in r <==> exists c, p :: InBounds(t, c, p) && Get(t, c, p) == v {
      FlattenMember(t, v);
    }
    r
  }

  lemma FlattenMember<T(!new)>(t: Tensor<T>, v: T)
    requires WellFormed(t)
    ensures v in Join(Rows(t)) <==> exists c, p :: InBounds(t, c, p) && Get(t, c, p) == v
  {
    var chans := seq(|t.vox|, c requires 0 <= c < |t.vox| => Join(t.vox[c]));
    JoinMember(Rows(t), v);
    if v in Join(Rows(t)) {
      var i :| 0 <= i < |Rows(t)| && v in Rows(t)[i];
      JoinMember(chans, Rows(t)[i]);
      var c :| 0 <= c < |chans| && Rows(t)[i] in chans[c];
      JoinMember(t.vox[c], Rows(t)[i]);
      var x :| 0 <= x < |t.vox[c]| && Rows(t)[i] in t.vox[c][x];
      var y :| 0 <= y < |t.vox[c][x]| && t.vox[c][x][y] == Rows(t)[i];
      var z :| 0 <= z < |t.vox[c][x][y]| && t.vox[c][x][y][z] == v;
      assert InBounds(t, c, Int3(x, y, z)) && Get(t, c, Int3(x, y, z)) == v;
    }
    if exists c, p :: InBounds(t, c, p) && Get(t, c, p) == v {
      var c, p :| InBounds(t, c, p) && Get(t, c, p) == v;
      var row := t.vox[c][p.x][p.y];
      assert v in row;
      JoinMember(t.vox[c], row);
      assert row in t.vox[c][p.x];
      JoinMember(chans, row);
      assert row in chans[c];
      assert row in Rows(t);
    }
  }

  /** The entries of `a` whose flag in `b` is set, in order. */
  function Filter<T>(a: seq<T>, b: seq<bool>): seq<T>
    requires |a| == |b|
  {
    if |a| == 0 then [] else (if b[0] then [a[0]] else []) + Filter(a[1..], b[1..])
  }

  lemma {:induction false} FilterMember<T>(a: seq<T>, b: seq<bool>, v: T)
    requires |a| == |b|
    ensures v in Filter(a, b) <==> exists i :: 0 <= i < |a| && b[i] && a[i] == v
  {
    if |a| > 0 {
      FilterMember(a[1..], b[1..], v);
      if exists i :: 0 <= i < |a| && b[i] && a[i] == v {
        var i :| 0 <= i < |a| && b[i] && a[i] == v;
        if i > 0 {
          assert b[1..][i - 1] && a[1..][i - 1] == v;
        }
      }
      if v in Filter(a[1..], b[1..]) {
        var i :| 0 <= i < |a[1..]| && b[1..][i] && a[1..][i] == v;
        assert b[i + 1] && a[i + 1] == v;
      }
    }
  }

  /** Filtering keeps one entry per set flag. */
  lemma {:induction false} FilterCount<T>(a: seq<T>, b: seq<bool>)
    requires |a| == |b|
    ensures |Filter(a, b)| == multiset(b)[true]
  {
    if |a| > 0 {
      FilterCount(a[1..], b[1..]);
      assert b == [b[0]] + b[1..];
    }
  }

  /** The `k`-th kept entry is the entry under the `k`-th set flag (counting
      from 0), so filtering keeps the order of `a`. */
  lemma {:induction false} FilterRank<T>(a: seq<T>, b: seq<bool>, k: int)
    requires |a| == |b| && 0 <= k < |Filter(a, b)|
    ensures exists i :: 0 <= i < |a| && b[i] && multiset(b[..i])[true] == k && Filter(a, b)[k] == a[i]
  {
    var head := if b[0] then [a[0]] else [];
    if b[0] && k == 0 {
      assert b[..0] == [];
    } else {
      var k' := k - |head|;
      FilterRank(a[1..], b[1..], k');
      var i :| 0 <= i < |a[1..]| && b[1..][i] && multiset(b[1..][..i])[true] == k' && Filter(a[1..], b[1..])[k'] == a[1..][i];
      assert b[..i + 1] == [b[0]] + b[1..][..i];
      assert b[i + 1] && Filter(a, b)[k] == a[i + 1];
    }
  }

  /** Filtering distributes over concatenation. */
  lemma {:induction false} FilterAppend<T>(a1: seq<T>, b1: seq<bool>, a2: seq<T>, b2: seq<bool>)
    requires |a1| == |b1| && |a2| == |b2|
    ensures Filter(a1 + a2, b1 + b2) == Filter(a1, b1) + Filter(a2, b2)
  {
    if |a1| > 0 {
      FilterAppend(a1[1..], b1[1..], a2, b2);
      assert (a1 + a2)[1..] == a1[1..] + a2;
      assert (b1 + b2)[1..] == b1[1..] + b2;
    } else {
      assert a1 + a2 == a2 && b1 + b2 == b2;
    }
  }

  /** Sequences of pieces, piece by piece of the same length. */
  predicate Matching<T, U>(xs: seq<seq<T>>, ys: seq<seq<U>>) {
    |xs| == |ys| && forall i :: 0 <= i < |xs| ==> |xs[i]| == |ys[i]|
  }

  /** Each piece filtered by its own flags. */
  function FilterEach<T>(xs: seq<seq<T>>, fs: seq<seq<bool>>): seq<seq<T>>
    requires Matching(xs, fs)
  {
    seq(|xs|, i requires 0 <= i < |xs| => Filter(xs[i], fs[i]))
  }

  lemma {:induction false} JoinMatching<T, U>(xs: seq<seq<T>>, ys: seq<seq<U>>)
    requires Matching(xs, ys)
    ensures |Join(xs)| == |Join(ys)|
  {
    if |xs| > 0 {
      JoinMatching(xs[1..], ys[1..]);
    }
  }

  /** Filtering the concatenation is concatenating the filtered pieces. */
  lemma {:induction false} FilterJoin<T>(xs: seq<seq<T>>, fs: seq<seq<bool>>)
    requires Matching(xs, fs)
    ensures |Join(xs)| == |Join(fs)|
    ensures Filter(Join(xs), Join(fs)) == Join(FilterEach(xs, fs))
  {
    JoinMatching(xs, fs);
    if |xs| > 0 {
      FilterJoin(xs[1..], fs[1..]);
      JoinMatching(xs[1..], fs[1..]);
      FilterAppend(xs[0], fs[0], Join(xs[1..]), Join(fs[1..]));
      assert FilterEach(xs, fs)[1..] == FilterEach(xs[1..], fs[1..]);
    }
  }

  lemma FilterEachAppend<T>(x: seq<seq<T>>, u: seq<seq<bool>>, y: seq<seq<T>>, v: seq<seq<bool>>)
    requires Matching(x, u) && Matching(y, v)
    ensures Matching(x + y, u + v)
    ensures FilterEach(x + y, u + v) == FilterEach(x, u) + FilterEach(y, v)
  {
    forall i | 0 <= i < |x + y| ensures |(x + y)[i]| == |(u + v)[i]| {
      if i >= |x| {
        assert (x + y)[i] == y[i - |x|] && (u + v)[i] == v[i - |x|];
      }
    }
  }

  /** Each group of pieces filtered piece by piece. */
  function FilterGroups<T>(xss: seq<seq<seq<T>>>, fss: seq<seq<seq<bool>>>): (r: seq<seq<seq<T>>>)
    requires |xss| == |fss| && forall i :: 0 <= i < |xss| ==> Matching(xss[i], fss[i])
    ensures |r| == |xss| && forall i :: 0 <= i < |xss| ==> r[i] == FilterEach(xss[i], fss[i])
  {
    seq(|xss|, i requires 0 <= i < |xss| => FilterEach(xss[i], fss[i]))
  }

  /** Filtering piece by piece commutes with joining groups of pieces. */
  lemma {:induction false} FilterEachJoin<T>(xss: seq<seq<seq<T>>>, fss: seq<seq<seq<bool>>>)
    requires |xss| == |fss| && forall i :: 0 <= i < |xss| ==> Matching(xss[i], fss[i])
    ensures Matching(Join(xss), Join(fss))
    ensures FilterEach(Join(xss), Join(fss)) == Join(FilterGroups(xss, fss))
  {
    if |xss| > 0 {
      FilterEachJoin(xss[1..], fss[1..]);
      FilterEachAppend(xss[0], fss[0], Join(xss[1..]), Join(fss[1..]));
      assert FilterGroups(xss, fss)[1..] == FilterGroups(xss[1..], fss[1..]);
    }
  }

  /** The tensors have the same shape. */
  predicate SameShape<T, U>(t: Tensor<T>, m: Tensor<U>) {
    t.channels == m.channels && t.size == m.size
  }

  /** Row (c, x, y) of `tensor[mask]`. */
  function RowSelect<T>(t: Tensor<T>, m: Tensor<bool>, c: int, x: int, y: int): seq<T>
    requires WellFormed(t) && WellFormed(m) && SameShape(t, m)
    requires 0 <= c < t.channels && 0 <= x < t.size.x && 0 <= y < t.size.y
  {
    Filter(t.vox[c][x][y], m.vox[c][x][y])
  }

  /** The selected rows of channel `c`, in (x, y) order. */
  function ChannelSelect<T>(t: Tensor<T>, m: Tensor<bool>, c: int): seq<seq<T>>
    requires WellFormed(t) && WellFormed(m) && SameShape(t, m) && 0 <= c < t.channels
  {
    Join(seq(t.size.x, x requires 0 <= x < t.size.x =>
      seq(t.size.y, y requires 0 <= y < t.size.y => RowSelect(t, m, c, x, y))))
  }

  /** The selected rows of every channel, channel-major. */
  function MaskedRows<T>(t: Tensor<T>, m: Tensor<bool>): seq<seq<T>>
    requires WellFormed(t) && WellFormed(m) && SameShape(t, m)
  {
    Join(seq(t.channels, c requires 0 <= c < t.channels => ChannelSelect(t, m, c)))
  }

  /** `tensor[mask]` for a boolean mask of the tensor's own shape: the voxels
      whose mask entry is set, channel-major then x, y, z.  It is the
      flattened tensor filtered by the flattened mask, so it holds one value
      per set mask entry, in the order of the contiguous layout. */
  function Masked<T(!new)>(t: Tensor<T>, m: Tensor<bool>): (r: seq<T>)
    requires WellFormed(t) && WellFormed(m) && SameShape(t, m)
    ensures |Flatten(t)| == |Flatten(m)| && r == Filter(Flatten(t), Flatten(m))
    ensures |r| == multiset(Flatten(m))[true]
    ensures forall v :: v in r <==> exists c, p :: InBounds(t, c, p) && Get(m, c, p) && Get(t, c, p) == v
  {
    var r := Join(MaskedRows(t, m));
    MaskedFlat(t, m);
    FilterCount(Flatten(t), Flatten(m));
    forall v ensures v in r <==> exists c, p :: InBounds(t, c, p) && Get(m, c, p) && Get(t, c, p) == v {
      MaskedMember(t, m, v);
    }
    r
  }

  /** Channel `c`'s selected rows are its rows, each filtered by its mask row. */
  lemma ChannelSelectFiltered<T>(t: Tensor<T>, m: Tensor<bool>, c: int)
    requires WellFormed(t) && WellFormed(m) && SameShape(t, m) && 0 <= c < t.channels
    ensures Matching(Join(t.vox[c]), Join(m.vox[c]))
    ensures ChannelSelect(t, m, c) == FilterEach(Join(t.vox[c]), Join(m.vox[c]))
  {
    var planes := seq(t.size.x, x requires 0 <= x < t.size.x =>
      seq(t.size.y, y requires 0 <= y < t.size.y => RowSelect(t, m, c, x, y)));
    forall x | 0 <= x < t.size.x ensures planes[x] == FilterEach(t.vox[c][x], m.vox[c][x]) {
    }
    FilterEachJoin(t.vox[c], m.vox[c]);
    assert planes == FilterGroups(t.vox[c], m.vox[c]);
  }

  /** The selected rows are the rows, each filtered by its mask row. */
  lemma MaskedRowsFiltered<T>(t: Tensor<T>, m: Tensor<bool>)
    requires WellFormed(t) && WellFormed(m) && SameShape(t, m)
    ensures Matching(Rows(t), Rows(m))
    ensures MaskedRows(t, m) == FilterEach(Rows(t), Rows(m))
  {
    var tc := seq(|t.vox|, c requires 0 <= c < |t.vox| => Join(t.vox[c]));
    var mc := seq(|m.vox|, c requires 0 <= c < |m.vox| => Join(m.vox[c]));
    forall c | 0 <= c < t.channels
      ensures Matching(tc[c], mc[c]) && ChannelSelect(t, m, c) == FilterEach(tc[c], mc[c])
    {
      ChannelSelectFiltered(t, m, c);
    }
    FilterEachJoin(tc, mc);
    assert seq(t.channels, c requires 0 <= c < t.channels => ChannelSelect(t, m, c)) == FilterGroups(tc, mc);
  }

  /** Selecting row by row is filtering the flattened tensor by the
      flattened mask. */
  lemma MaskedFlat<T(!new)>(t: Tensor<T>, m: Tensor<bool>)
    requires WellFormed(t) && WellFormed(m) && SameShape(t, m)
    ensures |Flatten(t)| == |Flatten(m)|
    ensures Join(MaskedRows(t, m)) == Filter(Flatten(t), Flatten(m))
  {
    MaskedRowsFiltered(t, m);
    FilterJoin(Rows(t), Rows(m));
  }

  lemma RowSelectMember<T>(t: Tensor<T>, m: Tensor<bool>, c: int, x: int, y: int, v: T)
    requires WellFormed(t) && WellFormed(m) && SameShape(t, m)
    requires 0 <= c < t.channels && 0 <= x < t.size.x && 0 <= y < t.size.y
    ensures v in RowSelect(t, m, c, x, y) <==>
      exists z :: InBounds(t, c, Int3(x, y, z)) && Get(m, c, Int3(x, y, z)) && Get(t, c, Int3(x, y, z)) == v
  {
    FilterMember(t.vox[c][x][y], m.vox[c][x][y], v);
    if v in RowSelect(t, m, c, x, y) {
      var z :| 0 <= z < |t.vox[c][x][y]| && m.vox[c][x][y][z] && t.vox[c][x][y][z] == v;
      assert InBounds(t, c, Int3(x, y, z));
    }
  }

  lemma ChannelSelectMember<T>(t: Tensor<T>, m: Tensor<bool>, c: int, row: seq<T>)
    requires WellFormed(t) && WellFormed(m) && SameShape(t, m) && 0 <= c < t.channels
    ensures row in ChannelSelect(t, m, c) <==>
      exists x, y :: 0 <= x < t.size.x && 0 <= y < t.size.y && RowSelect(t, m, c, x, y) == row
  {
    var planes := seq(t.size.x, x requires 0 <= x < t.size.x =>
      seq(t.size.y, y requires 0 <= y < t.size.y => RowSelect(t, m, c, x, y)));
    JoinMember(planes, row);
    if row in ChannelSelect(t, m, c) {
      var x :| 0 <= x < |planes| && row in planes[x];
      var y :| 0 <= y < t.size.y && planes[x][y] == row;
    }
    if exists x, y :: 0 <= x < t.size.x && 0 <= y < t.size.y && RowSelect(t, m, c, x, y) == row {
      var x, y :| 0 <= x < t.size.x && 0 <= y < t.size.y && RowSelect(t, m, c, x, y) == row;
      assert planes[x][y] == row;
    }
  }

  lemma MaskedMember<T(!new)>(t: Tensor<T>, m: Tensor<bool>, v: T)
    requires WellFormed(t) && WellFormed(m) && SameShape(t, m)
    ensures v in Join(MaskedRows(t, m)) <==> exists c, p :: InBounds(t, c, p) && Get(m, c, p) && Get(t, c, p) == v
  {
    var rows := MaskedRows(t, m);
    var chans := seq(t.channels, c requires 0 <= c < t.channels => ChannelSelect(t, m, c));
    JoinMember(rows, v);
    if v in Join(rows) {
      var i :| 0 <= i < |rows| && v in rows[i];
      JoinMember(chans, rows[i]);
      var c :| 0 <= c < |chans| && rows[i] in chans[c];
      ChannelSelectMember(t, m, c, rows[i]);
      var x, y :| 0 <= x < t.size.x && 0 <= y < t.size.y && RowSelect(t, m, c, x, y) == rows[i];
      RowSelectMember(t, m, c, x, y, v);
    }
    if exists c, p :: InBounds(t, c, p) && Get(m, c, p) && Get(t, c, p) == v {
      var c, p :| InBounds(t, c, p) && Get(m, c, p) && Get(t, c, p) == v;
      var row := RowSelect(t, m, c, p.x, p.y);
      RowSelectMember(t, m, c, p.x, p.y, v);
      ChannelSelectMember(t, m, c, row);
      assert row in chans[c];
      JoinMember(chans, row);
    }
  }

  /** A one-channel mask repeated over `channels` channels
      (`mask.expand(channels, -1, -1, -1)`). */
  function Expand<T>(m: Tensor<T>, channels: nat): (r: Tensor<T>)
    requires WellFormed(m) && m.channels == 1
    ensures WellFormed(r) && r.channels == channels && r.size == m.size
    ensures forall c, p :: InBounds(r, c, p) ==> Get(r, c, p) == Get(m, 0, p)
  {
    Build(channels, m.size, (c, p) requires InGrid(p, m.size) => Get(m, 0, p))
  }

  // ---------------------------------------------------------------------------
  // reductions
  // ---------------------------------------------------------------------------

  function MaxOf(s: seq<real>): (m: real)
    requires |s| > 0
    ensures m in s && forall i :: 0 <= i < |s| ==> s[i] <= m
  {
    if |s| == 1 then s[0]
    else
      var rest := MaxOf(s[1..]);
      assert forall i :: 1 <= i < |s| ==> s[i] == s[1..][i - 1];
      if s[0] >= rest then s[0] else rest
  }

  function MinOf(s: seq<real>): (m: real)
    requires |s| > 0
    ensures m in s && forall i :: 0 <= i < |s| ==> m <= s[i]
  {
    if |s| == 1 then s[0]
    else
      var rest := MinOf(s[1..]);
      assert forall i :: 1 <= i < |s| ==> s[i] == s[1..][i - 1];
      if s[0] <= rest then s[0] else rest
  }

  function SumOf(s: seq<real>): real {
    if |s| == 0 then 0.0 else s[0] + SumOf(s[1..])
  }

  /** The values of voxel `p` across the channels. */
  function ChannelValues(t: Tensor<real>, p: Int3): (r: seq<real>)
    requires WellFormed(t) && InGrid(p, t.size)
    ensures |r| == t.channels && forall c :: 0 <= c < t.channels ==> r[c] == Get(t, c, p)
  {
    seq(t.channels, c requires 0 <= c < t.channels => Get(t, c, p))
  }
}
