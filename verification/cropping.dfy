/** `crop` and `crop_to_nonzero`: a cropping argument (a slicing tuple or a
    bounding mesh) becomes four slices of the (C, W, H, D) tensor together
    with the lower voxel corner and stride that move the geometry, so that
    the cropped grid sits where it sat inside the original volume. */
module Cropping {
  import opened Results
  import opened Geometry
  import opened Slicing
  import opened Tensors
  import opened Volumes

  /** One item of a slicing tuple: an integer index or a slice. */
  datatype Item = Index(i: int) | Span(start: Option<int>, stop: Option<int>, step: Option<int>)

  /** `slice(None)`: the whole axis. */
  const All: Item := Span(None, None, None)

  /** What `crop` is given. A single index or slice is wrapped into a tuple
      of one item. Mesh vertices are given in voxel coordinates. */
  datatype Cropping =
    | Items(items: seq<Item>)
    | Mesh(vertices: seq<Vec3>)
    | Unsupported

  /** A resolved crop: the four slicing items applied to the tensor, the
      inclusive voxel corners they stand for, and the stride, if any. */
  datatype Plan = Plan(slicing: seq<Item>, minc: Int3, maxc: Int3, stride: Option<Int3>)

  // ---------------------------------------------------------------------------
  // slicing items
  // ---------------------------------------------------------------------------

  /** The tuple padded with whole-axis slices to one item per axis. */
  function Expand(items: seq<Item>): (r: Result<seq<Item>>)
    ensures r.Err? <==> |items| > 4
    ensures r.Err? ==> r.error == TooManyIndices
    ensures r.Ok? ==> |r.value| == 4 && r.value[..|items|] == items
    ensures r.Ok? ==> forall k :: |items| <= k < 4 ==> r.value[k] == All
  {
    if |items| > 4 then Err(TooManyIndices) else Ok(items + seq(4 - |items|, _ => All))
  }

  /** The step of an item; an index or a slice without step moves by one. */
  function StepOf(it: Item): int {
    if it.Span? && it.step.Some? then it.step.value else 1
  }

  /** The tuple holds an integer index on a spatial axis. */
  predicate SpatialIndexIn(items: seq<Item>) {
    exists k :: 1 <= k < |items| && items[k].Index?
  }

  /** The indices one item picks from an axis of length `n`: an integer
      index keeps one index, counted from the end when negative. */
  function ResolveItem(it: Item, n: nat): (r: Result<Range>)
    ensures r.Ok? ==> Fits(r.value, n)
    ensures it.Index? ==> (r.Err? <==> !(-(n as int) <= it.i < n))
    ensures it.Index? && r.Err? ==> r.error == IndexOutOfRange
    ensures it.Index? && r.Ok? ==> r.value.count == 1 && (Pick(r.value, 0) == it.i || Pick(r.value, 0) == it.i + n)
    ensures it.Span? ==> (r.Err? <==> StepOf(it) < 1)
    ensures it.Span? && r.Err? ==> r.error == BadStep
    ensures it.Span? && r.Ok? ==> r.value == Resolve(it.start, it.stop, StepOf(it), n)
  {
    match it
    case Index(i) =>
      if -(n as int) <= i < n then Ok(Range(if i < 0 then i + n else i, 1, 1)) else Err(IndexOutOfRange)
    case Span(start, stop, _) =>
      if StepOf(it) < 1 then Err(BadStep) else Ok(Resolve(start, stop, StepOf(it), n))
  }

  /** `tensor[slicing]` resolved against the tensor's four axes; the first
      item that does not apply is the error. */
  function WindowOf(slicing: seq<Item>, t: Tensor<real>): (r: Result<Window>)
    requires |slicing| == 4
    ensures r.Ok? ==> WindowFits(r.value, t)
    ensures r.Ok? <==> ResolveItem(slicing[0], t.channels).Ok? && ResolveItem(slicing[1], t.size.x).Ok? &&
                       ResolveItem(slicing[2], t.size.y).Ok? && ResolveItem(slicing[3], t.size.z).Ok?
    ensures r.Ok? ==> Ok(r.value.c) == ResolveItem(slicing[0], t.channels) && Ok(r.value.x) == ResolveItem(slicing[1], t.size.x) &&
                      Ok(r.value.y) == ResolveItem(slicing[2], t.size.y) && Ok(r.value.z) == ResolveItem(slicing[3], t.size.z)
    ensures r.Err? ==> r.error == IndexOutOfRange || r.error == BadStep
  {
    var c, x := ResolveItem(slicing[0], t.channels), ResolveItem(slicing[1], t.size.x);
    var y, z := ResolveItem(slicing[2], t.size.y), ResolveItem(slicing[3], t.size.z);
    if c.Err? then Err(c.error)
    else if x.Err? then Err(x.error)
    else if y.Err? then Err(y.error)
    else if z.Err? then Err(z.error)
    else Ok(Window(c.value, x.value, y.value, z.value))
  }

  // ---------------------------------------------------------------------------
  // corners and slices
  // ---------------------------------------------------------------------------

  /** The stride a geometry is scaled by; none leaves every axis at one. */
  function StrideOf(stride: Option<Int3>): Int3 {
    if stride.Some? then stride.value else One3
  }

  /** One spatial slice `lo:hi+1:step` from inclusive corners. */
  function CornerSpan(lo: int, hi: int, step: Option<int>): Item {
    Span(Some(lo), Some(hi + 1), step)
  }

  /** The three spatial slices from inclusive voxel corners and a stride. */
  function CoordinatesToSlicing(minc: Int3, maxc: Int3, stride: Option<Int3>): (r: seq<Item>)
    ensures |r| == 3 && r[0].Span? && r[1].Span? && r[2].Span?
    ensures StepOf(r[0]) == StrideOf(stride).x && StepOf(r[1]) == StrideOf(stride).y && StepOf(r[2]) == StrideOf(stride).z
  {
    [CornerSpan(minc.x, maxc.x, if stride.Some? then Some(stride.value.x) else None),
     CornerSpan(minc.y, maxc.y, if stride.Some? then Some(stride.value.y) else None),
     CornerSpan(minc.z, maxc.z, if stride.Some? then Some(stride.value.z) else None)]
  }

  /** The inclusive voxel corners and stride of three spatial slices over a
      grid of shape `n`; the stride is present when some slice has a step. */
  function SlicingToCoordinates(spatial: seq<Item>, n: Size3): (r: (Int3, Int3, Option<Int3>))
    requires |spatial| == 3 && spatial[0].Span? && spatial[1].Span? && spatial[2].Span?
    ensures StrideOf(r.2) == Int3(StepOf(spatial[0]), StepOf(spatial[1]), StepOf(spatial[2]))
    ensures Zero3.x <= r.0.x && Zero3.y <= r.0.y && Zero3.z <= r.0.z
    ensures r.1.x < n.x && r.1.y < n.y && r.1.z < n.z
    ensures r.0 == Int3(Bound(spatial[0].start, 0, n.x), Bound(spatial[1].start, 0, n.y), Bound(spatial[2].start, 0, n.z))
    ensures r.1 == Int3(Bound(spatial[0].stop, n.x, n.x) - 1, Bound(spatial[1].stop, n.y, n.y) - 1, Bound(spatial[2].stop, n.z, n.z) - 1)
  {
    var lo := Int3(Bound(spatial[0].start, 0, n.x), Bound(spatial[1].start, 0, n.y), Bound(spatial[2].start, 0, n.z));
    var hi := Int3(Bound(spatial[0].stop, n.x, n.x) - 1, Bound(spatial[1].stop, n.y, n.y) - 1, Bound(spatial[2].stop, n.z, n.z) - 1);
    var stepped := spatial[0].step.Some? || spatial[1].step.Some? || spatial[2].step.Some?;
    (lo, hi, if stepped then Some(Int3(StepOf(spatial[0]), StepOf(spatial[1]), StepOf(spatial[2]))) else None)
  }

  /** Every component raised to at least zero. */
  function ClampBelow(v: Int3): (r: Int3)
    ensures 0 <= r.x && 0 <= r.y && 0 <= r.z
    ensures 0 <= v.x && 0 <= v.y && 0 <= v.z ==> r == v
  {
    Int3(Max(v.x, 0), Max(v.y, 0), Max(v.z, 0))
  }

  /** Every component lowered to at most the grid's extent. */
  function ClampAbove(v: Int3, n: Size3): (r: Int3)
    ensures r.x <= n.x && r.y <= n.y && r.z <= n.z
    ensures v.x <= n.x && v.y <= n.y && v.z <= n.z ==> r == v
  {
    Int3(Min(v.x, n.x), Min(v.y, n.y), Min(v.z, n.z))
  }

  // ---------------------------------------------------------------------------
  // the bounding box of a mesh
  // ---------------------------------------------------------------------------

  function Ceil(x: real): (r: int)
    ensures x <= r as real < x + 1.0
  {
    -((-x).Floor)
  }

  function Floor(x: real): (r: int)
    ensures r as real <= x < r as real + 1.0
  {
    x.Floor
  }

  /** An integer lies in [ceil(lo), floor(hi)] exactly when it lies in [lo, hi]. */
  lemma IntegerBetween(lo: real, hi: real, i: int)
    ensures Ceil(lo) <= i <= Floor(hi) <==> lo <= i as real <= hi
  {
    if lo <= i as real {
      assert (Ceil(lo) as real) < (i as real) + 1.0;
    }
    if i as real <= hi {
      assert (i as real) < (Floor(hi) as real) + 1.0;
    }
  }

  function Xs(vs: seq<Vec3>): seq<real> { seq(|vs|, i requires 0 <= i < |vs| => vs[i].x) }
  function Ys(vs: seq<Vec3>): seq<real> { seq(|vs|, i requires 0 <= i < |vs| => vs[i].y) }
  function Zs(vs: seq<Vec3>): seq<real> { seq(|vs|, i requires 0 <= i < |vs| => vs[i].z) }

  /** The voxel coordinate of every vertex lies within [lo, hi]. */
  predicate Encloses(vs: seq<Vec3>, p: Int3) {
    |vs| > 0 &&
    MinOf(Xs(vs)) <= p.x as real <= MaxOf(Xs(vs)) &&
    MinOf(Ys(vs)) <= p.y as real <= MaxOf(Ys(vs)) &&
    MinOf(Zs(vs)) <= p.z as real <= MaxOf(Zs(vs))
  }

  /** `points.amin(0).ceil()`: the lowest voxel inside the vertices' box. */
  function MeshLow(vs: seq<Vec3>): Int3
    requires |vs| > 0
  {
    Int3(Ceil(MinOf(Xs(vs))), Ceil(MinOf(Ys(vs))), Ceil(MinOf(Zs(vs))))
  }

  /** `points.amax(0).floor()`: the highest voxel inside the vertices' box. */
  function MeshHigh(vs: seq<Vec3>): Int3
    requires |vs| > 0
  {
    Int3(Floor(MaxOf(Xs(vs))), Floor(MaxOf(Ys(vs))), Floor(MaxOf(Zs(vs))))
  }

  /** The integer corners from a mesh bound exactly the voxels whose centres
      lie in the axis-aligned box of its vertices. */
  lemma MeshCorners(vs: seq<Vec3>, p: Int3)
    requires |vs| > 0
    ensures Encloses(vs, p) <==>
              MeshLow(vs).x <= p.x <= MeshHigh(vs).x && MeshLow(vs).y <= p.y <= MeshHigh(vs).y &&
              MeshLow(vs).z <= p.z <= MeshHigh(vs).z
  {
    IntegerBetween(MinOf(Xs(vs)), MaxOf(Xs(vs)), p.x);
    IntegerBetween(MinOf(Ys(vs)), MaxOf(Ys(vs)), p.y);
    IntegerBetween(MinOf(Zs(vs)), MaxOf(Zs(vs)), p.z);
  }

  // ---------------------------------------------------------------------------
  // planning a crop
  // ---------------------------------------------------------------------------

  /** On one spatial axis the slice is a span stepping by `step`, and when
      it picks anything it starts at the corner `lo`. */
  predicate AxisConsistent(it: Item, n: nat, lo: int, step: int) {
    it.Span? && StepOf(it) == step && step >= 1 &&
    (Resolve(it.start, it.stop, step, n).count > 0 ==> Resolve(it.start, it.stop, step, n).start == lo)
  }

  /** The geometry moves with the slicing on every spatial axis. */
  predicate Consistent(plan: Plan, n: Size3) {
    |plan.slicing| == 4 &&
    AxisConsistent(plan.slicing[1], n.x, plan.minc.x, StrideOf(plan.stride).x) &&
    AxisConsistent(plan.slicing[2], n.y, plan.minc.y, StrideOf(plan.stride).y) &&
    AxisConsistent(plan.slicing[3], n.z, plan.minc.z, StrideOf(plan.stride).z)
  }

  /** A slice rebuilt from a non-negative corner starts at that corner
      whenever it picks anything. */
  lemma CornerSpanConsistent(lo: int, hi: int, step: Option<int>, n: nat)
    requires lo >= 0 && (step.Some? ==> step.value >= 1)
    ensures AxisConsistent(CornerSpan(lo, hi, step), n, lo, StepOf(CornerSpan(lo, hi, step)))
  {
    var it := CornerSpan(lo, hi, step);
    var r := Resolve(it.start, it.stop, StepOf(it), n);
    if r.count > 0 {
      assert Pick(r, 0) < Bound(it.stop, n, n) <= n;
    }
  }

  /** The corners given with a margin: widened by it, then clamped to
      [0, baseshape]. */
  function Widened(minc: Int3, maxc: Int3, margin: Int3, n: Size3): (r: (Int3, Int3))
    ensures 0 <= r.0.x && 0 <= r.0.y && 0 <= r.0.z
    ensures r.1.x <= n.x && r.1.y <= n.y && r.1.z <= n.z
  {
    (ClampBelow(Minus(minc, margin)), ClampAbove(Plus(maxc, margin), n))
  }

  /** The mesh branch: the vertices' integer box, widened by the margin,
      clamped, sliced with every channel and no stride. */
  function MeshPlan(vs: seq<Vec3>, margin: Option<Int3>, n: Size3): (r: Result<Plan>)
    ensures r.Err? <==> |vs| == 0
    ensures r.Err? ==> r.error == EmptyMesh
    ensures r.Ok? ==> Consistent(r.value, n) && r.value.slicing[0] == All && r.value.stride.None?
    ensures r.Ok? ==> 0 <= r.value.minc.x && 0 <= r.value.minc.y && 0 <= r.value.minc.z
    ensures r.Ok? ==> r.value.maxc.x <= n.x && r.value.maxc.y <= n.y && r.value.maxc.z <= n.z
    ensures r.Ok? && margin.None? ==> r.value.minc == ClampBelow(MeshLow(vs)) && r.value.maxc == ClampAbove(MeshHigh(vs), n)
    ensures r.Ok? && margin.Some? ==>
              r.value.minc == ClampBelow(Minus(MeshLow(vs), margin.value)) &&
              r.value.maxc == ClampAbove(Plus(MeshHigh(vs), margin.value), n)
    ensures r.Ok? ==> r.value.slicing == [All] + CoordinatesToSlicing(r.value.minc, r.value.maxc, None)
  {
    if |vs| == 0 then Err(EmptyMesh)
    else
      var lo, hi := MeshLow(vs), MeshHigh(vs);
      var corners := if margin.Some? then Widened(lo, hi, margin.value, n) else (ClampBelow(lo), ClampAbove(hi, n));
      var spatial := CoordinatesToSlicing(corners.0, corners.1, None);
      CornerSpanConsistent(corners.0.x, corners.1.x, None, n.x);
      CornerSpanConsistent(corners.0.y, corners.1.y, None, n.y);
      CornerSpanConsistent(corners.0.z, corners.1.z, None, n.z);
      Ok(Plan([All] + spatial, corners.0, corners.1, None))
  }

  /** A span's slice is the same as the one rebuilt from its own corners. */
  lemma SpanFromCorners(it: Item, n: nat)
    requires it.Span? && StepOf(it) >= 1
    ensures var lo, hi := Bound(it.start, 0, n), Bound(it.stop, n, n) - 1;
            Resolve(Some(lo), Some(hi + 1), StepOf(it), n) == Resolve(it.start, it.stop, StepOf(it), n)
  {
  }

  /** Four items whose spatial ones are slices with a positive step. */
  predicate Stepped(slicing: seq<Item>) {
    |slicing| == 4 && slicing[1].Span? && slicing[2].Span? && slicing[3].Span? &&
    StepOf(slicing[1]) >= 1 && StepOf(slicing[2]) >= 1 && StepOf(slicing[3]) >= 1
  }

  /** The corners and stride of a tuple's spatial slices; with a margin, the
      spatial slices rebuilt from the widened, clamped corners. */
  function Reslice(slicing: seq<Item>, margin: Option<Int3>, n: Size3): (p: Plan)
    requires Stepped(slicing)
    ensures Consistent(p, n) && p.slicing[0] == slicing[0]
    ensures p.stride == SlicingToCoordinates(slicing[1..], n).2
    ensures margin.None? ==> p.slicing == slicing
    ensures var c := SlicingToCoordinates(slicing[1..], n);
            margin.None? ==> p.minc == c.0 && p.maxc == c.1
    ensures var c := SlicingToCoordinates(slicing[1..], n);
            margin.Some? ==>
              p.minc == ClampBelow(Minus(c.0, margin.value)) && p.maxc == ClampAbove(Plus(c.1, margin.value), n) &&
              p.slicing == [slicing[0]] + CoordinatesToSlicing(p.minc, p.maxc, p.stride)
    ensures margin.Some? ==> 0 <= p.minc.x && 0 <= p.minc.y && 0 <= p.minc.z
    ensures margin.Some? ==> p.maxc.x <= n.x && p.maxc.y <= n.y && p.maxc.z <= n.z
  {
    var coords := SlicingToCoordinates(slicing[1..], n);
    var minc, maxc, stride := coords.0, coords.1, coords.2;
    if margin.None? then
      KeptConsistent(slicing, n);
      Plan(slicing, minc, maxc, stride)
    else
      var corners := Widened(minc, maxc, margin.value, n);
      var spatial := CoordinatesToSlicing(corners.0, corners.1, stride);
      WidenedConsistent(slicing[0], corners.0, corners.1, stride, n);
      Plan([slicing[0]] + spatial, corners.0, corners.1, stride)
  }

  /** Kept slices start at their own lower corners. */
  lemma KeptConsistent(slicing: seq<Item>, n: Size3)
    requires Stepped(slicing)
    ensures var c := SlicingToCoordinates(slicing[1..], n);
            Consistent(Plan(slicing, c.0, c.1, c.2), n)
  {
    SpanFromCorners(slicing[1], n.x);
    SpanFromCorners(slicing[2], n.y);
    SpanFromCorners(slicing[3], n.z);
  }

  /** Slices rebuilt from non-negative corners start at those corners. */
  lemma WidenedConsistent(channel: Item, lo: Int3, hi: Int3, stride: Option<Int3>, n: Size3)
    requires 0 <= lo.x && 0 <= lo.y && 0 <= lo.z
    requires stride.Some? ==> stride.value.x >= 1 && stride.value.y >= 1 && stride.value.z >= 1
    ensures Consistent(Plan([channel] + CoordinatesToSlicing(lo, hi, stride), lo, hi, stride), n)
  {
    var spatial := CoordinatesToSlicing(lo, hi, stride);
    CornerSpanConsistent(lo.x, hi.x, spatial[0].step, n.x);
    CornerSpanConsistent(lo.y, hi.y, spatial[1].step, n.y);
    CornerSpanConsistent(lo.z, hi.z, spatial[2].step, n.z);
  }

  /** The tuple padded to four items, with spatial integer indices and
      steps below one refused. */
  function Checked(items: seq<Item>): (r: Result<seq<Item>>)
    ensures |items| > 4 ==> r == Err(TooManyIndices)
    ensures |items| <= 4 && SpatialIndexIn(items) ==> r == Err(SpatialIndex)
    ensures r.Err? ==> r.error == TooManyIndices || r.error == SpatialIndex || r.error == BadStep
    ensures r.Ok? ==> Stepped(r.value) && |items| <= 4 && !SpatialIndexIn(items)
    ensures r.Ok? ==> r.value[0] == (if |items| > 0 then items[0] else All)
  {
    match Expand(items)
    case Err(e) => Err(e)
    case Ok(slicing) =>
      if slicing[1].Index? || slicing[2].Index? || slicing[3].Index? then
        assert SpatialIndexIn(items) by {
          if slicing[1].Index? { assert items[1] == slicing[1]; }
          else if slicing[2].Index? { assert items[2] == slicing[2]; }
          else { assert items[3] == slicing[3]; }
        }
        Err(SpatialIndex)
      else
        assert !SpatialIndexIn(items) by {
          forall k | 1 <= k < |items| ensures !items[k].Index? {
            assert items[k] == slicing[k];
          }
        }
        assert slicing[0] == (if |items| > 0 then items[0] else All);
        if StepOf(slicing[1]) < 1 || StepOf(slicing[2]) < 1 || StepOf(slicing[3]) < 1 then Err(BadStep)
        else Ok(slicing)
  }

  /** The tuple branch: the checked items, resliced with the margin. */
  function TuplePlan(items: seq<Item>, margin: Option<Int3>, n: Size3): (r: Result<Plan>)
    ensures r.Ok? <==> Checked(items).Ok?
    ensures r.Ok? ==> Consistent(r.value, n) && r.value.slicing[0] == Checked(items).value[0]
    ensures r.Ok? ==> r.value.stride == SlicingToCoordinates(Checked(items).value[1..], n).2
    ensures r.Ok? && margin.None? ==> r.value.slicing == Checked(items).value
    ensures r.Ok? ==> var c := SlicingToCoordinates(Checked(items).value[1..], n);
                      margin.None? ==> r.value.minc == c.0 && r.value.maxc == c.1
    ensures r.Ok? ==> var c := SlicingToCoordinates(Checked(items).value[1..], n);
                      margin.Some? ==>
                        r.value.minc == ClampBelow(Minus(c.0, margin.value)) &&
                        r.value.maxc == ClampAbove(Plus(c.1, margin.value), n) &&
                        r.value.slicing == [r.value.slicing[0]] + CoordinatesToSlicing(r.value.minc, r.value.maxc, r.value.stride)
    ensures r.Ok? && margin.Some? ==> 0 <= r.value.minc.x && 0 <= r.value.minc.y && 0 <= r.value.minc.z
    ensures r.Ok? && margin.Some? ==> r.value.maxc.x <= n.x && r.value.maxc.y <= n.y && r.value.maxc.z <= n.z
  {
    match Checked(items)
    case Err(e) => Err(e)
    case Ok(slicing) => Ok(Reslice(slicing, margin, n))
  }

  /** The plan for any cropping argument over a grid of shape `n`. */
  function PlanCrop(cropping: Cropping, margin: Option<Int3>, n: Size3): (r: Result<Plan>)
    ensures r.Ok? ==> Consistent(r.value, n)
  {
    match cropping
    case Mesh(vs) => MeshPlan(vs, margin, n)
    case Items(items) => TuplePlan(items, margin, n)
    case Unsupported => Err(UnknownCropping)
  }

  // ---------------------------------------------------------------------------
  // cutting
  // ---------------------------------------------------------------------------

  /** The cropped geometry: shifted to the lower corner when that is not the
      origin, then scaled by the stride when there is one. */
  function Moved(a: Affine, minc: Int3, stride: Option<Int3>): (r: Affine)
    ensures minc == Zero3 && stride.None? ==> r == a
  {
    var shifted := if minc != Zero3 then ShiftVoxel(a, minc) else a;
    if stride.Some? then ScaleVoxel(shifted, stride.value) else shifted
  }

  /** Voxel `p` of the moved geometry is where voxel `minc + p * stride`
      was: skipping the shift at the origin loses nothing. */
  lemma MovedWorld(a: Affine, minc: Int3, stride: Option<Int3>, p: Int3)
    ensures WorldOf(Moved(a, minc, stride), p) == WorldOf(a, Plus(Times(p, StrideOf(stride)), minc))
  {
    var shifted := if minc != Zero3 then ShiftVoxel(a, minc) else a;
    var q := Times(p, StrideOf(stride));
    if stride.Some? {
      ScaleVoxelWorld(shifted, stride.value, p);
    } else {
      assert q == p;
    }
    if minc != Zero3 {
      ShiftVoxelWorld(a, minc, q);
    } else {
      assert Plus(q, minc) == q;
    }
  }

  /** Applying a plan: slice the tensor and give the result a geometry over
      the sliced grid that has moved with the slices. */
  function Cut(v: Volume, plan: Plan): (r: Result<Volume>)
    requires Valid(v) && |plan.slicing| == 4
    ensures r.Err? <==> WindowOf(plan.slicing, v.tensor).Err?
    ensures r.Err? ==> r.error == WindowOf(plan.slicing, v.tensor).error
    ensures r.Ok? ==> Valid(r.value) && r.value.tensor == Slice(v.tensor, WindowOf(plan.slicing, v.tensor).value)
    ensures r.Ok? ==> r.value.geometry.matrix == Moved(v.geometry.matrix, plan.minc, plan.stride)
  {
    match WindowOf(plan.slicing, v.tensor)
    case Err(e) => Err(e)
    case Ok(w) =>
      var t := Slice(v.tensor, w);
      var g := Geometry(t.size, Moved(v.geometry.matrix, plan.minc, plan.stride));
      NewWithGeometry(v, t, g);
      New(v, Channelled(t), Some(g))
  }

  /** `volume.crop(cropping, margin)`, with the margin already in voxels. */
  function Crop(v: Volume, cropping: Cropping, margin: Option<Int3>): (r: Result<Volume>)
    requires Valid(v)
    ensures cropping.Unsupported? ==> r == Err(UnknownCropping)
    ensures cropping.Mesh? && |cropping.vertices| == 0 ==> r == Err(EmptyMesh)
    ensures cropping.Items? && |cropping.items| > 4 ==> r == Err(TooManyIndices)
    ensures cropping.Items? && |cropping.items| <= 4 && SpatialIndexIn(cropping.items) ==> r == Err(SpatialIndex)
    ensures r.Ok? ==> Valid(r.value) && PlanCrop(cropping, margin, v.tensor.size).Ok?
    ensures r.Ok? ==> var plan := PlanCrop(cropping, margin, v.tensor.size).value;
                      r.value.geometry.matrix == Moved(v.geometry.matrix, plan.minc, plan.stride)
  {
    match PlanCrop(cropping, margin, v.tensor.size)
    case Err(e) => Err(e)
    case Ok(plan) => Cut(v, plan)
  }

  /** The window a successful crop slices the tensor with. */
  function CropWindow(v: Volume, cropping: Cropping, margin: Option<Int3>): (w: Window)
    requires Valid(v) && Crop(v, cropping, margin).Ok?
    ensures WindowFits(w, v.tensor)
  {
    WindowOf(PlanCrop(cropping, margin, v.tensor.size).value.slicing, v.tensor).value
  }

  /** On an axis where the slice picks index `i`, the picked index is where
      the moved geometry puts voxel `i`. */
  lemma AxisPick(it: Item, n: nat, lo: int, step: int, i: int)
    requires AxisConsistent(it, n, lo, step)
    requires 0 <= i < Resolve(it.start, it.stop, step, n).count
    ensures Pick(Resolve(it.start, it.stop, step, n), i) == i * step + lo
  {
  }

  /** The voxel a consistent plan's window picks for `p` is the one the
      moved geometry puts at `p`. */
  lemma PickedMoved(plan: Plan, w: Window, n: Size3, p: Int3)
    requires Consistent(plan, n) && InGrid(p, WindowSize(w))
    requires w.x == Resolve(plan.slicing[1].start, plan.slicing[1].stop, StrideOf(plan.stride).x, n.x)
    requires w.y == Resolve(plan.slicing[2].start, plan.slicing[2].stop, StrideOf(plan.stride).y, n.y)
    requires w.z == Resolve(plan.slicing[3].start, plan.slicing[3].stop, StrideOf(plan.stride).z, n.z)
    ensures Picked(w, p) == Plus(Times(p, StrideOf(plan.stride)), plan.minc)
  {
    var s := StrideOf(plan.stride);
    AxisPick(plan.slicing[1], n.x, plan.minc.x, s.x, p.x);
    AxisPick(plan.slicing[2], n.y, plan.minc.y, s.y, p.y);
    AxisPick(plan.slicing[3], n.z, plan.minc.z, s.z, p.z);
  }

  /** Cutting by a consistent plan moves no voxel in the world. */
  lemma CutInWorld(v: Volume, plan: Plan, c: int, p: Int3)
    requires Valid(v) && Consistent(plan, v.tensor.size) && Cut(v, plan).Ok?
    requires InBounds(Cut(v, plan).value.tensor, c, p)
    ensures var r, w := Cut(v, plan).value, WindowOf(plan.slicing, v.tensor).value;
            InBounds(v.tensor, Pick(w.c, c), Picked(w, p)) &&
            Get(r.tensor, c, p) == Get(v.tensor, Pick(w.c, c), Picked(w, p)) &&
            WorldOf(r.geometry.matrix, p) == WorldOf(v.geometry.matrix, Picked(w, p))
  {
    var n := v.tensor.size;
    var w := WindowOf(plan.slicing, v.tensor).value;
    var s := StrideOf(plan.stride);
    assert StepOf(plan.slicing[1]) == s.x && StepOf(plan.slicing[2]) == s.y && StepOf(plan.slicing[3]) == s.z;
    PickedMoved(plan, w, n, p);
    MovedWorld(v.geometry.matrix, plan.minc, plan.stride, p);
  }

  /** Cropping moves no voxel in the world: voxel `p` of every channel of
      the crop holds the value of the source voxel it was cut from, and the
      crop's geometry puts it at that voxel's world position. */
  lemma CropInWorld(v: Volume, cropping: Cropping, margin: Option<Int3>, c: int, p: Int3)
    requires Valid(v) && Crop(v, cropping, margin).Ok?
    requires InBounds(Crop(v, cropping, margin).value.tensor, c, p)
    ensures var r, w := Crop(v, cropping, margin).value, CropWindow(v, cropping, margin);
            InBounds(v.tensor, Pick(w.c, c), Picked(w, p)) &&
            Get(r.tensor, c, p) == Get(v.tensor, Pick(w.c, c), Picked(w, p)) &&
            WorldOf(r.geometry.matrix, p) == WorldOf(v.geometry.matrix, Picked(w, p))
  {
    var plan := PlanCrop(cropping, margin, v.tensor.size).value;
    assert Crop(v, cropping, margin) == Cut(v, plan);
    CutInWorld(v, plan, c, p);
  }

  /** `slice(None)` picks the whole axis in order. */
  lemma AllIsWhole(n: nat)
    ensures ResolveItem(All, n) == Ok(Whole(n))
  {
    assert StepOf(All) == 1;
    assert ResolveItem(All, n) == Ok(Resolve(None, None, 1, n));
    var r := Resolve(None, None, 1, n);
    assert r.start == 0 && r.step == 1;
  }

  /** An empty tuple crops nothing: the volume comes back as it was. */
  lemma CropEverything(v: Volume)
    requires Valid(v)
    ensures Crop(v, Items([]), None) == Ok(v)
  {
    var n := v.tensor.size;
    var plan := TuplePlan([], None, n).value;
    assert plan.slicing == [All, All, All, All] && plan.minc == Zero3 && plan.stride.None?;
    var w := WindowOf(plan.slicing, v.tensor).value;
    AllIsWhole(v.tensor.channels);
    AllIsWhole(n.x);
    AllIsWhole(n.y);
    AllIsWhole(n.z);
    assert w == Window(Whole(v.tensor.channels), Whole(n.x), Whole(n.y), Whole(n.z));
    var r := Crop(v, Items([]), None).value;
    forall c, p | InBounds(r.tensor, c, p) ensures Get(r.tensor, c, p) == Get(v.tensor, c, p) {
      assert Pick(w.c, c) == c && Picked(w, p) == p;
    }
    Extensionality(r.tensor, v.tensor);
  }

  /** With a zero margin the rebuilt spatial slices pick what the given
      ones pick, from the same corner and with the same stride. */
  lemma ZeroMarginReslice(slicing: seq<Item>, n: Size3)
    requires Stepped(slicing)
    ensures var a, b := Reslice(slicing, Some(Zero3), n), Reslice(slicing, None, n);
            a.minc == b.minc && a.stride == b.stride && a.slicing[0] == b.slicing[0] &&
            ResolveItem(a.slicing[1], n.x) == ResolveItem(b.slicing[1], n.x) &&
            ResolveItem(a.slicing[2], n.y) == ResolveItem(b.slicing[2], n.y) &&
            ResolveItem(a.slicing[3], n.z) == ResolveItem(b.slicing[3], n.z)
  {
    var c := SlicingToCoordinates(slicing[1..], n);
    assert Widened(c.0, c.1, Zero3, n) == (c.0, c.1);
    var spatial := CoordinatesToSlicing(c.0, c.1, c.2);
    SpanRebuilt(slicing[1], spatial[0], n.x);
    SpanRebuilt(slicing[2], spatial[1], n.y);
    SpanRebuilt(slicing[3], spatial[2], n.z);
  }

  /** A span rebuilt from a span's own normalised bounds, with the same
      step, picks the same indices. */
  lemma SpanRebuilt(it: Item, rebuilt: Item, n: nat)
    requires it.Span? && StepOf(it) >= 1
    requires rebuilt.Span? && rebuilt == CornerSpan(Bound(it.start, 0, n), Bound(it.stop, n, n) - 1, rebuilt.step)
    requires StepOf(rebuilt) == StepOf(it)
    ensures ResolveItem(rebuilt, n) == ResolveItem(it, n)
  {
    SpanFromCorners(it, n);
  }

  /** Two plans with the same windows and the same movement cut alike. */
  lemma SameCut(v: Volume, a: Plan, b: Plan)
    requires Valid(v) && |a.slicing| == 4 && |b.slicing| == 4
    requires WindowOf(a.slicing, v.tensor) == WindowOf(b.slicing, v.tensor)
    requires a.minc == b.minc && a.stride == b.stride
    ensures Cut(v, a) == Cut(v, b)
  {
  }

  /** A margin of zero voxels crops the same as no margin: rebuilding the
      spatial slices from their own corners changes nothing. */
  lemma ZeroMargin(v: Volume, items: seq<Item>)
    requires Valid(v)
    ensures Crop(v, Items(items), Some(Zero3)) == Crop(v, Items(items), None)
  {
    var n := v.tensor.size;
    if Checked(items).Ok? {
      var slicing := Checked(items).value;
      var pa, pb := Reslice(slicing, Some(Zero3), n), Reslice(slicing, None, n);
      ZeroMarginReslice(slicing, n);
      assert WindowOf(pa.slicing, v.tensor) == WindowOf(pb.slicing, v.tensor);
      SameCut(v, pa, pb);
    }
  }

  /** On one axis, window `a` is window `b` (whose inclusive upper corner is
      `hi`) widened by `m` voxels on both sides and clamped to [0, n): it
      steps by one, starts `m` voxels lower but not below 0, ends `m` voxels
      higher but not past the axis, and holds every index `b` picks (when
      `b` is empty and `m` is large it may be empty too). */
  predicate WidensAxis(a: Range, b: Range, hi: int, m: int, n: nat) {
    a.step == 1 &&
    a.start == Max(b.start - m, 0) &&
    a.start + a.count == Max(Min(hi + 1 + m, n), a.start) &&
    a.start <= b.start && (b.count > 0 ==> b.start + b.count <= a.start + a.count)
  }

  /** `rebuilt` is span `it` rebuilt from its inclusive corners widened by
      `m` and clamped to the axis, with the same step. */
  predicate WidenedSpan(it: Item, rebuilt: Item, n: nat, m: int) {
    it.Span? && rebuilt.Span? && StepOf(rebuilt) == StepOf(it) &&
    rebuilt == CornerSpan(Max(Bound(it.start, 0, n) - m, 0), Min(Bound(it.stop, n, n) - 1 + m, n), rebuilt.step)
  }

  /** Window `a` is window `b` widened by `m` on every spatial axis, with
      the same channels; `hi` is the inclusive upper corner of `b`. */
  predicate WidensWindow(a: Window, b: Window, hi: Int3, m: Int3, n: Size3) {
    a.c == b.c &&
    WidensAxis(a.x, b.x, hi.x, m.x, n.x) && WidensAxis(a.y, b.y, hi.y, m.y, n.y) &&
    WidensAxis(a.z, b.z, hi.z, m.z, n.z)
  }

  /** A unit-step span rebuilt from its corners widened by `m` and clamped
      widens the window of the span by `m`. */
  lemma AxisWidens(it: Item, rebuilt: Item, n: nat, m: int)
    requires WidenedSpan(it, rebuilt, n, m) && StepOf(it) == 1 && m >= 0
    ensures WidensAxis(Resolve(rebuilt.start, rebuilt.stop, 1, n), Resolve(it.start, it.stop, 1, n),
                       Bound(it.stop, n, n) - 1, m, n)
  {
    ResolveUnit(rebuilt.start, rebuilt.stop, n);
    ResolveUnit(it.start, it.stop, n);
  }

  /** The same for the resolved items. */
  lemma ItemWidens(it: Item, rebuilt: Item, n: nat, m: int, a: Range, b: Range, hi: int)
    requires WidenedSpan(it, rebuilt, n, m) && StepOf(it) == 1 && m >= 0
    requires ResolveItem(rebuilt, n) == Ok(a) && ResolveItem(it, n) == Ok(b) && hi == Bound(it.stop, n, n) - 1
    ensures WidensAxis(a, b, hi, m, n)
  {
    AxisWidens(it, rebuilt, n, m);
  }

  /** The corners of a tuple's spatial slices, axis by axis. */
  lemma CornersOf(slicing: seq<Item>, n: Size3)
    requires Stepped(slicing)
    ensures var c := SlicingToCoordinates(slicing[1..], n);
            c.0 == Int3(Bound(slicing[1].start, 0, n.x), Bound(slicing[2].start, 0, n.y), Bound(slicing[3].start, 0, n.z)) &&
            c.1 == Int3(Bound(slicing[1].stop, n.x, n.x) - 1, Bound(slicing[2].stop, n.y, n.y) - 1, Bound(slicing[3].stop, n.z, n.z) - 1)
  {
    assert slicing[1..][0] == slicing[1] && slicing[1..][1] == slicing[2] && slicing[1..][2] == slicing[3];
  }

  /** With a margin, every spatial slice is rebuilt from its own corners
      widened by the margin and clamped. */
  lemma WidenedSpans(slicing: seq<Item>, m: Int3, n: Size3)
    requires Stepped(slicing)
    ensures var pa := Reslice(slicing, Some(m), n);
            WidenedSpan(slicing[1], pa.slicing[1], n.x, m.x) && WidenedSpan(slicing[2], pa.slicing[2], n.y, m.y) &&
            WidenedSpan(slicing[3], pa.slicing[3], n.z, m.z)
  {
    var pa := Reslice(slicing, Some(m), n);
    CornersOf(slicing, n);
    var spatial := CoordinatesToSlicing(pa.minc, pa.maxc, pa.stride);
    assert pa.slicing[1] == spatial[0] && pa.slicing[2] == spatial[1] && pa.slicing[3] == spatial[2];
  }

  /** The spatial items of a tuple all step by one. */
  predicate UnitSteps(items: seq<Item>) {
    forall k :: 1 <= k < |items| ==> StepOf(items[k]) == 1
  }

  /** A margin of `m >= 0` voxels widens a unit-step crop: the channels are
      the same, and on every spatial axis the window starts `m` voxels lower
      (clamped at 0), ends `m` voxels higher (clamped at the extent) and
      holds every voxel the crop without a margin holds. */
  lemma MarginWidens(v: Volume, items: seq<Item>, m: Int3)
    requires Valid(v) && Crop(v, Items(items), None).Ok? && UnitSteps(items)
    requires m.x >= 0 && m.y >= 0 && m.z >= 0
    ensures Crop(v, Items(items), Some(m)).Ok?
    ensures WidensWindow(CropWindow(v, Items(items), Some(m)), CropWindow(v, Items(items), None),
                         SlicingToCoordinates(Checked(items).value[1..], v.tensor.size).1, m, v.tensor.size)
  {
    var n := v.tensor.size;
    assert Checked(items).Ok?;
    var slicing := Checked(items).value;
    var pa, pb := Reslice(slicing, Some(m), n), Reslice(slicing, None, n);
    CropByReslice(v, items, Some(m), pa);
    CropByReslice(v, items, None, pb);
    assert pb.slicing == slicing;
    PlanWidens(v.tensor, items, m);
  }

  /** The same for the windows of the plans, before any tensor is cut. */
  lemma PlanWidens(t: Tensor<real>, items: seq<Item>, m: Int3)
    requires Checked(items).Ok? && UnitSteps(items) && WindowOf(Checked(items).value, t).Ok?
    requires m.x >= 0 && m.y >= 0 && m.z >= 0
    ensures var slicing := Checked(items).value;
            var pa := Reslice(slicing, Some(m), t.size);
            WindowOf(pa.slicing, t).Ok? &&
            WidensWindow(WindowOf(pa.slicing, t).value, WindowOf(slicing, t).value,
                         SlicingToCoordinates(slicing[1..], t.size).1, m, t.size)
  {
    var n := t.size;
    var slicing := Checked(items).value;
    CheckedUnitSteps(items);
    CornersOf(slicing, n);
    WidenedSpans(slicing, m, n);
    var pa := Reslice(slicing, Some(m), n);
    WidenedWindow(t, slicing, m, pa.slicing, SlicingToCoordinates(slicing[1..], n).1);
  }

  /** A checked tuple whose spatial items step by one keeps steps of one. */
  lemma CheckedUnitSteps(items: seq<Item>)
    requires Checked(items).Ok? && UnitSteps(items)
    ensures var slicing := Checked(items).value;
            StepOf(slicing[1]) == 1 && StepOf(slicing[2]) == 1 && StepOf(slicing[3]) == 1
  {
    var slicing := Checked(items).value;
    assert slicing[..|items|] == items;
    forall k | 1 <= k < 4 ensures StepOf(slicing[k]) == 1 {
      if k < |items| { assert slicing[k] == items[k]; }
    }
  }

  /** A tuple that passes the checks is cut by its resliced plan. */
  lemma CropByReslice(v: Volume, items: seq<Item>, margin: Option<Int3>, p: Plan)
    requires Valid(v) && Checked(items).Ok?
    requires p == Reslice(Checked(items).value, margin, v.tensor.size)
    ensures PlanCrop(Items(items), margin, v.tensor.size) == Ok(p)
    ensures Crop(v, Items(items), margin) == Cut(v, p)
    ensures Crop(v, Items(items), margin).Ok? ==> CropWindow(v, Items(items), margin) == WindowOf(p.slicing, v.tensor).value
  {
  }

  /** The windows of a widened and the kept slicing, axis by axis. */
  lemma WidenedWindow(t: Tensor<real>, slicing: seq<Item>, m: Int3, widened: seq<Item>, hi: Int3)
    requires |slicing| == 4 && |widened| == 4 && widened[0] == slicing[0]
    requires StepOf(slicing[1]) == 1 && StepOf(slicing[2]) == 1 && StepOf(slicing[3]) == 1
    requires m.x >= 0 && m.y >= 0 && m.z >= 0
    requires WidenedSpan(slicing[1], widened[1], t.size.x, m.x) && WidenedSpan(slicing[2], widened[2], t.size.y, m.y) &&
             WidenedSpan(slicing[3], widened[3], t.size.z, m.z)
    requires WindowOf(slicing, t).Ok?
    requires hi == Int3(Bound(slicing[1].stop, t.size.x, t.size.x) - 1, Bound(slicing[2].stop, t.size.y, t.size.y) - 1,
                        Bound(slicing[3].stop, t.size.z, t.size.z) - 1)
    ensures WindowOf(widened, t).Ok?
    ensures WidensWindow(WindowOf(widened, t).value, WindowOf(slicing, t).value, hi, m, t.size)
  {
    var n := t.size;
    var a, b := WindowOf(widened, t).value, WindowOf(slicing, t).value;
    ItemWidens(slicing[1], widened[1], n.x, m.x, a.x, b.x, hi.x);
    ItemWidens(slicing[2], widened[2], n.y, m.y, a.y, b.y, hi.y);
    ItemWidens(slicing[3], widened[3], n.z, m.z, a.z, b.z, hi.z);
  }

  // ---------------------------------------------------------------------------
  // crop_to_nonzero
  // ---------------------------------------------------------------------------

  /** A voxel of the 4-D tensor: channel and spatial position. */
  datatype Voxel = Voxel(c: int, p: Int3)

  /** Voxel `q` counted from corner `lo`. */
  function Offset(q: Voxel, lo: Voxel): Voxel {
    Voxel(q.c - lo.c, Minus(q.p, lo.p))
  }

  predicate IsNonzero(t: Tensor<real>, q: Voxel)
    requires WellFormed(t)
  {
    InBounds(t, q.c, q.p) && Get(t, q.c, q.p) != 0.0
  }

  function Hit(t: Tensor<real>, c: int, x: int, y: int, z: int): seq<Voxel>
    requires WellFormed(t) && InBounds(t, c, Int3(x, y, z))
  {
    if Get(t, c, Int3(x, y, z)) != 0.0 then [Voxel(c, Int3(x, y, z))] else []
  }

  function ZRun(t: Tensor<real>, c: int, x: int, y: int): seq<Voxel>
    requires WellFormed(t) && 0 <= c < t.channels && 0 <= x < t.size.x && 0 <= y < t.size.y
  {
    Join(seq(t.size.z, z requires 0 <= z < t.size.z => Hit(t, c, x, y, z)))
  }

  function YRun(t: Tensor<real>, c: int, x: int): seq<Voxel>
    requires WellFormed(t) && 0 <= c < t.channels && 0 <= x < t.size.x
  {
    Join(seq(t.size.y, y requires 0 <= y < t.size.y => ZRun(t, c, x, y)))
  }

  function XRun(t: Tensor<real>, c: int): seq<Voxel>
    requires WellFormed(t) && 0 <= c < t.channels
  {
    Join(seq(t.size.x, x requires 0 <= x < t.size.x => YRun(t, c, x)))
  }

  /** `tensor.nonzero()`: the non-zero voxels, channel-major then x, y, z. */
  function Nonzero(t: Tensor<real>): (r: seq<Voxel>)
    requires WellFormed(t)
  {
    Join(seq(t.channels, c requires 0 <= c < t.channels => XRun(t, c)))
  }

  lemma ZRunMember(t: Tensor<real>, c: int, x: int, y: int, q: Voxel)
    requires WellFormed(t) && 0 <= c < t.channels && 0 <= x < t.size.x && 0 <= y < t.size.y
    ensures q in ZRun(t, c, x, y) <==> q.c == c && q.p.x == x && q.p.y == y && IsNonzero(t, q)
  {
    var ss := seq(t.size.z, z requires 0 <= z < t.size.z => Hit(t, c, x, y, z));
    JoinMember(ss, q);
    if q.c == c && q.p.x == x && q.p.y == y && IsNonzero(t, q) {
      assert q in ss[q.p.z];
    }
  }

  lemma YRunMember(t: Tensor<real>, c: int, x: int, q: Voxel)
    requires WellFormed(t) && 0 <= c < t.channels && 0 <= x < t.size.x
    ensures q in YRun(t, c, x) <==> q.c == c && q.p.x == x && IsNonzero(t, q)
  {
    var ss := seq(t.size.y, y requires 0 <= y < t.size.y => ZRun(t, c, x, y));
    JoinMember(ss, q);
    if q in YRun(t, c, x) {
      var y :| 0 <= y < |ss| && q in ss[y];
      ZRunMember(t, c, x, y, q);
    }
    if q.c == c && q.p.x == x && IsNonzero(t, q) {
      ZRunMember(t, c, x, q.p.y, q);
      assert q in ss[q.p.y];
    }
  }

  lemma XRunMember(t: Tensor<real>, c: int, q: Voxel)
    requires WellFormed(t) && 0 <= c < t.channels
    ensures q in XRun(t, c) <==> q.c == c && IsNonzero(t, q)
  {
    var ss := seq(t.size.x, x requires 0 <= x < t.size.x => YRun(t, c, x));
    JoinMember(ss, q);
    if q in XRun(t, c) {
      var x :| 0 <= x < |ss| && q in ss[x];
      YRunMember(t, c, x, q);
    }
    if q.c == c && IsNonzero(t, q) {
      YRunMember(t, c, q.p.x, q);
      assert q in ss[q.p.x];
    }
  }

  /** The list holds exactly the non-zero voxels. */
  lemma NonzeroMember(t: Tensor<real>, q: Voxel)
    requires WellFormed(t)
    ensures q in Nonzero(t) <==> IsNonzero(t, q)
  {
    var ss := seq(t.channels, c requires 0 <= c < t.channels => XRun(t, c));
    JoinMember(ss, q);
    if q in Nonzero(t) {
      var c :| 0 <= c < |ss| && q in ss[c];
      XRunMember(t, c, q);
    }
    if IsNonzero(t, q) {
      XRunMember(t, q.c, q);
      assert q in ss[q.c];
    }
  }

  function Least(s: seq<int>): (m: int)
    requires |s| > 0
    ensures m in s && forall i :: 0 <= i < |s| ==> m <= s[i]
  {
    if |s| == 1 then s[0]
    else
      var rest := Least(s[1..]);
      assert forall i :: 1 <= i < |s| ==> s[i] == s[1..][i - 1];
      if s[0] <= rest then s[0] else rest
  }

  function Greatest(s: seq<int>): (m: int)
    requires |s| > 0
    ensures m in s && forall i :: 0 <= i < |s| ==> s[i] <= m
  {
    if |s| == 1 then s[0]
    else
      var rest := Greatest(s[1..]);
      assert forall i :: 1 <= i < |s| ==> s[i] == s[1..][i - 1];
      if s[0] >= rest then s[0] else rest
  }

  function Cs(qs: seq<Voxel>): seq<int> { seq(|qs|, i requires 0 <= i < |qs| => qs[i].c) }
  function Ps(qs: seq<Voxel>): seq<int> { seq(|qs|, i requires 0 <= i < |qs| => qs[i].p.x) }
  function Qs(qs: seq<Voxel>): seq<int> { seq(|qs|, i requires 0 <= i < |qs| => qs[i].p.y) }
  function Rs(qs: seq<Voxel>): seq<int> { seq(|qs|, i requires 0 <= i < |qs| => qs[i].p.z) }

  /** `amin(0)`: the lowest coordinate along each of the four axes. */
  function LowCorner(qs: seq<Voxel>): Voxel
    requires |qs| > 0
  {
    Voxel(Least(Cs(qs)), Int3(Least(Ps(qs)), Least(Qs(qs)), Least(Rs(qs))))
  }

  /** `amax(0)`: the highest coordinate along each of the four axes. */
  function HighCorner(qs: seq<Voxel>): Voxel
    requires |qs| > 0
  {
    Voxel(Greatest(Cs(qs)), Int3(Greatest(Ps(qs)), Greatest(Qs(qs)), Greatest(Rs(qs))))
  }

  /** `lo` is below or at `q`, and `q` below or at `hi`, on all four axes. */
  predicate Between(lo: Voxel, q: Voxel, hi: Voxel) {
    lo.c <= q.c <= hi.c && lo.p.x <= q.p.x <= hi.p.x && lo.p.y <= q.p.y <= hi.p.y && lo.p.z <= q.p.z <= hi.p.z
  }

  /** The corners of a list of voxels bound every voxel of it. */
  lemma CornersBound(qs: seq<Voxel>, i: int)
    requires 0 <= i < |qs|
    ensures Between(LowCorner(qs), qs[i], HighCorner(qs))
  {
    assert Cs(qs)[i] == qs[i].c && Ps(qs)[i] == qs[i].p.x && Qs(qs)[i] == qs[i].p.y && Rs(qs)[i] == qs[i].p.z;
  }

  /** The bounding box of the non-zero voxels: it holds every one of them,
      and it lies inside the tensor. */
  lemma NonzeroBox(t: Tensor<real>, q: Voxel)
    requires WellFormed(t) && IsNonzero(t, q)
    ensures var qs := Nonzero(t);
            |qs| > 0 && Between(LowCorner(qs), q, HighCorner(qs)) &&
            0 <= LowCorner(qs).c && HighCorner(qs).c < t.channels &&
            0 <= LowCorner(qs).p.x && HighCorner(qs).p.x < t.size.x &&
            0 <= LowCorner(qs).p.y && HighCorner(qs).p.y < t.size.y &&
            0 <= LowCorner(qs).p.z && HighCorner(qs).p.z < t.size.z
  {
    var qs := Nonzero(t);
    NonzeroMember(t, q);
    var i :| 0 <= i < |qs| && qs[i] == q;
    CornersBound(qs, i);
    InsideCorners(t);
  }

  /** Every listed voxel is non-zero. */
  lemma Listed(t: Tensor<real>, i: int)
    requires WellFormed(t) && 0 <= i < |Nonzero(t)|
    ensures IsNonzero(t, Nonzero(t)[i])
  {
    NonzeroMember(t, Nonzero(t)[i]);
  }

  /** Every lower face of the bounding box touches a non-zero voxel. */
  lemma TightBelow(t: Tensor<real>)
    requires WellFormed(t) && |Nonzero(t)| > 0
    ensures var lo := LowCorner(Nonzero(t));
            (exists q :: IsNonzero(t, q) && q.c == lo.c) && (exists q :: IsNonzero(t, q) && q.p.x == lo.p.x) &&
            (exists q :: IsNonzero(t, q) && q.p.y == lo.p.y) && (exists q :: IsNonzero(t, q) && q.p.z == lo.p.z)
  {
    var qs := Nonzero(t);
    var lo := LowCorner(qs);
    var i0 :| 0 <= i0 < |qs| && Cs(qs)[i0] == lo.c;
    var i1 :| 0 <= i1 < |qs| && Ps(qs)[i1] == lo.p.x;
    var i2 :| 0 <= i2 < |qs| && Qs(qs)[i2] == lo.p.y;
    var i3 :| 0 <= i3 < |qs| && Rs(qs)[i3] == lo.p.z;
    Listed(t, i0);
    Listed(t, i1);
    Listed(t, i2);
    Listed(t, i3);
  }

  /** Every upper face of the bounding box touches a non-zero voxel. */
  lemma TightAbove(t: Tensor<real>)
    requires WellFormed(t) && |Nonzero(t)| > 0
    ensures var hi := HighCorner(Nonzero(t));
            (exists q :: IsNonzero(t, q) && q.c == hi.c) && (exists q :: IsNonzero(t, q) && q.p.x == hi.p.x) &&
            (exists q :: IsNonzero(t, q) && q.p.y == hi.p.y) && (exists q :: IsNonzero(t, q) && q.p.z == hi.p.z)
  {
    var qs := Nonzero(t);
    var hi := HighCorner(qs);
    var i0 :| 0 <= i0 < |qs| && Cs(qs)[i0] == hi.c;
    var i1 :| 0 <= i1 < |qs| && Ps(qs)[i1] == hi.p.x;
    var i2 :| 0 <= i2 < |qs| && Qs(qs)[i2] == hi.p.y;
    var i3 :| 0 <= i3 < |qs| && Rs(qs)[i3] == hi.p.z;
    Listed(t, i0);
    Listed(t, i1);
    Listed(t, i2);
    Listed(t, i3);
  }

  /** The bounding box lies inside the tensor. */
  lemma InsideCorners(t: Tensor<real>)
    requires WellFormed(t) && |Nonzero(t)| > 0
    ensures var lo, hi := LowCorner(Nonzero(t)), HighCorner(Nonzero(t));
            0 <= lo.c && hi.c < t.channels && 0 <= lo.p.x && hi.p.x < t.size.x &&
            0 <= lo.p.y && hi.p.y < t.size.y && 0 <= lo.p.z && hi.p.z < t.size.z
  {
    TightBelow(t);
    TightAbove(t);
  }

  /** The slicing `coordinates_to_slicing(minc, maxc)` gives for inclusive
      four-axis corners. */
  function BoxSlicing(lo: Voxel, hi: Voxel): (r: seq<Item>)
    ensures |r| == 4 && r[0] == CornerSpan(lo.c, hi.c, None) && r[1..] == CoordinatesToSlicing(lo.p, hi.p, None)
  {
    [CornerSpan(lo.c, hi.c, None)] + CoordinatesToSlicing(lo.p, hi.p, None)
  }

  /** A consistent plan whose channel item is a slice with a positive step
      always cuts. */
  lemma ConsistentCuts(v: Volume, plan: Plan)
    requires Valid(v) && Consistent(plan, v.tensor.size) && plan.slicing[0].Span? && StepOf(plan.slicing[0]) >= 1
    ensures Cut(v, plan).Ok?
  {
  }

  /** Box corners always pass the tuple checks unchanged. */
  lemma BoxChecked(lo: Voxel, hi: Voxel)
    ensures Checked(BoxSlicing(lo, hi)) == Ok(BoxSlicing(lo, hi))
  {
    var items := BoxSlicing(lo, hi);
    assert Expand(items) == Ok(items) by {
      assert items + seq(0, _ => All) == items;
    }
  }

  /** Cropping to box corners never fails. */
  lemma BoxCrops(v: Volume, lo: Voxel, hi: Voxel, margin: Option<Int3>)
    requires Valid(v)
    ensures Checked(BoxSlicing(lo, hi)) == Ok(BoxSlicing(lo, hi))
    ensures Crop(v, Items(BoxSlicing(lo, hi)), margin).Ok?
  {
    BoxChecked(lo, hi);
    ConsistentCuts(v, Reslice(BoxSlicing(lo, hi), margin, v.tensor.size));
  }

  /** The voxels a crop to nonempty inclusive corners keeps. */
  lemma ExactSpan(lo: int, hi: int, n: nat)
    requires 0 <= lo <= hi < n
    ensures ResolveItem(CornerSpan(lo, hi, None), n) == Ok(Range(lo, hi + 1 - lo, 1))
  {
    var r := Resolve(Some(lo), Some(hi + 1), 1, n);
    assert ResolveItem(CornerSpan(lo, hi, None), n) == Ok(r);
    assert r.start == lo && r.step == 1;
  }

  /** Without a margin, a crop to corners inside the tensor slices exactly
      the box between them. */
  lemma BoxWindow(v: Volume, lo: Voxel, hi: Voxel)
    requires Valid(v)
    requires 0 <= lo.c <= hi.c < v.tensor.channels && 0 <= lo.p.x <= hi.p.x < v.tensor.size.x
    requires 0 <= lo.p.y <= hi.p.y < v.tensor.size.y && 0 <= lo.p.z <= hi.p.z < v.tensor.size.z
    ensures Crop(v, Items(BoxSlicing(lo, hi)), None).Ok?
    ensures CropWindow(v, Items(BoxSlicing(lo, hi)), None) == BoxOf(lo, hi)
  {
    var items := BoxSlicing(lo, hi);
    var n := v.tensor.size;
    BoxCrops(v, lo, hi, None);
    assert PlanCrop(Items(items), None, n).value.slicing == items;
    assert items[1] == CornerSpan(lo.p.x, hi.p.x, None);
    assert items[2] == CornerSpan(lo.p.y, hi.p.y, None);
    assert items[3] == CornerSpan(lo.p.z, hi.p.z, None);
    ExactSpan(lo.c, hi.c, v.tensor.channels);
    ExactSpan(lo.p.x, hi.p.x, n.x);
    ExactSpan(lo.p.y, hi.p.y, n.y);
    ExactSpan(lo.p.z, hi.p.z, n.z);
  }

  /** `volume.crop_to_nonzero(margin)`: the crop to the bounding box of the
      non-zero voxels over all four axes, so empty channels at either end
      go too; a volume without a non-zero voxel has no box and fails. */
  function CropToNonzero(v: Volume, margin: Option<Int3>): (r: Result<Volume>)
    requires Valid(v)
    ensures r.Err? <==> forall q :: !IsNonzero(v.tensor, q)
    ensures r.Err? ==> r.error == EmptyReduction
  {
    var qs := Nonzero(v.tensor);
    if |qs| == 0 then
      assert forall q :: !IsNonzero(v.tensor, q) by {
        forall q ensures !IsNonzero(v.tensor, q) {
          NonzeroMember(v.tensor, q);
        }
      }
      Err(EmptyReduction)
    else
      Listed(v.tensor, 0);
      BoxCrops(v, LowCorner(qs), HighCorner(qs), margin);
      Crop(v, Items(BoxSlicing(LowCorner(qs), HighCorner(qs))), margin)
  }

  /** The window of unit steps from corner `lo` to corner `hi`, both
      included. */
  function BoxOf(lo: Voxel, hi: Voxel): (w: Window)
    requires lo.c <= hi.c && lo.p.x <= hi.p.x && lo.p.y <= hi.p.y && lo.p.z <= hi.p.z
    ensures w.c.count == hi.c - lo.c + 1 && WindowSize(w) == Plus(Minus(hi.p, lo.p), One3)
    ensures w.c.step == 1 && w.x.step == 1 && w.y.step == 1 && w.z.step == 1
  {
    Window(Range(lo.c, hi.c + 1 - lo.c, 1), Range(lo.p.x, hi.p.x + 1 - lo.p.x, 1),
           Range(lo.p.y, hi.p.y + 1 - lo.p.y, 1), Range(lo.p.z, hi.p.z + 1 - lo.p.z, 1))
  }

  /** A successful crop holds the slice of its window. */
  lemma CropSlices(v: Volume, cropping: Cropping, margin: Option<Int3>)
    requires Valid(v) && Crop(v, cropping, margin).Ok?
    ensures Crop(v, cropping, margin).value.tensor == Slice(v.tensor, CropWindow(v, cropping, margin))
  {
    var plan := PlanCrop(cropping, margin, v.tensor.size).value;
    assert Crop(v, cropping, margin) == Cut(v, plan);
  }

  /** Voxel `q - lo` of the box window between `lo` and `hi` is voxel `q`. */
  lemma BoxPicked(lo: Voxel, hi: Voxel, q: Voxel)
    requires Between(lo, q, hi)
    ensures 0 <= Offset(q, lo).c < BoxOf(lo, hi).c.count && InGrid(Offset(q, lo).p, WindowSize(BoxOf(lo, hi)))
    ensures Pick(BoxOf(lo, hi).c, Offset(q, lo).c) == q.c && Picked(BoxOf(lo, hi), Offset(q, lo).p) == q.p
  {
  }

  /** The slice of a box between two corners is exactly as large as the
      box and holds every voxel of the box, moved by the lower corner. */
  lemma SliceBox<T>(t: Tensor<T>, lo: Voxel, hi: Voxel, q: Voxel, s: Tensor<T>)
    requires WellFormed(t) && Between(lo, q, hi) && WindowFits(BoxOf(lo, hi), t)
    requires s == Slice(t, BoxOf(lo, hi))
    ensures s.channels == hi.c - lo.c + 1 && s.size == Plus(Minus(hi.p, lo.p), One3)
    ensures InBounds(s, Offset(q, lo).c, Offset(q, lo).p)
    ensures InBounds(t, q.c, q.p) && Get(s, Offset(q, lo).c, Offset(q, lo).p) == Get(t, q.c, q.p)
  {
    BoxPicked(lo, hi, q);
  }

  /** A crop whose window is the box between two corners keeps every voxel
      of the box at its world position. */
  lemma BoxInWorld(v: Volume, cropping: Cropping, lo: Voxel, hi: Voxel, q: Voxel)
    requires Valid(v) && Crop(v, cropping, None).Ok?
    requires Between(lo, q, hi) && CropWindow(v, cropping, None) == BoxOf(lo, hi)
    ensures WorldOf(Crop(v, cropping, None).value.geometry.matrix, Minus(q.p, lo.p)) == WorldOf(v.geometry.matrix, q.p)
  {
    CropSlices(v, cropping, None);
    SliceBox(v.tensor, lo, hi, q, Crop(v, cropping, None).value.tensor);
    BoxPicked(lo, hi, q);
    CropInWorld(v, cropping, None, Offset(q, lo).c, Offset(q, lo).p);
  }

  /** A volume with a non-zero voxel is cropped to its bounding box. */
  lemma CropToNonzeroIsBox(v: Volume, margin: Option<Int3>)
    requires Valid(v) && |Nonzero(v.tensor)| > 0
    ensures CropToNonzero(v, margin) ==
              Crop(v, Items(BoxSlicing(LowCorner(Nonzero(v.tensor)), HighCorner(Nonzero(v.tensor)))), margin)
  {
  }

  /** Without a margin, the crop `r` is exactly as large as the bounding box
      of the non-zero voxels. */
  lemma CropToNonzeroShape(v: Volume, q: Voxel, r: Volume)
    requires Valid(v) && IsNonzero(v.tensor, q) && CropToNonzero(v, None) == Ok(r)
    ensures |Nonzero(v.tensor)| > 0
    ensures var lo, hi := LowCorner(Nonzero(v.tensor)), HighCorner(Nonzero(v.tensor));
            r.tensor.channels == hi.c - lo.c + 1 && r.tensor.size == Plus(Minus(hi.p, lo.p), One3)
  {
    var qs := Nonzero(v.tensor);
    NonzeroBox(v.tensor, q);
    InsideCorners(v.tensor);
    CropToNonzeroIsBox(v, None);
    BoxWindow(v, LowCorner(qs), HighCorner(qs));
    CropSlices(v, Items(BoxSlicing(LowCorner(qs), HighCorner(qs))), None);
    SliceBox(v.tensor, LowCorner(qs), HighCorner(qs), q, r.tensor);
  }

  /** Without a margin, the crop `r` keeps every non-zero voxel with its
      value, moved by the lower corner of the bounding box. */
  lemma CropToNonzeroKeeps(v: Volume, q: Voxel, r: Volume)
    requires Valid(v) && IsNonzero(v.tensor, q) && CropToNonzero(v, None) == Ok(r)
    ensures |Nonzero(v.tensor)| > 0
    ensures var k := Offset(q, LowCorner(Nonzero(v.tensor)));
            InBounds(r.tensor, k.c, k.p) && Get(r.tensor, k.c, k.p) == Get(v.tensor, q.c, q.p)
  {
    var qs := Nonzero(v.tensor);
    NonzeroBox(v.tensor, q);
    InsideCorners(v.tensor);
    var lo, hi := LowCorner(qs), HighCorner(qs);
    var cropping := Items(BoxSlicing(lo, hi));
    CropToNonzeroIsBox(v, None);
    assert Crop(v, cropping, None) == Ok(r);
    BoxWindow(v, lo, hi);
    CropSlices(v, cropping, None);
    SliceBox(v.tensor, lo, hi, q, r.tensor);
  }

  /** Without a margin, every non-zero voxel keeps its world position in the
      crop `r`. */
  lemma CropToNonzeroInPlace(v: Volume, q: Voxel, r: Volume)
    requires Valid(v) && IsNonzero(v.tensor, q) && CropToNonzero(v, None) == Ok(r)
    ensures |Nonzero(v.tensor)| > 0
    ensures WorldOf(r.geometry.matrix, Minus(q.p, LowCorner(Nonzero(v.tensor)).p)) == WorldOf(v.geometry.matrix, q.p)
  {
    var qs := Nonzero(v.tensor);
    NonzeroBox(v.tensor, q);
    InsideCorners(v.tensor);
    CropToNonzeroIsBox(v, None);
    BoxWindow(v, LowCorner(qs), HighCorner(qs));
    BoxInWorld(v, Items(BoxSlicing(LowCorner(qs), HighCorner(qs))), LowCorner(qs), HighCorner(qs), q);
  }
}
