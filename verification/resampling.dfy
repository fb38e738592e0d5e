/** The fast path of `Volume.resample_like`: when the target geometry has the
    source's rotation and scale and its origin lies on a source voxel, the
    target grid is the source grid moved by a whole number of voxels, and
    resampling reduces to cropping the overlap and padding the rest.  Also
    `reshape` and `pad`, which centre a new grid on the old one and go
    through this path.  The interpolating fallback is not modelled; it is
    reported as `Interpolated`. */
module Resampling {
  import opened Results
  import opened Geometry
  import opened Slicing
  import opened Tensors
  import opened Volumes

  // ---------------------------------------------------------------------------
  // per-axis crop and pad amounts
  // ---------------------------------------------------------------------------

  /** What happens to one axis: keep `count` source voxels from `start`, then
      add `before` voxels in front and `after` behind. */
  datatype AxisPlan = AxisPlan(start: nat, count: nat, before: nat, after: nat)

  function Extent(a: AxisPlan): int { a.before + a.count + a.after }

  /** Position `i` of the result holds a kept source voxel rather than padding. */
  predicate Copies(a: AxisPlan, i: int) { a.before <= i < a.before + a.count }

  /** The amounts as `resample_like` computes them, for a target axis of
      length `t` whose first voxel is source voxel `lower`: the slice
      `[max(lower, 0) : min(upper, 0) + s]` with `upper = lower + t - s`
      (Python slicing, so a negative stop counts from the end), then
      `|min(lower, 0)|` before and `max(upper, 0)` after. */
  function PlanAsWritten(lower: int, t: int, s: nat): (a: AxisPlan)
    ensures a.start + a.count <= s
  {
    var upper := lower + t - s;
    var r := Resolve(Some(Max(lower, 0)), Some(Min(upper, 0) + s), 1, s);
    AxisPlan(r.start, r.count, -Min(lower, 0), Max(upper, 0))
  }

  /** The slice of the as-written plan keeps max(stop - start, 0) voxels. */
  lemma PlanAsWrittenCount(lower: int, t: int, s: nat)
    ensures var hi := Bound(Some(Min(lower + t - s, 0) + s), s, s);
            var lo := Bound(Some(Max(lower, 0)), 0, s);
            PlanAsWritten(lower, t, s) == AxisPlan(lo, Max(hi - lo, 0), -Min(lower, 0), Max(lower + t - s, 0))
  {
    var hi := Bound(Some(Min(lower + t - s, 0) + s), s, s);
    var lo := Bound(Some(Max(lower, 0)), 0, s);
    var r := Resolve(Some(Max(lower, 0)), Some(Min(lower + t - s, 0) + s), 1, s);
    if r.count > 0 {
      assert Pick(r, r.count - 1) < hi;
    }
  }

  /** Where the target window overlaps or touches the source axis, the
      as-written slice is `[max(lower, 0), min(upper, 0) + s)` unclipped. */
  lemma PlanAsWrittenOverlap(lower: int, t: int, s: nat)
    requires 0 <= t && lower <= s && 0 <= lower + t
    ensures var u := lower + t - s;
            PlanAsWritten(lower, t, s) == AxisPlan(Max(lower, 0), Min(u, 0) + s - Max(lower, 0), -Min(lower, 0), Max(u, 0))
  {
    PlanAsWrittenCount(lower, t, s);
  }

  /** A target window wholly past the end of the source axis keeps nothing
      and pads `upper` voxels after, more than `t`. */
  lemma PlanAsWrittenPast(lower: int, t: int, s: nat)
    requires 0 <= t && s < lower
    ensures Extent(PlanAsWritten(lower, t, s)) != t
  {
    PlanAsWrittenCount(lower, t, s);
    assert Bound(Some(Max(lower, 0)), 0, s) == s;
  }

  /** A target window wholly before the source axis: the slice starts at 0
      and its negative stop resolves to `lower + t + s`, clipped at 0. */
  lemma PlanAsWrittenBefore(lower: int, t: int, s: nat)
    requires 0 <= t && lower <= s && lower + t < 0
    ensures Bound(Some(Max(lower, 0)), 0, s) == 0
    ensures Bound(Some(Min(lower + t - s, 0) + s), s, s) == Max(lower + t + s, 0)
  {
  }

  /** The as-written amounts add up to the target length exactly when the
      target window overlaps or touches the source axis. */
  lemma PlanAsWrittenExtent(lower: int, t: int, s: nat)
    ensures Extent(PlanAsWritten(lower, t, s)) == t <==> 0 <= t && lower <= s && 0 <= lower + t
  {
    if 0 <= t && lower <= s && 0 <= lower + t {
      PlanAsWrittenOverlap(lower, t, s);
    } else if s < lower && 0 <= t {
      PlanAsWrittenPast(lower, t, s);
    } else if 0 <= t {
      PlanAsWrittenCount(lower, t, s);
      PlanAsWrittenBefore(lower, t, s);
    }
  }

  /** A target axis of length 3 starting 5 voxels before a source axis of
      length 10 lies wholly outside it; the as-written slice `[0:-2]` keeps 8
      voxels and the result is 13 voxels long instead of 3. */
  lemma DisjointWindowMisshaped(lower: int, t: nat, s: nat)
    requires lower == -5 && t == 3 && s == 10
    ensures PlanAsWritten(lower, t, s) == AxisPlan(0, 8, 5, 0)
    ensures Extent(PlanAsWritten(lower, t, s)) == 13
  {
    PlanAsWrittenCount(lower, t, s);
    PlanAsWrittenBefore(lower, t, s);
  }

  /** The amounts with the target window clamped to the source axis first:
      the kept voxels are exactly those of the target window that exist in
      the source, and the pads fill the rest of the target. */
  function Plan(lower: int, t: nat, s: nat): (a: AxisPlan)
    ensures Extent(a) == t && a.start + a.count <= s
    ensures forall i :: 0 <= i < t ==> (Copies(a, i) <==> 0 <= i + lower < s)
    ensures a.count > 0 ==> a.start == a.before + lower
  {
    var start := Clamp(lower, 0, s);
    var end := Clamp(lower + t, 0, s);
    var before := Clamp(-lower, 0, t);
    AxisPlan(start, end - start, before, t - before - (end - start))
  }

  /** Where the windows overlap or touch, clamping leaves the window as it is. */
  lemma PlanOverlap(lower: int, t: nat, s: nat)
    requires lower <= s && 0 <= lower + t
    ensures var u := lower + t - s;
            Plan(lower, t, s) == AxisPlan(Max(lower, 0), Min(u, 0) + s - Max(lower, 0), -Min(lower, 0), Max(u, 0))
  {
    var start, end, before := Clamp(lower, 0, s), Clamp(lower + t, 0, s), Clamp(-lower, 0, t);
    assert start == Max(lower, 0) && before == -Min(lower, 0);
    assert end == Min(lower + t - s, 0) + s;
  }

  /** A target window wholly before the source axis is all padding. */
  lemma PlanBefore(lower: int, t: nat, s: nat)
    requires lower + t <= 0
    ensures Plan(lower, t, s) == AxisPlan(0, 0, t, 0)
  {
    assert Clamp(lower, 0, s) == 0 && Clamp(lower + t, 0, s) == 0;
    assert Clamp(-lower, 0, t) == t;
  }

  /** Where the windows overlap or touch, the clamped plan is the as-written one. */
  lemma PlanAgrees(lower: int, t: nat, s: nat)
    requires lower <= s && 0 <= lower + t
    ensures PlanAsWritten(lower, t, s) == Plan(lower, t, s)
  {
    PlanAsWrittenOverlap(lower, t, s);
    PlanOverlap(lower, t, s);
  }

  /** The target window lies inside the source axis. */
  predicate InsideAxis(lower: int, t: int, s: int) {
    t == 0 || (0 <= lower && lower + t <= s)
  }

  /** No padding is needed exactly when the target window lies inside the source. */
  lemma PlanPadsIffOutside(lower: int, t: nat, s: nat)
    ensures Plan(lower, t, s).before == 0 && Plan(lower, t, s).after == 0 <==> InsideAxis(lower, t, s)
  {
    var a := Plan(lower, t, s);
    if t == 0 {
    } else if lower < 0 {
      assert a.before > 0;
    } else if lower + t > s {
      assert a.before == 0 && a.start == Min(lower, s) && a.start + a.count == s;
    } else {
      assert a.before == 0 && a.count == t;
    }
  }

  // ---------------------------------------------------------------------------
  // torch padding
  // ---------------------------------------------------------------------------

  /** The modes of `torch.nn.functional.pad` the fast path uses. */
  datatype PadMode = Constant | Reflect | Replicate

  /** `dict(zeros='constant', reflection='reflect', border='replicate').get(name)` */
  function TorchPadMode(name: string): Option<PadMode> {
    if name == "zeros" then Some(Constant)
    else if name == "reflection" then Some(Reflect)
    else if name == "border" then Some(Replicate)
    else None
  }

  /** torch refuses to replicate-pad an empty axis and to reflect-pad by as
      many voxels as the axis has. */
  predicate PadAllowed(mode: PadMode, n: nat, before: nat, after: nat) {
    match mode
    case Constant => true
    case Replicate => n > 0
    case Reflect => before < n && after < n
  }

  /** The voxel of an axis of length `n` that position `i` of the padded axis
      shows, or None for a constant-padded position. */
  function PadIndex(mode: PadMode, n: nat, before: nat, after: nat, i: int): (r: Option<int>)
    requires PadAllowed(mode, n, before, after) && 0 <= i < before + n + after
    ensures r.Some? ==> 0 <= r.value < n
    ensures before <= i < before + n ==> r == Some(i - before)
    ensures r.None? <==> mode == Constant && !(before <= i < before + n)
    ensures mode == Replicate && i < before ==> r == Some(0)
    ensures mode == Replicate && before + n <= i ==> r == Some(n - 1)
  {
    var j := i - before;
    match mode
    case Constant => if 0 <= j < n then Some(j) else None
    case Replicate => Some(Clamp(j, 0, n - 1))
    case Reflect => Some(if j < 0 then -j else if j >= n then 2 * (n - 1) - j else j)
  }

  /** Reflection mirrors about the edge voxels: the k-th pad voxel in front of
      the axis repeats the k-th voxel after the first one, and likewise at the end. */
  lemma ReflectMirrors(n: nat, before: nat, after: nat, k: int)
    requires PadAllowed(Reflect, n, before, after) && 0 < k
    ensures k <= before ==> PadIndex(Reflect, n, before, after, before - k) == PadIndex(Reflect, n, before, after, before + k)
    ensures k <= after ==>
              PadIndex(Reflect, n, before, after, before + n - 1 + k) == PadIndex(Reflect, n, before, after, before + n - 1 - k)
  {
  }

  function PaddedSize(size: Size3, before: Size3, after: Size3): (r: Size3)
    ensures r == Plus(Plus(before, size), after)
  {
    Int3(before.x + size.x + after.x, before.y + size.y + after.y, before.z + size.z + after.z)
  }

  predicate PadAllowed3(mode: PadMode, size: Size3, before: Size3, after: Size3) {
    && PadAllowed(mode, size.x, before.x, after.x)
    && PadAllowed(mode, size.y, before.y, after.y)
    && PadAllowed(mode, size.z, before.z, after.z)
  }

  /** Voxel (c, p) of the padded tensor. */
  function PadValue(t: Tensor<real>, mode: PadMode, before: Size3, after: Size3, c: int, p: Int3): real
    requires WellFormed(t) && PadAllowed3(mode, t.size, before, after)
    requires 0 <= c < t.channels && InGrid(p, PaddedSize(t.size, before, after))
  {
    var ix := PadIndex(mode, t.size.x, before.x, after.x, p.x);
    var iy := PadIndex(mode, t.size.y, before.y, after.y, p.y);
    var iz := PadIndex(mode, t.size.z, before.z, after.z, p.z);
    if ix.Some? && iy.Some? && iz.Some? then Get(t, c, Int3(ix.value, iy.value, iz.value)) else 0.0
  }

  /** Voxels of the unpadded tensor reappear `before` further on. */
  lemma PadValueInterior(t: Tensor<real>, mode: PadMode, before: Size3, after: Size3, c: int, p: Int3)
    requires WellFormed(t) && PadAllowed3(mode, t.size, before, after) && InBounds(t, c, p)
    ensures InGrid(Plus(p, before), PaddedSize(t.size, before, after))
    ensures PadValue(t, mode, before, after, c, Plus(p, before)) == Get(t, c, p)
  {
    var q := Plus(p, before);
    assert PadIndex(mode, t.size.x, before.x, after.x, q.x) == Some(p.x);
    assert PadIndex(mode, t.size.y, before.y, after.y, q.y) == Some(p.y);
    assert PadIndex(mode, t.size.z, before.z, after.z, q.z) == Some(p.z);
  }

  /** Constant padding is zero outside the copied box. */
  lemma PadValueOutside(t: Tensor<real>, before: Size3, after: Size3, c: int, p: Int3)
    requires WellFormed(t) && PadAllowed3(Constant, t.size, before, after)
    requires 0 <= c < t.channels && InGrid(p, PaddedSize(t.size, before, after)) && !InGrid(Minus(p, before), t.size)
    ensures PadValue(t, Constant, before, after, c, p) == 0.0
  {
  }

  /** `torch.nn.functional.pad(t, pads, mode)` over the three spatial axes. */
  function PadTensor(t: Tensor<real>, mode: PadMode, before: Size3, after: Size3): (r: Result<Tensor<real>>)
    requires WellFormed(t)
    ensures r.Err? <==> !PadAllowed3(mode, t.size, before, after)
    ensures r.Err? ==> r.error == PadTooLarge
    ensures r.Ok? ==> WellFormed(r.value) && r.value.channels == t.channels &&
                      r.value.size == PaddedSize(t.size, before, after)
    ensures r.Ok? ==> forall c, p :: InBounds(r.value, c, p) ==> Get(r.value, c, p) == PadValue(t, mode, before, after, c, p)
  {
    if !PadAllowed3(mode, t.size, before, after) then Err(PadTooLarge)
    else
      var size := PaddedSize(t.size, before, after);
      var f := (c: int, p: Int3) requires 0 <= c < t.channels && InGrid(p, size) => PadValue(t, mode, before, after, c, p);
      Ok(Build(t.channels, size, f))
  }

  /** Padding keeps every voxel, `before` further on. */
  lemma PadTensorInterior(t: Tensor<real>, mode: PadMode, before: Size3, after: Size3, c: int, p: Int3)
    requires WellFormed(t) && PadTensor(t, mode, before, after).Ok? && InBounds(t, c, p)
    ensures var r := PadTensor(t, mode, before, after).value;
            InBounds(r, c, Plus(p, before)) && Get(r, c, Plus(p, before)) == Get(t, c, p)
  {
    PadValueInterior(t, mode, before, after, c, p);
  }

  /** Constant padding puts zero wherever no voxel of `t` lands. */
  lemma PadTensorZeros(t: Tensor<real>, before: Size3, after: Size3, c: int, p: Int3)
    requires WellFormed(t) && PadTensor(t, Constant, before, after).Ok?
    requires InBounds(PadTensor(t, Constant, before, after).value, c, p) && !InGrid(Minus(p, before), t.size)
    ensures Get(PadTensor(t, Constant, before, after).value, c, p) == 0.0
  {
    PadValueOutside(t, before, after, c, p);
  }

  // ---------------------------------------------------------------------------
  // the fast path
  // ---------------------------------------------------------------------------

  /** The outcome of `resample_like`: a volume, an exception, or the
      interpolating fallback, which is not modelled. */
  datatype Resampled = Done(volume: Volume) | Failed(error: Error) | Interpolated

  function Finish(r: Result<Volume>): Resampled {
    match r
    case Ok(u) => Done(u)
    case Err(e) => Failed(e)
  }

  /** The rotation and scale of the two geometries agree. */
  predicate SameLinear(v: Volume, target: Geometry) {
    v.geometry.matrix.lin == target.matrix.lin
  }

  /** The two geometries agree altogether. */
  predicate Identical(v: Volume, target: Geometry) {
    SameLinear(v, target) && target.baseshape == v.tensor.size && v.geometry.matrix.trans == target.matrix.trans
  }

  /** Every component of the voxel offset is a whole number. */
  predicate Integral(d: Vec3) {
    d.x.Floor as real == d.x && d.y.Floor as real == d.y && d.z.Floor as real == d.z
  }

  function Rounded(d: Vec3): Int3 { Int3(d.x.Floor, d.y.Floor, d.z.Floor) }

  predicate NonNegative(t: Int3) { t.x >= 0 && t.y >= 0 && t.z >= 0 }

  /** The target grid lies inside the source grid. */
  predicate Inside(lower: Int3, t: Int3, s: Int3) {
    InsideAxis(lower.x, t.x, s.x) && InsideAxis(lower.y, t.y, s.y) && InsideAxis(lower.z, t.z, s.z)
  }

  datatype Plans = Plans(x: AxisPlan, y: AxisPlan, z: AxisPlan)

  predicate PlansFit(ps: Plans, s: Size3) {
    ps.x.start + ps.x.count <= s.x && ps.y.start + ps.y.count <= s.y && ps.z.start + ps.z.count <= s.z
  }

  function Before(ps: Plans): Size3 { Int3(ps.x.before, ps.y.before, ps.z.before) }
  function After(ps: Plans): Size3 { Int3(ps.x.after, ps.y.after, ps.z.after) }
  function Kept(ps: Plans): Size3 { Int3(ps.x.count, ps.y.count, ps.z.count) }
  function Start(ps: Plans): Int3 { Int3(ps.x.start, ps.y.start, ps.z.start) }
  /** The shape of the result: the kept voxels with the pads around them. */
  function Extents(ps: Plans): (e: Size3)
    ensures e == Int3(Extent(ps.x), Extent(ps.y), Extent(ps.z))
  {
    PaddedSize(Kept(ps), Before(ps), After(ps))
  }

  predicate NoPadding(ps: Plans) { Before(ps) == Zero3 && After(ps) == Zero3 }

  /** The crop: every channel, `count` voxels from `start` on each axis. */
  function CropWindow(channels: nat, ps: Plans): (w: Window)
    ensures WindowSize(w) == Kept(ps)
  {
    Window(Whole(channels), Range(ps.x.start, ps.x.count, 1), Range(ps.y.start, ps.y.count, 1),
           Range(ps.z.start, ps.z.count, 1))
  }

  lemma CropFits(v: Volume, ps: Plans)
    requires Valid(v) && PlansFit(ps, v.tensor.size)
    ensures WindowFits(CropWindow(v.tensor.channels, ps), v.tensor)
  {
  }

  /** `tensor[:, x0:x1, y0:y1, z0:z1]` with the kept windows of the plans. */
  function Crop(v: Volume, ps: Plans): (r: Tensor<real>)
    requires Valid(v) && PlansFit(ps, v.tensor.size)
    ensures WellFormed(r) && r.channels == v.tensor.channels && r.size == Kept(ps)
  {
    CropFits(v, ps);
    Slice(v.tensor, CropWindow(v.tensor.channels, ps))
  }

  /** Voxel `q` of the crop is source voxel `q + start`. */
  lemma CropVoxel(v: Volume, ps: Plans, c: int, q: Int3)
    requires Valid(v) && PlansFit(ps, v.tensor.size) && InBounds(Crop(v, ps), c, q)
    ensures InBounds(v.tensor, c, Plus(q, Start(ps))) && Get(Crop(v, ps), c, q) == Get(v.tensor, c, Plus(q, Start(ps)))
  {
    var w := CropWindow(v.tensor.channels, ps);
    CropFits(v, ps);
    CropPicks(v.tensor.channels, ps, c, q);
    assert Crop(v, ps) == Slice(v.tensor, w);
  }

  lemma CropPicks(channels: nat, ps: Plans, c: int, q: Int3)
    ensures Pick(CropWindow(channels, ps).c, c) == c
    ensures Picked(CropWindow(channels, ps), q) == Plus(q, Start(ps))
  {
  }

  /** The crop, padded by the plans' amounts in torch mode `mode`. */
  function CropPad(v: Volume, ps: Plans, mode: PadMode): (r: Result<Tensor<real>>)
    requires Valid(v) && PlansFit(ps, v.tensor.size)
    ensures r.Err? <==> !PadAllowed3(mode, Kept(ps), Before(ps), After(ps))
    ensures r.Err? ==> r.error == PadTooLarge
    ensures r.Ok? ==> WellFormed(r.value) && r.value.channels == v.tensor.channels && r.value.size == Extents(ps)
  {
    var cropped := Crop(v, ps);
    PadTensor(cropped, mode, Before(ps), After(ps))
  }

  /** Padding keeps each voxel of the crop, `before` further on. */
  lemma CropPadKept(v: Volume, ps: Plans, mode: PadMode, c: int, q: Int3)
    requires Valid(v) && PlansFit(ps, v.tensor.size) && CropPad(v, ps, mode).Ok?
    requires InBounds(Crop(v, ps), c, q)
    ensures InBounds(CropPad(v, ps, mode).value, c, Plus(q, Before(ps)))
    ensures InBounds(v.tensor, c, Plus(q, Start(ps)))
    ensures Get(CropPad(v, ps, mode).value, c, Plus(q, Before(ps))) == Get(v.tensor, c, Plus(q, Start(ps)))
  {
    CropVoxel(v, ps, c, q);
    PadTensorInterior(Crop(v, ps), mode, Before(ps), After(ps), c, q);
  }

  /** Zero padding is zero wherever no voxel of the crop lands. */
  lemma CropPadZeros(v: Volume, ps: Plans, c: int, p: Int3)
    requires Valid(v) && PlansFit(ps, v.tensor.size) && CropPad(v, ps, Constant).Ok?
    requires InBounds(CropPad(v, ps, Constant).value, c, p) && !InGrid(Minus(p, Before(ps)), Kept(ps))
    ensures Get(CropPad(v, ps, Constant).value, c, p) == 0.0
  {
    PadTensorZeros(Crop(v, ps), Before(ps), After(ps), c, p);
  }

  /** The crop, padded when some amount is not zero.  An unknown padding mode
      is refused only when padding is needed. */
  function Padded(v: Volume, ps: Plans, paddingMode: string): (r: Result<Tensor<real>>)
    requires Valid(v) && PlansFit(ps, v.tensor.size)
    ensures r.Ok? ==> WellFormed(r.value) && r.value.channels == v.tensor.channels && r.value.size == Extents(ps)
    ensures r == Err(NoPaddingMode(paddingMode)) <==> !NoPadding(ps) && TorchPadMode(paddingMode).None?
    ensures r.Err? ==> r.error == NoPaddingMode(paddingMode) || r.error == PadTooLarge
    ensures NoPadding(ps) || TorchPadMode(paddingMode) == Some(Constant) ==> r.Ok?
  {
    if NoPadding(ps) then
      var cropped := Crop(v, ps);
      assert Extents(ps) == Kept(ps);
      Ok(cropped)
    else
      match TorchPadMode(paddingMode)
      case None => Err(NoPaddingMode(paddingMode))
      case Some(mode) => CropPad(v, ps, mode)
  }

  /** Every kept source voxel appears in the padded crop, `before` further on. */
  lemma PaddedKept(v: Volume, ps: Plans, paddingMode: string, c: int, q: Int3)
    requires Valid(v) && PlansFit(ps, v.tensor.size) && Padded(v, ps, paddingMode).Ok?
    requires 0 <= c < v.tensor.channels && InGrid(q, Kept(ps))
    ensures InBounds(Padded(v, ps, paddingMode).value, c, Plus(q, Before(ps)))
    ensures InBounds(v.tensor, c, Plus(q, Start(ps)))
    ensures Get(Padded(v, ps, paddingMode).value, c, Plus(q, Before(ps))) == Get(v.tensor, c, Plus(q, Start(ps)))
  {
    if NoPadding(ps) {
      assert Plus(q, Before(ps)) == q;
      CropVoxel(v, ps, c, q);
    } else {
      CropPadKept(v, ps, TorchPadMode(paddingMode).value, c, q);
    }
  }

  /** In zeros mode every other voxel of the padded crop is zero. */
  lemma PaddedZeros(v: Volume, ps: Plans, c: int, p: Int3)
    requires Valid(v) && PlansFit(ps, v.tensor.size)
    requires InBounds(Padded(v, ps, "zeros").value, c, p) && !InGrid(Minus(p, Before(ps)), Kept(ps))
    ensures Get(Padded(v, ps, "zeros").value, c, p) == 0.0
  {
    if NoPadding(ps) {
      assert false;
    } else {
      CropPadZeros(v, ps, c, p);
    }
  }

  /** Hand the padded crop to `new` with the target geometry, which refuses it
      when its shape is not the target's. */
  function CropAndPad(v: Volume, target: Geometry, paddingMode: string, ps: Plans): (r: Resampled)
    requires Valid(v) && PlansFit(ps, v.tensor.size)
    ensures r != Interpolated
    ensures r.Done? ==> Valid(r.volume) && r.volume.geometry == target &&
                        Padded(v, ps, paddingMode).Ok? && r.volume.tensor == Padded(v, ps, paddingMode).value
    ensures Padded(v, ps, paddingMode).Err? ==> r == Failed(Padded(v, ps, paddingMode).error)
    ensures Padded(v, ps, paddingMode).Ok? ==> (r.Done? <==> Extents(ps) == target.baseshape)
    ensures Padded(v, ps, paddingMode).Ok? && !r.Done? ==> r == Failed(ShapeMismatch)
  {
    match Padded(v, ps, paddingMode)
    case Err(e) => Failed(e)
    case Ok(t) =>
      NewWithGeometry(v, t, target);
      Finish(New(v, Channelled(t), Some(target)))
  }

  /** `v.resample_like(target, padding_mode=paddingMode)` as far as the fast
      path goes, with the target's grid clamped to the source before the crop
      amounts are taken.  `delta` is the target origin in source voxel
      coordinates, `inverse(source) @ target` applied to the zero vector. */
  function ResampleLike(v: Volume, target: Geometry, paddingMode: string, delta: Vec3): (r: Resampled)
    requires Valid(v) && Apply(v.geometry.matrix, delta) == target.matrix.trans
    ensures !SameLinear(v, target) ==> r == Interpolated
    ensures Identical(v, target) ==> r == Done(Volume(v.tensor, target))
    ensures SameLinear(v, target) && !Identical(v, target) && !Integral(delta) ==> r == Interpolated
    ensures r.Done? ==> Valid(r.volume) && r.volume.geometry == target && r.volume.tensor.channels == v.tensor.channels
    ensures SameLinear(v, target) && Integral(delta) && !NonNegative(target.baseshape) ==> r == Failed(ShapeMismatch)
    ensures SameLinear(v, target) && !Identical(v, target) && Integral(delta) && NonNegative(target.baseshape) ==>
              r == CropAndPad(v, target, paddingMode, PlansFor(Rounded(delta), target.baseshape, v.tensor.size))
  {
    if !SameLinear(v, target) then Interpolated
    else if Identical(v, target) then
      NewWithGeometry(v, v.tensor, target);
      Finish(New(v, Channelled(v.tensor), Some(target)))
    else if !Integral(delta) then Interpolated
    else if !NonNegative(target.baseshape) then Failed(ShapeMismatch)
    else
      var ps := PlansFor(Rounded(delta), target.baseshape, v.tensor.size);
      var r := CropAndPad(v, target, paddingMode, ps);
      assert r.Done? ==> r.volume.tensor.channels == v.tensor.channels;
      r
  }

  /** When the padded crop has the target's shape, the result is a volume
      unless padding is needed and the mode is unknown or torch refuses it. */
  lemma CropAndPadOutcome(v: Volume, target: Geometry, paddingMode: string, ps: Plans)
    requires Valid(v) && PlansFit(ps, v.tensor.size) && Extents(ps) == target.baseshape
    ensures var r := CropAndPad(v, target, paddingMode, ps);
            (NoPadding(ps) || paddingMode == "zeros" ==> r.Done?) &&
            (r == Failed(NoPaddingMode(paddingMode)) <==> !NoPadding(ps) && TorchPadMode(paddingMode).None?) &&
            (r.Done? ==> r.volume.tensor.size == target.baseshape)
  {
    var r := CropAndPad(v, target, paddingMode, ps);
    var padded := Padded(v, ps, paddingMode);
    if padded.Ok? {
      assert r.Done?;
    } else {
      assert r == Failed(padded.error);
    }
  }

  /** No padding is needed exactly when the target grid lies inside the source grid. */
  lemma PlansPadIffOutside(lower: Int3, t: Size3, s: Size3)
    ensures NoPadding(PlansFor(lower, t, s)) <==> Inside(lower, t, s)
  {
    PlanPadsIffOutside(lower.x, t.x, s.x);
    PlanPadsIffOutside(lower.y, t.y, s.y);
    PlanPadsIffOutside(lower.z, t.z, s.z);
  }

  /** On the integer-shift path every target shape goes through, and an
      unknown padding mode is refused exactly when the target grid leaves the
      source grid. */
  lemma ResampleLikeOutcome(v: Volume, target: Geometry, paddingMode: string, delta: Vec3)
    requires Valid(v) && Apply(v.geometry.matrix, delta) == target.matrix.trans
    ensures var r := ResampleLike(v, target, paddingMode, delta);
            SameLinear(v, target) && !Identical(v, target) && Integral(delta) && NonNegative(target.baseshape) ==>
              (paddingMode == "zeros" || Inside(Rounded(delta), target.baseshape, v.tensor.size) ==> r.Done?) &&
              (r == Failed(NoPaddingMode(paddingMode)) <==>
                 !Inside(Rounded(delta), target.baseshape, v.tensor.size) && TorchPadMode(paddingMode).None?) &&
              (r.Done? ==> r.volume.tensor.size == target.baseshape)
  {
    if SameLinear(v, target) && !Identical(v, target) && Integral(delta) && NonNegative(target.baseshape) {
      var lower, t, s := Rounded(delta), target.baseshape, v.tensor.size;
      var ps := PlansFor(lower, t, s);
      PlansPadIffOutside(lower, t, s);
      CropAndPadOutcome(v, target, paddingMode, ps);
    }
  }

  /** The plans the fast path takes as written. */
  function PlansAsWritten(lower: Int3, t: Int3, s: Size3): (ps: Plans)
    ensures PlansFit(ps, s)
  {
    Plans(PlanAsWritten(lower.x, t.x, s.x), PlanAsWritten(lower.y, t.y, s.y), PlanAsWritten(lower.z, t.z, s.z))
  }

  /** The fast path exactly as written: the crop amounts are taken from the
      unclamped target window. */
  function ResampleLikeAsWritten(v: Volume, target: Geometry, paddingMode: string, delta: Vec3): (r: Resampled)
    requires Valid(v) && Apply(v.geometry.matrix, delta) == target.matrix.trans
    ensures !SameLinear(v, target) || (!Identical(v, target) && !Integral(delta)) ==> r == Interpolated
    ensures Identical(v, target) ==> r == Done(Volume(v.tensor, target))
    ensures SameLinear(v, target) && !Identical(v, target) && Integral(delta) ==>
              r == CropAndPad(v, target, paddingMode, PlansAsWritten(Rounded(delta), target.baseshape, v.tensor.size))
  {
    if !SameLinear(v, target) then Interpolated
    else if Identical(v, target) then
      NewWithGeometry(v, v.tensor, target);
      Finish(New(v, Channelled(v.tensor), Some(target)))
    else if !Integral(delta) then Interpolated
    else CropAndPad(v, target, paddingMode, PlansAsWritten(Rounded(delta), target.baseshape, v.tensor.size))
  }

  /** A zero-padded crop whose shape is not the target's is refused by `new`. */
  lemma CropAndPadMisshaped(v: Volume, target: Geometry, ps: Plans)
    requires Valid(v) && PlansFit(ps, v.tensor.size) && Extents(ps) != target.baseshape
    ensures CropAndPad(v, target, "zeros", ps) == Failed(ShapeMismatch)
  {
    assert Padded(v, ps, "zeros").Ok?;
  }

  /** Target windows that lie wholly beside the source on some axis make the
      as-written fast path build a tensor of the wrong shape, which `new`
      then refuses, while the clamped version returns an all-padding volume. */
  lemma AsWrittenRejectsDisjoint(v: Volume, target: Geometry, delta: Vec3)
    requires Valid(v) && Apply(v.geometry.matrix, delta) == target.matrix.trans
    requires SameLinear(v, target) && !Identical(v, target) && Integral(delta) && NonNegative(target.baseshape)
    requires var lower, t, s := Rounded(delta), target.baseshape, v.tensor.size;
             !(lower.x <= s.x && 0 <= lower.x + t.x) || !(lower.y <= s.y && 0 <= lower.y + t.y) ||
             !(lower.z <= s.z && 0 <= lower.z + t.z)
    ensures ResampleLikeAsWritten(v, target, "zeros", delta) == Failed(ShapeMismatch)
    ensures ResampleLike(v, target, "zeros", delta).Done?
  {
    var lower, t, s := Rounded(delta), target.baseshape, v.tensor.size;
    PlanAsWrittenExtent(lower.x, t.x, s.x);
    PlanAsWrittenExtent(lower.y, t.y, s.y);
    PlanAsWrittenExtent(lower.z, t.z, s.z);
    var ps := PlansAsWritten(lower, t, s);
    assert Extents(ps) != t;
    CropAndPadMisshaped(v, target, ps);
    ResampleLikeOutcome(v, target, "zeros", delta);
  }

  /** Where the windows overlap on every axis the two versions agree. */
  lemma AsWrittenAgreesOnOverlap(v: Volume, target: Geometry, paddingMode: string, delta: Vec3)
    requires Valid(v) && Apply(v.geometry.matrix, delta) == target.matrix.trans
    requires NonNegative(target.baseshape)
    requires var lower, t, s := Rounded(delta), target.baseshape, v.tensor.size;
             lower.x <= s.x && 0 <= lower.x + t.x && lower.y <= s.y && 0 <= lower.y + t.y &&
             lower.z <= s.z && 0 <= lower.z + t.z
    ensures ResampleLikeAsWritten(v, target, paddingMode, delta) == ResampleLike(v, target, paddingMode, delta)
  {
    var lower, t, s := Rounded(delta), target.baseshape, v.tensor.size;
    PlanAgrees(lower.x, t.x, s.x);
    PlanAgrees(lower.y, t.y, s.y);
    PlanAgrees(lower.z, t.z, s.z);
  }

  /** The source voxel that target voxel `p` covers, when there is one. */
  function SourceVoxel(v: Volume, lower: Int3, c: int, p: Int3): real
    requires Valid(v) && 0 <= c < v.tensor.channels
  {
    if InGrid(Plus(p, lower), v.tensor.size) then Get(v.tensor, c, Plus(p, lower)) else 0.0
  }

  /** The plans `ResampleLike` takes for a target of shape `t` whose first
      voxel is source voxel `lower`. */
  function PlansFor(lower: Int3, t: Size3, s: Size3): (ps: Plans)
    ensures PlansFit(ps, s) && Extents(ps) == t
  {
    Plans(Plan(lower.x, t.x, s.x), Plan(lower.y, t.y, s.y), Plan(lower.z, t.z, s.z))
  }

  /** On one axis, target position `i` holds a kept voxel exactly when source
      position `i + lower` exists, and then it holds that one. */
  lemma PlanVoxel(lower: int, t: nat, s: nat, i: int)
    requires 0 <= i < t
    ensures var a := Plan(lower, t, s);
            (0 <= i - a.before < a.count <==> 0 <= i + lower < s) &&
            (0 <= i - a.before < a.count ==> i - a.before + a.start == i + lower)
  {
    assert Copies(Plan(lower, t, s), i) <==> 0 <= i + lower < s;
  }

  /** The zero-padded crop for a target of shape `t` whose first voxel is
      source voxel `lower` holds source voxel `p + lower` at `p`, or zero. */
  lemma PaddedVoxel(v: Volume, lower: Int3, t: Size3, c: int, p: Int3)
    requires Valid(v) && 0 <= c < v.tensor.channels && InGrid(p, t)
    ensures var padded := Padded(v, PlansFor(lower, t, v.tensor.size), "zeros").value;
            InBounds(padded, c, p) && Get(padded, c, p) == SourceVoxel(v, lower, c, p)
  {
    var ps := PlansFor(lower, t, v.tensor.size);
    var q := Minus(p, Before(ps));
    PlansVoxel(lower, t, v.tensor.size, p);
    if InGrid(q, Kept(ps)) {
      PaddedKept(v, ps, "zeros", c, q);
    } else {
      PaddedZeros(v, ps, c, p);
    }
  }

  /** Target voxel `p` holds a kept voxel exactly when source voxel
      `p + lower` exists, and then it holds that one. */
  lemma PlansVoxel(lower: Int3, t: Size3, s: Size3, p: Int3)
    requires InGrid(p, t)
    ensures var ps := PlansFor(lower, t, s);
            var q := Minus(p, Before(ps));
            (InGrid(q, Kept(ps)) <==> InGrid(Plus(p, lower), s)) &&
            Plus(q, Before(ps)) == p &&
            (InGrid(q, Kept(ps)) ==> Plus(q, Start(ps)) == Plus(p, lower))
  {
    PlanVoxel(lower.x, t.x, s.x, p.x);
    PlanVoxel(lower.y, t.y, s.y, p.y);
    PlanVoxel(lower.z, t.z, s.z, p.z);
  }

  /** In zeros mode the fast path puts the source voxel `p + lower` at target
      voxel `p`, and zero where the source has no such voxel. */
  lemma ResampleZerosVoxel(v: Volume, target: Geometry, delta: Vec3, c: int, p: Int3)
    requires Valid(v) && Apply(v.geometry.matrix, delta) == target.matrix.trans
    requires SameLinear(v, target) && !Identical(v, target) && Integral(delta) && NonNegative(target.baseshape)
    requires 0 <= c < v.tensor.channels && InGrid(p, target.baseshape)
    ensures var r := ResampleLike(v, target, "zeros", delta);
            r.Done? && InBounds(r.volume.tensor, c, p) && Get(r.volume.tensor, c, p) == SourceVoxel(v, Rounded(delta), c, p)
  {
    ResampleLikeOutcome(v, target, "zeros", delta);
    PaddedVoxel(v, Rounded(delta), target.baseshape, c, p);
  }

  /** The same for every voxel. */
  lemma ResampleZerosContent(v: Volume, target: Geometry, delta: Vec3)
    requires Valid(v) && Apply(v.geometry.matrix, delta) == target.matrix.trans
    requires SameLinear(v, target) && !Identical(v, target) && Integral(delta) && NonNegative(target.baseshape)
    ensures var r := ResampleLike(v, target, "zeros", delta);
            r.Done? && r.volume.tensor.size == target.baseshape &&
            forall c, p :: InBounds(r.volume.tensor, c, p) ==>
              Get(r.volume.tensor, c, p) == SourceVoxel(v, Rounded(delta), c, p)
  {
    var r := ResampleLike(v, target, "zeros", delta);
    forall c, p | InBounds(r.volume.tensor, c, p)
      ensures Get(r.volume.tensor, c, p) == SourceVoxel(v, Rounded(delta), c, p)
    {
      ResampleZerosVoxel(v, target, delta, c, p);
    }
  }

  /** With matching rotation and scale and a whole-voxel offset, target voxel
      `p` sits at the world position of source voxel `p + lower`: the fast
      path moves no voxel in the world. */
  lemma FastPathAligned(v: Volume, target: Geometry, delta: Vec3)
    requires Apply(v.geometry.matrix, delta) == target.matrix.trans
    requires SameLinear(v, target) && Integral(delta)
    ensures forall p :: WorldOf(target.matrix, p) == WorldOf(v.geometry.matrix, Plus(p, Rounded(delta)))
  {
    forall p ensures WorldOf(target.matrix, p) == WorldOf(v.geometry.matrix, Plus(p, Rounded(delta))) {
      assert Real3(Plus(p, Rounded(delta))) == Add(Real3(p), delta);
      MatVecAdditive(v.geometry.matrix.lin, Real3(p), delta);
    }
  }

  // ---------------------------------------------------------------------------
  // reshape and pad
  // ---------------------------------------------------------------------------

  /** Resampling onto the grid of shape `t` whose first voxel is source voxel
      `shift`, in zeros mode (the default of `resample_like`). */
  function ReshapeBy(v: Volume, t: Int3, shift: Int3): (r: Resampled)
    requires Valid(v)
    ensures NonNegative(t) ==>
              r.Done? && Valid(r.volume) && r.volume.tensor.size == t && r.volume.tensor.channels == v.tensor.channels &&
              r.volume.geometry == Geometry(t, ShiftVoxel(v.geometry.matrix, shift))
    ensures !NonNegative(t) ==> r == Failed(ShapeMismatch)
  {
    var target := Geometry(t, ShiftVoxel(v.geometry.matrix, shift));
    assert Rounded(Real3(shift)) == shift;
    ResampleLikeOutcome(v, target, "zeros", Real3(shift));
    ResampleLike(v, target, "zeros", Real3(shift))
  }

  /** A reshaped volume holds the source voxel `p + shift` at voxel `p`, or
      zero, provided the shift is zero whenever the shape stays. */
  lemma ReshapeByContent(v: Volume, t: Int3, shift: Int3)
    requires Valid(v)
    requires t == v.tensor.size ==> shift == Zero3
    ensures var r := ReshapeBy(v, t, shift);
            NonNegative(t) ==> forall c, p :: InBounds(r.volume.tensor, c, p) ==> Get(r.volume.tensor, c, p) == SourceVoxel(v, shift, c, p)
  {
    var target := Geometry(t, ShiftVoxel(v.geometry.matrix, shift));
    assert Rounded(Real3(shift)) == shift;
    if !NonNegative(t) {
    } else if Identical(v, target) {
      var r := ReshapeBy(v, t, shift);
      assert shift == Zero3;
      forall c, p | InBounds(r.volume.tensor, c, p) ensures Get(r.volume.tensor, c, p) == SourceVoxel(v, shift, c, p) {
        assert Plus(p, shift) == p;
      }
    } else {
      ResampleZerosContent(v, target, Real3(shift));
    }
  }

  /** `(cur - target) // 2` on each axis. */
  function FloorShift(s: Int3, t: Int3): Int3 {
    Int3((s.x - t.x) / 2, (s.y - t.y) / 2, (s.z - t.z) / 2)
  }

  /** Half of `d`, rounded toward zero, so that Half(-d) == -Half(d). */
  function Half(d: int): (h: int)
    ensures d - 1 <= 2 * h <= d + 1
    ensures 0 <= d ==> 0 <= 2 * h <= d
    ensures d <= 0 ==> d <= 2 * h <= 0
  {
    if d >= 0 then d / 2 else -((-d) / 2)
  }

  lemma HalfIsOdd(d: int)
    ensures Half(-d) == -Half(d)
  {
  }

  function HalfShift(s: Int3, t: Int3): Int3 {
    Int3(Half(s.x - t.x), Half(s.y - t.y), Half(s.z - t.z))
  }

  /** `v.reshape(t)` as written: the new grid is centred on the old one with
      the floor-divided shift `(cur - t) // 2`. */
  function ReshapeAsWritten(v: Volume, t: Int3): (r: Resampled)
    requires Valid(v)
    ensures NonNegative(t) ==>
              r.Done? && Valid(r.volume) && r.volume.tensor.size == t &&
              r.volume.geometry.matrix == ShiftVoxel(v.geometry.matrix, FloorShift(v.tensor.size, t))
  {
    ReshapeBy(v, t, FloorShift(v.tensor.size, t))
  }

  /** Building the as-written reshape on the corrected fast path loses
      nothing: the floor-centred target window always overlaps the source, so
      the fast path as written takes the same result. */
  lemma ReshapeAsWrittenFastPath(v: Volume, t: Int3)
    requires Valid(v) && NonNegative(t)
    ensures var shift := FloorShift(v.tensor.size, t);
            ReshapeAsWritten(v, t) ==
            ResampleLikeAsWritten(v, Geometry(t, ShiftVoxel(v.geometry.matrix, shift)), "zeros", Real3(shift))
  {
    var shift := FloorShift(v.tensor.size, t);
    var target := Geometry(t, ShiftVoxel(v.geometry.matrix, shift));
    assert Rounded(Real3(shift)) == shift;
    AsWrittenAgreesOnOverlap(v, target, "zeros", Real3(shift));
  }

  /** `v.reshape(t)` with the centring shift rounded toward zero, so that the
      shift out and the shift back cancel. */
  function Reshape(v: Volume, t: Int3): (r: Resampled)
    requires Valid(v)
    ensures NonNegative(t) ==>
              r.Done? && Valid(r.volume) && r.volume.tensor.size == t && r.volume.tensor.channels == v.tensor.channels &&
              r.volume.geometry.matrix == ShiftVoxel(v.geometry.matrix, HalfShift(v.tensor.size, t))
    ensures NonNegative(t) ==> forall c, p :: InBounds(r.volume.tensor, c, p) ==>
              Get(r.volume.tensor, c, p) == SourceVoxel(v, HalfShift(v.tensor.size, t), c, p)
    ensures !NonNegative(t) ==> r == Failed(ShapeMismatch)
  {
    ReshapeByContent(v, t, HalfShift(v.tensor.size, t));
    ReshapeBy(v, t, HalfShift(v.tensor.size, t))
  }

  /** The truncated shifts out and back cancel. */
  lemma HalfShiftCancels(s: Int3, t: Int3)
    ensures Plus(HalfShift(s, t), HalfShift(t, s)) == Zero3
  {
    HalfIsOdd(s.x - t.x);
    HalfIsOdd(s.y - t.y);
    HalfIsOdd(s.z - t.z);
  }

  /** Reshaping back restores the original geometry exactly. */
  lemma ReshapeRoundTrip(v: Volume, t: Int3)
    requires Valid(v) && NonNegative(t)
    ensures var w := Reshape(v, t).volume;
            Reshape(w, v.tensor.size).Done? && Reshape(w, v.tensor.size).volume.geometry == v.geometry
  {
    var s := v.tensor.size;
    var w := Reshape(v, t).volume;
    assert w.tensor.size == t;
    var u := Reshape(w, s).volume;
    assert u.geometry.matrix == ShiftVoxel(w.geometry.matrix, HalfShift(t, s));
    ShiftVoxelTwice(v.geometry.matrix, HalfShift(s, t), HalfShift(t, s));
    HalfShiftCancels(s, t);
    ShiftVoxelZero(v.geometry.matrix);
    assert u.geometry.baseshape == s;
  }

  lemma FloorHalves(d: int)
    ensures d / 2 + (-d) / 2 == -(d % 2)
  {
  }

  /** -1 on every axis whose size difference is odd, 0 elsewhere. */
  function OddResidue(s: Int3, t: Int3): Int3 {
    Int3(-((s.x - t.x) % 2), -((s.y - t.y) % 2), -((s.z - t.z) % 2))
  }

  /** The floor-divided shifts out and back leave -1 on every axis whose size
      difference is odd. */
  lemma FloorShiftResidue(s: Int3, t: Int3)
    ensures Plus(FloorShift(s, t), FloorShift(t, s)) == OddResidue(s, t)
  {
    FloorHalves(s.x - t.x);
    FloorHalves(s.y - t.y);
    FloorHalves(s.z - t.z);
  }

  /** Reshaping back as written leaves the matrix shifted by -1 voxel on every
      axis whose size difference is odd. */
  lemma ReshapeAsWrittenRoundTrip(v: Volume, t: Int3)
    requires Valid(v) && NonNegative(t)
    ensures var s := v.tensor.size;
            var w := ReshapeAsWritten(v, t).volume;
            ReshapeAsWritten(w, s).Done? &&
            ReshapeAsWritten(w, s).volume.geometry.matrix == ShiftVoxel(v.geometry.matrix, OddResidue(s, t))
  {
    var s := v.tensor.size;
    var w := ReshapeAsWritten(v, t).volume;
    assert w.tensor.size == t;
    var u := ReshapeAsWritten(w, s).volume;
    assert u.geometry.matrix == ShiftVoxel(w.geometry.matrix, FloorShift(t, s));
    ShiftVoxelTwice(v.geometry.matrix, FloorShift(s, t), FloorShift(t, s));
    FloorShiftResidue(s, t);
  }

  /** Starting from the unit grid at the world origin, reshaping to `t` and
      back as written leaves the first voxel at the odd residue. */
  lemma ReshapeAsWrittenDrift(v: Volume, t: Int3, u: Volume)
    requires Valid(v) && NonNegative(t) && v.geometry.matrix == Affine(Identity, Origin)
    requires u == ReshapeAsWritten(ReshapeAsWritten(v, t).volume, v.tensor.size).volume
    ensures u.geometry.matrix.trans == Real3(OddResidue(v.tensor.size, t))
  {
    ReshapeAsWrittenRoundTrip(v, t);
    ShiftFromOrigin(OddResidue(v.tensor.size, t));
  }

  /** A unit-spaced 4 x 1 x 1 grid with its first voxel at the world origin,
      reshaped to 3 x 1 x 1 and back as written, has its first voxel at world
      x = -1. */
  lemma ReshapeAsWrittenNotSymmetric(v: Volume, u: Volume)
    requires Valid(v) && v.tensor.size == Int3(4, 1, 1) && v.geometry.matrix == Affine(Identity, Origin)
    requires u == ReshapeAsWritten(ReshapeAsWritten(v, Int3(3, 1, 1)).volume, Int3(4, 1, 1)).volume
    ensures u.geometry.matrix.trans == Vec3(-1.0, 0.0, 0.0)
    ensures u.geometry != v.geometry
  {
    ReshapeAsWrittenDrift(v, Int3(3, 1, 1), u);
    OneOddAxis();
  }

  lemma OneOddAxis()
    ensures OddResidue(Int3(4, 1, 1), Int3(3, 1, 1)) == Int3(-1, 0, 0)
  {
  }

  /** Shifting the unit grid at the origin moves its first voxel to `d`. */
  lemma ShiftFromOrigin(d: Int3)
    ensures ShiftVoxel(Affine(Identity, Origin), d).trans == Real3(d)
  {
  }

  /** A volume meeting the requirements of `ReshapeAsWrittenNotSymmetric`:
      the 4 x 1 x 1 grid, every voxel `fill`. */
  function Bar(fill: real): (v: Volume)
    ensures Valid(v) && v.tensor.size == Int3(4, 1, 1) && v.geometry.matrix == Affine(Identity, Origin)
  {
    Volume(Full(1, Int3(4, 1, 1), fill), Geometry(Int3(4, 1, 1), Affine(Identity, Origin)))
  }

  /** `v.pad(d)` as written, with `d` in voxels: the grid grows by `d`
      (shrinks where `d` is negative), centred with the floor-divided shift
      `(cur - new) // 2`, exactly as `reshape` to `cur + d` is. */
  function PadAsWritten(v: Volume, d: Int3): (r: Resampled)
    requires Valid(v)
    ensures NonNegative(Plus(v.tensor.size, d)) ==>
              r.Done? && Valid(r.volume) && r.volume.tensor.size == Plus(v.tensor.size, d) &&
              r.volume.geometry.matrix == ShiftVoxel(v.geometry.matrix, FloorShift(v.tensor.size, Plus(v.tensor.size, d)))
    ensures !NonNegative(Plus(v.tensor.size, d)) ==> r == Failed(ShapeMismatch)
  {
    ReshapeAsWritten(v, Plus(v.tensor.size, d))
  }

  /** Padding as written by `d` and then by `-d` restores the shape but
      leaves the matrix shifted by -1 voxel on every axis where `d` is odd. */
  lemma PadAsWrittenRoundTrip(v: Volume, d: Int3)
    requires Valid(v) && NonNegative(Plus(v.tensor.size, d))
    ensures var w := PadAsWritten(v, d).volume;
            PadAsWritten(w, Minus(Zero3, d)).Done? && PadAsWritten(w, Minus(Zero3, d)).volume.tensor.size == v.tensor.size &&
            PadAsWritten(w, Minus(Zero3, d)).volume.geometry.matrix ==
              ShiftVoxel(v.geometry.matrix, OddResidue(v.tensor.size, Plus(v.tensor.size, d)))
  {
    var s, t := v.tensor.size, Plus(v.tensor.size, d);
    ReshapeAsWrittenRoundTrip(v, t);
    var w := ReshapeAsWritten(v, t).volume;
    assert PadAsWritten(v, d) == ReshapeAsWritten(v, t);
    assert w.tensor.size == t;
    UndoDelta(s, d);
    assert PadAsWritten(w, Minus(Zero3, d)) == ReshapeAsWritten(w, s);
  }

  /** Starting from the unit grid at the world origin, padding as written by
      `d` and back leaves the first voxel at the odd residue. */
  lemma PadAsWrittenDrift(v: Volume, d: Int3, u: Volume)
    requires Valid(v) && NonNegative(Plus(v.tensor.size, d)) && v.geometry.matrix == Affine(Identity, Origin)
    requires u == PadAsWritten(PadAsWritten(v, d).volume, Minus(Zero3, d)).volume
    ensures u.geometry.matrix.trans == Real3(OddResidue(v.tensor.size, Plus(v.tensor.size, d)))
  {
    PadAsWrittenRoundTrip(v, d);
    ShiftFromOrigin(OddResidue(v.tensor.size, Plus(v.tensor.size, d)));
  }

  /** The unit-spaced 4 x 1 x 1 grid at the world origin, padded as written
      by one voxel along x and then cropped back by one, has its first voxel
      at world x = -1. */
  lemma PadAsWrittenNotSymmetric(v: Volume, u: Volume)
    requires Valid(v) && v.tensor.size == Int3(4, 1, 1) && v.geometry.matrix == Affine(Identity, Origin)
    requires u == PadAsWritten(PadAsWritten(v, Int3(1, 0, 0)).volume, Int3(-1, 0, 0)).volume
    ensures u.geometry.matrix.trans == Vec3(-1.0, 0.0, 0.0)
    ensures u.geometry != v.geometry
  {
    PadAsWrittenDrift(v, Int3(1, 0, 0), u);
    OneOddAxisPadded();
  }

  lemma OneOddAxisPadded()
    ensures OddResidue(Int3(4, 1, 1), Plus(Int3(4, 1, 1), Int3(1, 0, 0))) == Int3(-1, 0, 0)
  {
  }

  /** `v.pad(d)` with `d` in voxels and the corrected centring: the grid
      grows by `d` (shrinks where `d` is negative) around its centre, with
      the shift rounded toward zero. */
  function Pad(v: Volume, d: Int3): (r: Resampled)
    requires Valid(v)
    ensures NonNegative(Plus(v.tensor.size, d)) ==>
              r.Done? && r.volume.tensor.size == Plus(v.tensor.size, d) &&
              r.volume.geometry.matrix == ShiftVoxel(v.geometry.matrix, HalfShift(v.tensor.size, Plus(v.tensor.size, d)))
    ensures !NonNegative(Plus(v.tensor.size, d)) ==> r == Failed(ShapeMismatch)
  {
    Reshape(v, Plus(v.tensor.size, d))
  }

  lemma UndoDelta(s: Int3, d: Int3)
    ensures Plus(Plus(s, d), Minus(Zero3, d)) == s
  {
  }

  /** Padding by `d` and then by `-d` with the corrected centring restores
      the shape and the geometry. */
  lemma PadRoundTrip(v: Volume, d: Int3)
    requires Valid(v) && NonNegative(Plus(v.tensor.size, d))
    ensures var w := Pad(v, d).volume;
            Pad(w, Minus(Zero3, d)).Done? && Pad(w, Minus(Zero3, d)).volume.tensor.size == v.tensor.size &&
            Pad(w, Minus(Zero3, d)).volume.geometry == v.geometry
  {
    var s, t := v.tensor.size, Plus(v.tensor.size, d);
    ReshapeRoundTrip(v, t);
    var w := Reshape(v, t).volume;
    assert Pad(v, d) == Reshape(v, t);
    assert w.tensor.size == t;
    UndoDelta(s, d);
    assert Pad(w, Minus(Zero3, d)) == Reshape(w, s);
  }
}
