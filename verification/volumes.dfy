/** The volume itself as a value: a (C, W, H, D) tensor together with the
    acquisition geometry of its W x H x D grid, the constructor that keeps
    the two consistent, and the operations that build a new volume from an
    old one without moving the grid (`new`, the like-constructors, channel
    reductions, boolean-mask selection and channel stacking). */
module Volumes {
  import opened Results
  import opened Geometry
  import opened Tensors

  datatype Volume = Volume(tensor: Tensor<real>, geometry: Geometry)

  /** The construction invariant: the data is 4-D and the geometry covers
      exactly its spatial grid. */
  predicate Valid(v: Volume) {
    WellFormed(v.tensor) && v.geometry.baseshape == v.tensor.size
  }

  /** The data tensor handed to the constructor, by rank. */
  datatype NdArray =
    | Spatial(grid: Grid<real>)          // (W, H, D)
    | Channelled(tensor: Tensor<real>)   // (C, W, H, D)
    | OtherRank(ndim: nat)               // any other number of dimensions

  function Rank(a: NdArray): nat {
    match a
    case Spatial(_) => 3
    case Channelled(_) => 4
    case OtherRank(n) => n
  }

  predicate ArrayWellFormed(a: NdArray) {
    match a
    case Spatial(g) => GridWellFormed(g)
    case Channelled(t) => WellFormed(t)
    case OtherRank(n) => n != 3 && n != 4
  }

  /** The last three extents of a 3-D or 4-D array. */
  function SpatialShape(a: NdArray): Size3
    requires !a.OtherRank?
  {
    match a
    case Spatial(g) => g.size
    case Channelled(t) => t.size
  }

  /** `Volume(tensor, geometry)`: a 3-D tensor gains a channel axis, any rank
      other than 3 or 4 is refused, then the geometry setter attaches the
      geometry. */
  function Create(a: NdArray, g: GeometryArg): (r: Result<Volume>)
    requires ArrayWellFormed(a)
    ensures r.Ok? ==> Valid(r.value)
    ensures a.OtherRank? ==> r == Err(RankError(a.ndim))
    ensures !a.OtherRank? ==> (r.Err? <==> g.Acquisition? && g.geometry.baseshape != SpatialShape(a))
    ensures r.Ok? ==> r.value.tensor.size == SpatialShape(a) && Attach(g, SpatialShape(a)) == Ok(r.value.geometry)
    ensures r.Ok? && a.Channelled? ==> r.value.tensor == a.tensor
    ensures r.Ok? && a.Spatial? ==>
              r.value.tensor.channels == 1 &&
              forall p :: InGrid(p, a.grid.size) ==> Get(r.value.tensor, 0, p) == GridGet(a.grid, p)
  {
    var t: Tensor<real> :=
      match a
      case Spatial(g) => Unsqueeze(g)
      case Channelled(t) => t
      case OtherRank(_) => Tensor(0, Zero3, []);
    if a.OtherRank? then Err(RankError(a.ndim))
    else
      match Attach(g, t.size)
      case Err(e) => Err(e)
      case Ok(geom) => Ok(Volume(t, geom))
  }

  /** `v.new(tensor, geometry)`: a new volume that keeps `v`'s geometry unless
      another one is given. */
  function New(v: Volume, a: NdArray, g: Option<Geometry>): Result<Volume>
    requires ArrayWellFormed(a)
  {
    Create(a, Acquisition(if g.Some? then g.value else v.geometry))
  }

  /** Deriving a volume over the same grid never fails and keeps the geometry. */
  lemma NewKeepsGeometry(v: Volume, t: Tensor<real>)
    requires Valid(v) && WellFormed(t) && t.size == v.tensor.size
    ensures New(v, Channelled(t), None) == Ok(Volume(t, v.geometry))
  {
  }

  /** Deriving a volume with a given geometry succeeds exactly when the
      geometry covers the new tensor's grid. */
  lemma NewWithGeometry(v: Volume, t: Tensor<real>, g: Geometry)
    requires WellFormed(t)
    ensures New(v, Channelled(t), Some(g)) == if g.baseshape == t.size then Ok(Volume(t, g)) else Err(ShapeMismatch)
  {
  }

  /** Deriving a volume over a different grid without a new geometry fails. */
  lemma NewRejectsOtherGrid(v: Volume, t: Tensor<real>)
    requires Valid(v) && WellFormed(t) && t.size != v.tensor.size
    ensures New(v, Channelled(t), None) == Err(ShapeMismatch)
  {
  }

  /** `full_like(fill, channels)` (and `zeros_like`, `ones_like` with fill 0
      and 1): the volume's own shape, or `channels` channels over its grid,
      filled with `fill`, on the same geometry. */
  function FullLike(v: Volume, fill: real, channels: Option<nat>): (r: Volume)
    requires Valid(v)
    ensures Valid(r) && r.geometry == v.geometry && r.tensor.size == v.tensor.size
    ensures r.tensor.channels == if channels.Some? then channels.value else v.tensor.channels
    ensures forall c, p :: InBounds(r.tensor, c, p) ==> Get(r.tensor, c, p) == fill
  {
    var n := if channels.Some? then channels.value else v.tensor.channels;
    var t := Full(n, v.tensor.size, fill);
    var r := New(v, Channelled(t), None);
    NewKeepsGeometry(v, t);
    r.value
  }

  // ---------------------------------------------------------------------------
  // reductions over the channel axis
  // ---------------------------------------------------------------------------

  datatype Reduction = Amax | Amin | Sum

  /** `v.max(dim=0)`, `v.min(dim=0)`, `v.sum(dim=0)`: a one-channel volume on
      the same geometry.  The maximum and minimum of no channels do not exist;
      the sum of no channels is zero. */
  function ReduceChannels(v: Volume, op: Reduction): (r: Result<Volume>)
    requires Valid(v)
    ensures r.Err? <==> op != Sum && v.tensor.channels == 0
    ensures r.Err? ==> r.error == EmptyReduction
    ensures r.Ok? ==> Valid(r.value) && r.value.geometry == v.geometry
    ensures r.Ok? ==> r.value.tensor.channels == 1 && r.value.tensor.size == v.tensor.size
    ensures r.Ok? && op == Amax ==> forall p :: InGrid(p, v.tensor.size) ==>
              (forall c :: 0 <= c < v.tensor.channels ==> Get(v.tensor, c, p) <= Get(r.value.tensor, 0, p)) &&
              (exists c :: 0 <= c < v.tensor.channels && Get(v.tensor, c, p) == Get(r.value.tensor, 0, p))
    ensures r.Ok? && op == Amin ==> forall p :: InGrid(p, v.tensor.size) ==>
              (forall c :: 0 <= c < v.tensor.channels ==> Get(r.value.tensor, 0, p) <= Get(v.tensor, c, p)) &&
              (exists c :: 0 <= c < v.tensor.channels && Get(v.tensor, c, p) == Get(r.value.tensor, 0, p))
    ensures r.Ok? && op == Sum ==> forall p :: InGrid(p, v.tensor.size) ==>
              Get(r.value.tensor, 0, p) == SumOf(ChannelValues(v.tensor, p))
  {
    var t := v.tensor;
    if op != Sum && t.channels == 0 then Err(EmptyReduction)
    else
      var f := (p: Int3) requires InGrid(p, t.size) =>
        match op
        case Amax => MaxOf(ChannelValues(t, p))
        case Amin => MinOf(ChannelValues(t, p))
        case Sum => SumOf(ChannelValues(t, p));
      var g := BuildGrid(t.size, f);
      var r := Create(Spatial(g), Acquisition(v.geometry));
      assert forall p :: InGrid(p, t.size) ==> Get(r.value.tensor, 0, p) == f(p);
      r
  }

  /** Summing a one-channel volume over its channels gives it back. */
  lemma SumOfOneChannel(v: Volume)
    requires Valid(v) && v.tensor.channels == 1
    ensures ReduceChannels(v, Sum) == Ok(v)
  {
    var r := ReduceChannels(v, Sum).value;
    forall c, p | InBounds(v.tensor, c, p) ensures Get(r.tensor, c, p) == Get(v.tensor, c, p) {
      var col := ChannelValues(v.tensor, p);
      assert SumOf(col) == col[0] + SumOf(col[1..]);
    }
    Extensionality(r.tensor, v.tensor);
  }

  // ---------------------------------------------------------------------------
  // boolean-mask selection
  // ---------------------------------------------------------------------------

  /** The mask entry that governs voxel (c, p): a one-channel mask applies to
      every channel. */
  function MaskAt(m: Tensor<bool>, c: int, p: Int3): bool
    requires WellFormed(m) && InGrid(p, m.size) && (m.channels == 1 || 0 <= c < m.channels)
  {
    if m.channels == 1 then Get(m, 0, p) else Get(m, c, p)
  }

  /** The mask as applied to a volume of `channels` channels: a one-channel
      mask is repeated over the channels of a multi-channel volume. */
  function MaskFor(m: Tensor<bool>, channels: nat): (r: Tensor<bool>)
    requires WellFormed(m)
    ensures WellFormed(r) && r.size == m.size
    ensures r.channels == if m.channels == 1 && channels > 1 then channels else m.channels
  {
    if m.channels == 1 && channels > 1 then Expand(m, channels) else m
  }

  /** `v[mask]` for a boolean volume `mask`: a one-channel mask is broadcast
      over the channels of a multi-channel volume; otherwise the mask must
      have the volume's shape.  The result holds exactly the selected values,
      one per set entry of the broadcast mask, in the order of the flattened
      volume. */
  function SelectMasked(v: Volume, m: Tensor<bool>): (r: Result<seq<real>>)
    requires Valid(v) && WellFormed(m)
    ensures r.Ok? <==> m.size == v.tensor.size &&
                        (m.channels == v.tensor.channels || (m.channels == 1 && v.tensor.channels > 1))
    ensures r.Err? ==> r.error == MaskShapeMismatch
    ensures r.Ok? ==> forall x :: x in r.value <==>
              exists c, p :: InBounds(v.tensor, c, p) && MaskAt(m, c, p) && Get(v.tensor, c, p) == x
    ensures r.Ok? ==> |Flatten(v.tensor)| == |Flatten(MaskFor(m, v.tensor.channels))| &&
                      r.value == Filter(Flatten(v.tensor), Flatten(MaskFor(m, v.tensor.channels))) &&
                      |r.value| == multiset(Flatten(MaskFor(m, v.tensor.channels)))[true]
  {
    var mask := MaskFor(m, v.tensor.channels);
    if mask.channels != v.tensor.channels || mask.size != v.tensor.size then Err(MaskShapeMismatch)
    else
      assert forall c, p :: InBounds(v.tensor, c, p) ==> Get(mask, c, p) == MaskAt(m, c, p);
      Ok(Masked(v.tensor, mask))
  }

  // ---------------------------------------------------------------------------
  // channel stacking
  // ---------------------------------------------------------------------------

  function DataOf(vols: seq<Volume>): (ts: seq<Tensor<real>>)
    ensures |ts| == |vols| && forall k :: 0 <= k < |vols| ==> ts[k] == vols[k].tensor
  {
    seq(|vols|, k requires 0 <= k < |vols| => vols[k].tensor)
  }

  predicate SameGrid(vols: seq<Volume>)
    requires |vols| > 0
  {
    forall k :: 0 <= k < |vols| ==> vols[k].tensor.size == vols[0].tensor.size
  }

  /** `stack(*vols)`: one volume is returned as it is; several are
      concatenated along the channel axis (their grids must agree) onto the
      geometry of the first; none is an error. */
  function Stack(vols: seq<Volume>): (r: Result<Volume>)
    requires forall k :: 0 <= k < |vols| ==> Valid(vols[k])
    ensures |vols| == 0 ==> r == Err(EmptyStack)
    ensures |vols| == 1 ==> r == Ok(vols[0])
    ensures |vols| > 1 ==> (r.Ok? <==> SameGrid(vols))
    ensures |vols| > 1 && r.Err? ==> r.error == StackShapeMismatch
    ensures r.Ok? ==> Valid(r.value) && r.value.geometry == vols[0].geometry
    ensures r.Ok? ==> r.value.tensor.size == vols[0].tensor.size &&
                      r.value.tensor.channels == ChannelsBefore(DataOf(vols), |vols|)
    ensures r.Ok? ==> forall k, c, p :: 0 <= k < |vols| && Valid(vols[k]) && InBounds(vols[k].tensor, c, p) ==>
              InBounds(r.value.tensor, ChannelsBefore(DataOf(vols), k) + c, p) &&
              Get(r.value.tensor, ChannelsBefore(DataOf(vols), k) + c, p) == Get(vols[k].tensor, c, p)
  {
    if |vols| == 0 then Err(EmptyStack)
    else if |vols| == 1 then
      assert ChannelsBefore(DataOf(vols), 1) == vols[0].tensor.channels + ChannelsBefore(DataOf(vols)[1..], 0);
      Ok(vols[0])
    else if !SameGrid(vols) then Err(StackShapeMismatch)
    else
      var ts := DataOf(vols);
      assert forall k :: 0 <= k < |ts| ==> WellFormed(ts[k]) && ts[k].size == vols[0].tensor.size by {
        forall k | 0 <= k < |ts| ensures WellFormed(ts[k]) && ts[k].size == vols[0].tensor.size {
          assert Valid(vols[k]) && ts[k] == vols[k].tensor;
        }
      }
      var t := Cat(DataOf(vols), vols[0].tensor.size);
      NewKeepsGeometry(vols[0], t);
      New(vols[0], Channelled(t), None)
  }
}
