/** The operations that change a volume in place: the geometry setter,
    assignment into the voxel data (one voxel, or every voxel a boolean mask
    selects), the in-place arithmetic operators and in-place clamping.  The
    data is the flat buffer a contiguous (C, W, H, D) tensor occupies: channel
    by channel, each channel x-slice by x-slice, each slice row by row. */
module InPlace {
  import opened Results
  import opened Geometry
  import opened Tensors

  // ---------------------------------------------------------------------------
  // the flat layout
  // ---------------------------------------------------------------------------

  /** Channel `c` occupies the `c`-th block of one channel's extent. */
  lemma ChannelBlock(c: int, p: Int3, size: Size3)
    ensures Flat(c, p, size) == c * Extent(1, size) + Flat(0, p, size)
  {
    var n := size.x * size.y * size.z;
    assert (c * size.x + p.x) * size.y == c * size.x * size.y + p.x * size.y;
    assert (c * size.x * size.y + p.x * size.y + p.y) * size.z == c * n + (p.x * size.y + p.y) * size.z;
  }

  /** `channels` channels take `channels` times one channel's extent. */
  lemma ExtentChannels(channels: nat, size: Size3)
    ensures Extent(channels, size) == channels * Extent(1, size)
  {
    assert channels * size.x * size.y * size.z == channels * (size.x * size.y * size.z);
  }

  /** The position inside its channel block of the voxel at buffer position `i`. */
  lemma BlockRemainder(i: int, c: int, r: int, n: int)
    requires 0 <= r < n && i == c * n + r
    ensures i % n == r
  {
    DigitUnique(c, r, i / n, i % n, n);
  }

  // ---------------------------------------------------------------------------
  // the specification of each update, on the buffer's contents
  // ---------------------------------------------------------------------------

  /** A tensor given by its shape and its flat buffer. */
  datatype Buffer<T> = Buffer(channels: nat, size: Size3, cells: seq<T>)

  predicate Shaped<T>(b: Buffer<T>) {
    |b.cells| == Extent(b.channels, b.size)
  }

  /** torch's integer indexing of one voxel: every index counted from the end
      of its axis when negative; none when some index falls outside. */
  function Locate(c: int, p: Int3, channels: nat, size: Size3): (r: Option<int>)
    ensures r.Some? <==> -(channels as int) <= c < channels && -size.x <= p.x < size.x &&
                         -size.y <= p.y < size.y && -size.z <= p.z < size.z
    ensures r.Some? ==> 0 <= r.value < Extent(channels, size)
  {
    if -(channels as int) <= c < channels && -size.x <= p.x < size.x && -size.y <= p.y < size.y && -size.z <= p.z < size.z then
      var q := Int3(Wrap(p.x, size.x), Wrap(p.y, size.y), Wrap(p.z, size.z));
      FlatInside(channels, size, Wrap(c, channels), q);
      Some(Flat(Wrap(c, channels), q, size))
    else
      None
  }

  function Wrap(i: int, n: nat): int {
    if i < 0 then i + n else i
  }

  /** Writing one voxel leaves every other voxel alone: distinct voxels,
      each given by non-negative or end-relative indices, are located at
      distinct buffer positions. */
  lemma LocateDistinct(channels: nat, size: Size3, c1: int, p1: Int3, c2: int, p2: Int3)
    requires Locate(c1, p1, channels, size).Some? && Locate(c2, p2, channels, size).Some?
    requires Wrap(c1, channels) != Wrap(c2, channels) ||
             Int3(Wrap(p1.x, size.x), Wrap(p1.y, size.y), Wrap(p1.z, size.z)) !=
             Int3(Wrap(p2.x, size.x), Wrap(p2.y, size.y), Wrap(p2.z, size.z))
    ensures Locate(c1, p1, channels, size).value != Locate(c2, p2, channels, size).value
  {
    var q1 := Int3(Wrap(p1.x, size.x), Wrap(p1.y, size.y), Wrap(p1.z, size.z));
    var q2 := Int3(Wrap(p2.x, size.x), Wrap(p2.y, size.y), Wrap(p2.z, size.z));
    if Flat(Wrap(c1, channels), q1, size) == Flat(Wrap(c2, channels), q2, size) {
      FlatUnique(size, Wrap(c1, channels), q1, Wrap(c2, channels), q2);
    }
  }

  /** `volume[mask] = x`: every selected voxel becomes `x`. */
  function Filled(s: seq<real>, mask: seq<bool>, x: real): (r: seq<real>)
    requires |mask| == |s|
    ensures |r| == |s|
  {
    seq(|s|, i requires 0 <= i < |s| => if mask[i] then x else s[i])
  }

  /** The filled buffer holds `x` wherever the mask is set and the old value
      everywhere else, and filling twice with the same mask and value is
      filling once. */
  lemma FilledTwice(s: seq<real>, mask: seq<bool>, x: real)
    requires |mask| == |s|
    ensures Filled(Filled(s, mask, x), mask, x) == Filled(s, mask, x)
    ensures forall i :: 0 <= i < |s| && mask[i] ==> Filled(s, mask, x)[i] == x
    ensures forall i :: 0 <= i < |s| && !mask[i] ==> Filled(s, mask, x)[i] == s[i]
  {
  }

  datatype Arith = Add | Sub | Mul | Div

  /** Elementwise `a op b` on reals. */
  function Combine(op: Arith, a: real, b: real): real
    requires op.Div? ==> b != 0.0
  {
    match op
    case Add => a + b
    case Sub => a - b
    case Mul => a * b
    case Div => a / b
  }

  /** The right-hand side of an in-place operator: a number, or a tensor
      (a volume counts through its tensor). */
  datatype Operand = Scalar(x: real) | Field(b: Buffer<real>)

  /** Whether the operand can be combined into a (channels, size) tensor
      without changing its shape: a number always; a tensor of the same shape,
      or one channel over the same grid, which every channel then meets. */
  predicate Broadcasts(o: Operand, channels: nat, size: Size3) {
    o.Scalar? || (o.b.size == size && (o.b.channels == channels || o.b.channels == 1))
  }

  predicate OperandShaped(o: Operand) {
    o.Field? ==> Shaped(o.b)
  }

  /** No value of the operand is zero. */
  predicate NonzeroOperand(o: Operand) {
    match o
    case Scalar(x) => x != 0.0
    case Field(b) => forall k :: 0 <= k < |b.cells| ==> b.cells[k] != 0.0
  }

  /** The operand value that buffer position `i` of a (channels, size) tensor meets. */
  function OperandAt(o: Operand, i: int, channels: nat, size: Size3): (r: real)
    requires Broadcasts(o, channels, size) && OperandShaped(o) && 0 <= i < Extent(channels, size)
    ensures NonzeroOperand(o) ==> r != 0.0
  {
    match o
    case Scalar(x) => x
    case Field(b) =>
      if b.channels == channels then b.cells[i]
      else
        ExtentChannels(channels, size);
        b.cells[i % Extent(1, size)]
  }

  /** `tensor op= other`, on the buffer of a (channels, size) tensor. */
  function Combined(op: Arith, s: seq<real>, o: Operand, channels: nat, size: Size3): (r: seq<real>)
    requires |s| == Extent(channels, size) && Broadcasts(o, channels, size) && OperandShaped(o)
    requires op.Div? ==> NonzeroOperand(o)
    ensures |r| == |s|
  {
    seq(|s|, i requires 0 <= i < |s| => Combine(op, s[i], OperandAt(o, i, channels, size)))
  }

  /** Voxel `p` of channel `c` is combined with voxel `p` of the operand's
      channel `c`, or of its only channel when it has one. */
  lemma CombinedVoxel(op: Arith, s: seq<real>, o: Operand, channels: nat, size: Size3, c: int, p: Int3)
    requires |s| == Extent(channels, size) && Broadcasts(o, channels, size) && OperandShaped(o)
    requires op.Div? ==> NonzeroOperand(o)
    requires o.Field? && 0 <= c < channels && InGrid(p, size)
    ensures var k := if o.b.channels == 1 then 0 else c;
            0 <= Flat(c, p, size) < |s| && 0 <= Flat(k, p, size) < |o.b.cells| &&
            (op.Div? ==> o.b.cells[Flat(k, p, size)] != 0.0) &&
            Combined(op, s, o, channels, size)[Flat(c, p, size)] == Combine(op, s[Flat(c, p, size)], o.b.cells[Flat(k, p, size)])
  {
    var k := if o.b.channels == 1 then 0 else c;
    FlatInside(channels, size, c, p);
    FlatInside(o.b.channels, size, k, p);
    if o.b.channels != channels {
      ChannelBlock(c, p, size);
      FlatInside(1, size, 0, p);
      BlockRemainder(Flat(c, p, size), c, Flat(0, p, size), Extent(1, size));
    }
  }

  /** Subtracting what was added gives the buffer back. */
  lemma SubtractUndoesAdd(s: seq<real>, o: Operand, channels: nat, size: Size3)
    requires |s| == Extent(channels, size) && Broadcasts(o, channels, size) && OperandShaped(o)
    ensures Combined(Sub, Combined(Add, s, o, channels, size), o, channels, size) == s
  {
  }

  /** Dividing by a non-zero operand undoes multiplying by it. */
  lemma DivideUndoesMultiply(s: seq<real>, o: Operand, channels: nat, size: Size3)
    requires |s| == Extent(channels, size) && Broadcasts(o, channels, size) && OperandShaped(o)
    requires NonzeroOperand(o)
    ensures Combined(Div, Combined(Mul, s, o, channels, size), o, channels, size) == s
  {
    var t := Combined(Mul, s, o, channels, size);
    var r := Combined(Div, t, o, channels, size);
    forall i | 0 <= i < |s| ensures r[i] == s[i] {
      var b := OperandAt(o, i, channels, size);
      assert r[i] == t[i] / b && t[i] == s[i] * b;
    }
  }

  /** `x.clamp(min=lo, max=hi)`: the lower bound first, then the upper one,
      so the upper bound wins when the two cross. */
  function ClampValue(x: real, lo: Option<real>, hi: Option<real>): (r: real)
    ensures hi.Some? ==> r <= hi.value
    ensures lo.Some? && (hi.None? || lo.value <= hi.value) ==> lo.value <= r
    ensures (lo.None? || lo.value <= x) && (hi.None? || x <= hi.value) ==> r == x
    ensures r == x || (lo.Some? && r == lo.value) || (hi.Some? && r == hi.value)
  {
    var above := if lo.Some? && x < lo.value then lo.value else x;
    if hi.Some? && above > hi.value then hi.value else above
  }

  /** Clamping twice with the same bounds is clamping once. */
  lemma ClampTwice(x: real, lo: Option<real>, hi: Option<real>)
    ensures ClampValue(ClampValue(x, lo, hi), lo, hi) == ClampValue(x, lo, hi)
  {
  }

  function Clamped(s: seq<real>, lo: Option<real>, hi: Option<real>): (r: seq<real>)
    ensures |r| == |s|
  {
    seq(|s|, i requires 0 <= i < |s| => ClampValue(s[i], lo, hi))
  }

  // ---------------------------------------------------------------------------
  // the volume object
  // ---------------------------------------------------------------------------

  class Volume {
    var channels: nat
    var size: Size3
    var data: array<real>
    var geometry: Geometry

    /** The buffer holds exactly the (C, W, H, D) voxels and the geometry
        covers the spatial grid. */
    predicate Valid()
      reads this
    {
      data.Length == Extent(channels, size) && geometry.baseshape == size
    }

    /** A volume over a buffer already laid out as (C, W, H, D) voxels, with
        the geometry attached by the setter; the rank checks of the
        constructor are those of `Volumes.Create`. */
    constructor (channels: nat, size: Size3, data: array<real>, g: GeometryArg)
      requires data.Length == Extent(channels, size) && Attach(g, size).Ok?
      ensures Valid() && this.channels == channels && this.size == size && this.data == data
      ensures geometry == Attach(g, size).value
    {
      this.channels := channels;
      this.size := size;
      this.data := data;
      this.geometry := Attach(g, size).value;
    }

    /** `volume.geometry = g`: a bare matrix (or none) is wrapped with the
        grid's own shape, an acquisition geometry over another grid is
        refused and the old geometry stays. */
    method SetGeometry(g: GeometryArg) returns (e: Option<Error>)
      requires Valid()
      modifies this
      ensures Valid() && channels == old(channels) && size == old(size) && data == old(data)
      ensures Attach(g, size).Ok? ==> e.None? && geometry == Attach(g, size).value
      ensures Attach(g, size).Err? ==> e == Some(ShapeMismatch) && geometry == old(geometry)
    {
      match Attach(g, size)
      case Ok(a) =>
        geometry := a;
        e := None;
      case Err(x) =>
        e := Some(x);
    }

    /** `volume[c, x, y, z] = value`. */
    method SetVoxel(c: int, p: Int3, value: real) returns (e: Option<Error>)
      requires Valid()
      modifies data
      ensures Valid() && unchanged(this)
      ensures Locate(c, p, channels, size).None? ==> e == Some(IndexOutOfRange) && data[..] == old(data[..])
      ensures Locate(c, p, channels, size).Some? ==>
                e.None? && data[..] == old(data[..])[Locate(c, p, channels, size).value := value]
    {
      match Locate(c, p, channels, size)
      case None =>
        e := Some(IndexOutOfRange);
      case Some(i) =>
        data[i] := value;
        e := None;
    }

    /** `volume[mask] = value` for a boolean volume of the same shape; a mask
        of any other shape is refused. */
    method SetMasked(mask: Buffer<bool>, value: real) returns (e: Option<Error>)
      requires Valid() && Shaped(mask)
      modifies data
      ensures Valid() && unchanged(this)
      ensures mask.channels != channels || mask.size != size ==> e == Some(MaskShapeMismatch) && data[..] == old(data[..])
      ensures mask.channels == channels && mask.size == size ==> e.None? && data[..] == Filled(old(data[..]), mask.cells, value)
    {
      if mask.channels != channels || mask.size != size {
        return Some(MaskShapeMismatch);
      }
      var i := 0;
      while i < data.Length
        invariant 0 <= i <= data.Length
        invariant forall j :: 0 <= j < i ==> data[j] == if mask.cells[j] then value else old(data[j])
        invariant forall j :: i <= j < data.Length ==> data[j] == old(data[j])
      {
        if mask.cells[i] {
          data[i] := value;
        }
        i := i + 1;
      }
      e := None;
    }

    /** `volume += other`, `-=`, `*=` and `/=`: an operand that does not fit
        the volume's shape is refused. */
    method UpdateWith(op: Arith, other: Operand) returns (e: Option<Error>)
      requires Valid() && OperandShaped(other) && (op.Div? ==> NonzeroOperand(other))
      modifies data
      ensures Valid() && unchanged(this)
      ensures !Broadcasts(other, channels, size) ==> e == Some(BroadcastMismatch) && data[..] == old(data[..])
      ensures Broadcasts(other, channels, size) ==> e.None? && data[..] == Combined(op, old(data[..]), other, channels, size)
    {
      if !Broadcasts(other, channels, size) {
        return Some(BroadcastMismatch);
      }
      ghost var before := data[..];
      var i := 0;
      while i < data.Length
        invariant 0 <= i <= data.Length
        invariant forall j :: 0 <= j < i ==> data[j] == Combined(op, before, other, channels, size)[j]
        invariant forall j :: i <= j < data.Length ==> data[j] == before[j]
      {
        data[i] := Combine(op, data[i], OperandAt(other, i, channels, size));
        i := i + 1;
      }
      e := None;
    }

    /** `volume.clamp(min=lo, max=hi, inplace=True)`: at least one bound is
        needed. */
    method ClampInPlace(lo: Option<real>, hi: Option<real>) returns (e: Option<Error>)
      requires Valid()
      modifies data
      ensures Valid() && unchanged(this)
      ensures lo.None? && hi.None? ==> e == Some(NoClampBound) && data[..] == old(data[..])
      ensures lo.Some? || hi.Some? ==> e.None? && data[..] == Clamped(old(data[..]), lo, hi)
    {
      if lo.None? && hi.None? {
        return Some(NoClampBound);
      }
      var i := 0;
      while i < data.Length
        invariant 0 <= i <= data.Length
        invariant forall j :: 0 <= j < i ==> data[j] == ClampValue(old(data[j]), lo, hi)
        invariant forall j :: i <= j < data.Length ==> data[j] == old(data[j])
      {
        data[i] := ClampValue(data[i], lo, hi);
        i := i + 1;
      }
      e := None;
    }
  }
}
