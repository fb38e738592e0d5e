/** The affine voxel-to-world geometry a volume is anchored to: a 3x3 linear
    part (rotation and scale) plus a translation, together with the spatial
    grid shape (the baseshape) it is defined over.  Only the operations the
    volume code consumes are modelled: point transform, composition, and
    shifting or scaling in voxel units. */
module Geometry {
  import opened Results

  /** Integer 3-vectors: voxel indices, voxel offsets, grid shapes. */
  datatype Int3 = Int3(x: int, y: int, z: int)

  /** A grid shape: every extent non-negative. */
  type Size3 = s: Int3 | s.x >= 0 && s.y >= 0 && s.z >= 0 witness Int3(0, 0, 0)

  /** Real 3-vectors: world coordinates and fractional voxel coordinates. */
  datatype Vec3 = Vec3(x: real, y: real, z: real)

  /** A 3x3 matrix given by its rows. */
  datatype Mat3 = Mat3(r0: Vec3, r1: Vec3, r2: Vec3)

  /** world = lin * voxel + trans */
  datatype Affine = Affine(lin: Mat3, trans: Vec3)

  /** An acquisition geometry: the voxel-to-world matrix and the grid it covers. */
  datatype Geometry = Geometry(baseshape: Int3, matrix: Affine)

  /** What the geometry setter of a volume accepts: an acquisition geometry,
      a bare matrix, or nothing (the default centred identity). */
  datatype GeometryArg = Acquisition(geometry: Geometry) | Matrix(affine: Affine) | Unspecified

  const Origin := Vec3(0.0, 0.0, 0.0)
  const Identity := Mat3(Vec3(1.0, 0.0, 0.0), Vec3(0.0, 1.0, 0.0), Vec3(0.0, 0.0, 1.0))

  function Add(a: Vec3, b: Vec3): Vec3 { Vec3(a.x + b.x, a.y + b.y, a.z + b.z) }

  function Dot(a: Vec3, b: Vec3): real { a.x * b.x + a.y * b.y + a.z * b.z }

  function MatVec(m: Mat3, v: Vec3): Vec3 { Vec3(Dot(m.r0, v), Dot(m.r1, v), Dot(m.r2, v)) }

  function Column(m: Mat3, j: nat): Vec3
    requires j < 3
  {
    if j == 0 then Vec3(m.r0.x, m.r1.x, m.r2.x)
    else if j == 1 then Vec3(m.r0.y, m.r1.y, m.r2.y)
    else Vec3(m.r0.z, m.r1.z, m.r2.z)
  }

  function MatMul(a: Mat3, b: Mat3): Mat3 {
    var c0, c1, c2 := Column(b, 0), Column(b, 1), Column(b, 2);
    Mat3(Vec3(Dot(a.r0, c0), Dot(a.r0, c1), Dot(a.r0, c2)),
         Vec3(Dot(a.r1, c0), Dot(a.r1, c1), Dot(a.r1, c2)),
         Vec3(Dot(a.r2, c0), Dot(a.r2, c1), Dot(a.r2, c2)))
  }

  function Real3(v: Int3): Vec3 { Vec3(v.x as real, v.y as real, v.z as real) }

  function Plus(a: Int3, b: Int3): Int3 { Int3(a.x + b.x, a.y + b.y, a.z + b.z) }

  function Minus(a: Int3, b: Int3): Int3 { Int3(a.x - b.x, a.y - b.y, a.z - b.z) }

  function Times(a: Int3, b: Int3): Int3 { Int3(a.x * b.x, a.y * b.y, a.z * b.z) }

  const Zero3 := Int3(0, 0, 0)
  const One3 := Int3(1, 1, 1)

  /** The world position of a (possibly fractional) voxel coordinate. */
  function Apply(a: Affine, v: Vec3): Vec3 {
    Add(MatVec(a.lin, v), a.trans)
  }

  /** The world position of the centre of integer voxel `p`. */
  function WorldOf(a: Affine, p: Int3): Vec3 {
    Apply(a, Real3(p))
  }

  /** `shift(delta, space='voxel')`: the new voxel grid starts at voxel `delta`
      of the old one.  `ShiftVoxelWorld` states where each voxel lands. */
  function ShiftVoxel(a: Affine, delta: Int3): (r: Affine)
    ensures r.lin == a.lin
    ensures r.trans == Apply(a, Real3(delta))
  {
    Affine(a.lin, Add(MatVec(a.lin, Real3(delta)), a.trans))
  }

  /** Voxel `p` of the shifted grid is voxel `p + delta` of the old one. */
  lemma ShiftVoxelWorld(a: Affine, delta: Int3, p: Int3)
    ensures WorldOf(ShiftVoxel(a, delta), p) == WorldOf(a, Plus(p, delta))
  {
    MatVecAdditive(a.lin, Real3(p), Real3(delta));
    assert Real3(Plus(p, delta)) == Add(Real3(p), Real3(delta));
  }

  /** Two voxel shifts make one. */
  lemma ShiftVoxelTwice(a: Affine, d1: Int3, d2: Int3)
    ensures ShiftVoxel(ShiftVoxel(a, d1), d2) == ShiftVoxel(a, Plus(d1, d2))
  {
    MatVecAdditive(a.lin, Real3(d1), Real3(d2));
    assert Real3(Plus(d1, d2)) == Add(Real3(d1), Real3(d2));
  }

  /** Shifting by nothing changes nothing. */
  lemma ShiftVoxelZero(a: Affine)
    ensures ShiftVoxel(a, Zero3) == a
  {
  }

  /** `scale(factor, space='voxel')`: one step of the new grid spans `factor`
      steps of the old one, the first voxel staying in place.
      `ScaleVoxelWorld` states where each voxel lands. */
  function ScaleVoxel(a: Affine, factor: Int3): (r: Affine)
    ensures r.trans == a.trans
    ensures MatVec(r.lin, Real3(One3)) == MatVec(a.lin, Real3(factor))
  {
    var f := Real3(factor);
    var m := a.lin;
    Affine(Mat3(Vec3(m.r0.x * f.x, m.r0.y * f.y, m.r0.z * f.z),
                Vec3(m.r1.x * f.x, m.r1.y * f.y, m.r1.z * f.z),
                Vec3(m.r2.x * f.x, m.r2.y * f.y, m.r2.z * f.z)), a.trans)
  }

  /** Voxel `p` of the scaled grid is voxel `p * factor` of the old one. */
  lemma ScaleVoxelWorld(a: Affine, factor: Int3, p: Int3)
    ensures WorldOf(ScaleVoxel(a, factor), p) == WorldOf(a, Times(p, factor))
  {
    var f := Real3(factor);
    assert Real3(Times(p, factor)) == Vec3(p.x as real * f.x, p.y as real * f.y, p.z as real * f.z);
  }

  /** `t @ a`: first `a`, then `t`. */
  function Compose(t: Affine, a: Affine): (r: Affine)
    ensures forall v :: Apply(r, v) == Apply(t, Apply(a, v))
  {
    var r := Affine(MatMul(t.lin, a.lin), Add(MatVec(t.lin, a.trans), t.trans));
    forall v ensures Apply(r, v) == Apply(t, Apply(a, v)) {
      MatMulApply(t.lin, a.lin, v);
      MatVecAdditive(t.lin, MatVec(a.lin, v), a.trans);
    }
    r
  }

  lemma MatVecAdditive(m: Mat3, a: Vec3, b: Vec3)
    ensures MatVec(m, Add(a, b)) == Add(MatVec(m, a), MatVec(m, b))
  {
  }

  lemma MatMulApply(a: Mat3, b: Mat3, v: Vec3)
    ensures MatVec(MatMul(a, b), v) == MatVec(a, MatVec(b, v))
  {
  }

  /** The default matrix of a grid: unit spacing, grid centre at the world origin. */
  function CentredIdentity(shape: Int3): (r: Affine)
    ensures r.lin == Identity
    ensures Apply(r, Vec3((shape.x - 1) as real / 2.0, (shape.y - 1) as real / 2.0, (shape.z - 1) as real / 2.0)) == Origin
  {
    Affine(Identity, Vec3(-(shape.x - 1) as real / 2.0, -(shape.y - 1) as real / 2.0, -(shape.z - 1) as real / 2.0))
  }

  /** The geometry setter: a bare matrix (or none) is wrapped with the tensor's
      own shape; an acquisition geometry must already have that shape. */
  function Attach(arg: GeometryArg, shape: Size3): (r: Result<Geometry>)
    ensures r.Ok? ==> r.value.baseshape == shape
    ensures r.Err? <==> arg.Acquisition? && arg.geometry.baseshape != shape
    ensures r.Err? ==> r.error == ShapeMismatch
    ensures r.Ok? && arg.Acquisition? ==> r.value == arg.geometry
    ensures r.Ok? && arg.Matrix? ==> r.value.matrix == arg.affine
    ensures arg.Unspecified? ==>
              r.Ok? && r.value.matrix.lin == Identity &&
              Apply(r.value.matrix, Vec3((shape.x - 1) as real / 2.0, (shape.y - 1) as real / 2.0, (shape.z - 1) as real / 2.0)) == Origin
  {
    match arg
    case Acquisition(g) => if g.baseshape == shape then Ok(g) else Err(ShapeMismatch)
    case Matrix(a) => Ok(Geometry(shape, a))
    case Unspecified => Ok(Geometry(shape, CentredIdentity(shape)))
  }
}
