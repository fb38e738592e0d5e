/** `volume.transform` without resampling: the data stays as it is and only
    the acquisition geometry moves, by a world-space affine transform applied
    after the voxel-to-world matrix. */
module Transforms {
  import opened Results
  import opened Geometry
  import opened Tensors
  import opened Volumes

  /** The affine transform that moves nothing. */
  const Still := Affine(Identity, Origin)

  /** `volume.transform(t, resample=False, negate=negate)`, with `t` already
      expressed in world space: negating is refused, otherwise the volume
      keeps its data and its grid and takes the geometry `t @ geometry`. */
  function TransformGeometry(v: Volume, t: Affine, negate: bool): (r: Result<Volume>)
    requires Valid(v)
    ensures r.Err? <==> negate
    ensures r.Err? ==> r.error == NegateWithoutResample
    ensures r.Ok? ==> Valid(r.value) && r.value.tensor == v.tensor
    ensures r.Ok? ==> r.value.geometry.baseshape == v.geometry.baseshape
  {
    if negate then Err(NegateWithoutResample)
    else
      var g := Geometry(v.geometry.baseshape, Compose(t, v.geometry.matrix));
      NewWithGeometry(v, v.tensor, g);
      New(v, Channelled(v.tensor), Some(g))
  }

  /** Every voxel of the transformed volume sits where `t` takes the world
      position it had before. */
  lemma TransformMovesWorld(v: Volume, t: Affine, p: Int3)
    requires Valid(v)
    ensures TransformGeometry(v, t, false).Ok?
    ensures WorldOf(TransformGeometry(v, t, false).value.geometry.matrix, p) == Apply(t, WorldOf(v.geometry.matrix, p))
  {
    NewWithGeometry(v, v.tensor, Geometry(v.geometry.baseshape, Compose(t, v.geometry.matrix)));
  }

  /** Transforming by `t1` and then by `t2` places every voxel where one
      transform by `t2 @ t1` does. */
  lemma TransformTwice(v: Volume, t1: Affine, t2: Affine, p: Int3)
    requires Valid(v)
    ensures TransformGeometry(v, t1, false).Ok?
    ensures var once := TransformGeometry(v, t1, false).value;
            TransformGeometry(once, t2, false).Ok? &&
            WorldOf(TransformGeometry(once, t2, false).value.geometry.matrix, p) ==
            WorldOf(TransformGeometry(v, Compose(t2, t1), false).value.geometry.matrix, p)
  {
    TransformMovesWorld(v, t1, p);
    var once := TransformGeometry(v, t1, false).value;
    TransformMovesWorld(once, t2, p);
    TransformMovesWorld(v, Compose(t2, t1), p);
  }

  /** The identity transform gives the volume back unchanged. */
  lemma TransformStill(v: Volume)
    requires Valid(v)
    ensures TransformGeometry(v, Still, false) == Ok(v)
  {
    var a := v.geometry.matrix;
    assert MatMul(Identity, a.lin) == a.lin;
    assert Compose(Still, a) == a;
    NewWithGeometry(v, v.tensor, Geometry(v.geometry.baseshape, a));
  }
}
