# Volume index arithmetic, in Dafny

A model of the `Volume` class of the voxel library (`voxel/volume.py`).

A volume is a `(C, W, H, D)` tensor of voxel values. It comes with an acquisition geometry: the baseshape `(W, H, D)` of its grid and an affine voxel-to-world matrix. This project models the integer index arithmetic that keeps data and geometry in step when a volume is:

- constructed;
- cropped, or cropped to its non-zero voxels;
- moved onto a grid that differs only by a whole-voxel offset (the fast path of `resample_like`);
- reshaped or padded around its centre;
- transformed without resampling;
- reduced over channels, stacked, masked or queried for a quantile;
- updated in place through the geometry setter, `__setitem__`, the augmented arithmetic operators and `clamp(inplace=True)`.

## Files and modules

- `results.dfy` (`Results`): `Option`, `Result` and the errors the source raises.
- `geometry.dfy` (`Geometry`):
  - the affine maps, over `real`;
  - voxel-space shift and scale;
  - composition;
  - the geometry setter's attach rule.
- `slicing.dfy` (`Slicing`): Python slice normalisation (`slice.indices`) for positive steps.
- `tensors.dfy` (`Tensors`): 4-D tensors as nested sequences with an explicit shape, and the tensor operations used:
  - strided windows;
  - channel concatenation;
  - mask selection;
  - broadcasting one channel.
- `volumes.dfy` (`Volumes`): the volume as a value. It holds:
  - the constructor's rank rule;
  - `new`;
  - the like-constructors;
  - the dim-0 reductions;
  - boolean-mask indexing;
  - `stack`.
- `quantile.dfy` (`Quantile`): k-th order statistics, with insertion sort as the reference, and `quantile`.
- `cropping.dfy` (`Cropping`): `crop` for both cropping kinds (a mesh and a tuple of slices), and `crop_to_nonzero`.
- `resampling.dfy` (`Resampling`):
  - the fast path of `resample_like`, with its padding modes;
  - `reshape` and `pad`;
  - the two findings below.
- `transforms.dfy` (`Transforms`): `transform` without resampling.
- `inplace.dfy` (`InPlace`): the in-place operations on a `Volume` class. The class holds a flat row-major `array<real>` and a geometry field.

## Conventions

- Voxel values are `real`. The `allclose` tolerance tests become exact equality.
- An affine map is a real 3x3 linear part plus a translation.
- Shift and scale in voxel space (`geometry.shift(d, space='voxel')` and `geometry.scale(s, space='voxel')`) act on the voxel side of the map:
  - `ShiftVoxel(a, d)` sends voxel `p` where `a` sent `p + d`.
  - `ScaleVoxel(a, s)` sends voxel `p` where `a` sent `p * s`.
- `coordinates_to_slicing(minc, maxc)` is taken to include `maxc`. `slicing_to_coordinates` is taken to give:
  - the normalised start;
  - the normalised stop minus one;
  - a stride exactly when some spatial slice has an explicit step.
- The crop margin, the pad delta and the mesh vertices are taken in voxel units. See "Left out".
- `slicing_to_coordinates` is assumed to complete a tuple with fewer than three spatial items with full slices. `crop` passes it the tuple as the caller gave it, `cropping[1:]` (voxel/volume.py:739). The model passes it the completed tuple instead, which under this assumption gives the same corners and stride.

## Model

| member | source | states |
|---|---|---|
| Geometry.Attach | voxel/volume.py:58-65 | a plain matrix is attached over the volume's grid; no geometry gives unit spacing with the grid centre at the world origin; an acquisition geometry is kept only when its baseshape is the grid's, and otherwise the result is ShapeMismatch |
| Geometry.ShiftVoxelWorld | voxel/volume.py:748-749 | after a voxel shift by `d`, voxel `p` lies where voxel `p + d` lay |
| Geometry.ScaleVoxelWorld | voxel/volume.py:751-752 | after a voxel scale by `s`, voxel `p` lies where voxel `p * s` lay |
| Geometry.Compose | voxel/volume.py:964 | `t @ a` maps every point as `t` after `a` |
| Slicing.Bound | voxel/volume.py:755 | a slice bound normalises as Python does: missing gives the default, negative counts from the end, and the result is clipped to `[0, n]` |
| Slicing.Resolve | voxel/volume.py:755 | a slice with a positive step picks the indices from its normalised start, below its normalised stop, and every index fits the axis |
| Tensors.Unsqueeze | voxel/volume.py:32-33 | a 3-D grid becomes one channel over the same grid holding the same values |
| Tensors.Slice | voxel/volume.py:755 | a strided window has the window's shape, and its voxel `(c, p)` is the picked voxel of the source |
| Tensors.Cat | voxel/volume.py:1075 | concatenation along channels: channel counts add, and the voxels of tensor `k` sit after the channels of tensors `0..k-1` |
| Tensors.Expand | voxel/volume.py:523-524 | a one-channel mask broadcast to `n` channels repeats its only channel |
| Tensors.Flatten | voxel/volume.py:498 | the flattened tensor has one entry per voxel: its length is `C * W * H * D`, and voxel `(c, p)` sits at its contiguous position `((c * W + x) * H + y) * D + z` |
| Tensors.FlatInside | voxel/volume.py:498 | every voxel's contiguous position lies inside the flattened tensor |
| Tensors.FlatUnique | voxel/volume.py:498 | distinct voxels have distinct contiguous positions |
| Tensors.FilterRank | voxel/volume.py:525 | the `k`-th kept entry is the entry under the `k`-th set flag, so selection keeps the order |
| Tensors.FilterCount | voxel/volume.py:525 | selection keeps one entry per set flag |
| Tensors.Masked | voxel/volume.py:525 | boolean selection is the flattened tensor filtered by the flattened mask: one value per set mask entry, in row-major order, and exactly the values whose mask entry is set |
| Volumes.Create | voxel/volume.py:21-37 | rank 3 gains a channel axis with the same values; rank 4 is kept; any other rank is RankError; a geometry over another grid is ShapeMismatch; a success satisfies the construction invariant |
| Volumes.NewKeepsGeometry | voxel/volume.py:102-115 | `new(t)` over the same grid succeeds and keeps the geometry |
| Volumes.NewWithGeometry | voxel/volume.py:102-115 | `new(t, g)` succeeds exactly when `g` covers `t`'s grid |
| Volumes.NewRejectsOtherGrid | voxel/volume.py:114-115 | `new(t)` over a different grid without a geometry fails |
| Volumes.FullLike | voxel/volume.py:360-414 | the like-constructors keep the geometry and the grid, take the given channel count or the volume's own, and fill every voxel with the value |
| Volumes.ReduceChannels | voxel/volume.py:223-269 | max, min and sum over dim 0 give one channel on the same geometry, holding at each voxel the greatest value (attained), the least value (attained) or the sum over channels; max and min of no channels fail |
| Volumes.SumOfOneChannel | voxel/volume.py:268-269 | summing a one-channel volume over channels gives it back |
| Volumes.SelectMasked | voxel/volume.py:519-525 | a boolean volume selects the values under set mask entries, one per set entry and in the order of the flattened volume; a one-channel mask applies to every channel of a multi-channel volume; any other shape mismatch fails |
| Volumes.Stack | voxel/volume.py:1060-1075 | one volume comes back as it is; several of the same grid are concatenated along channels on the first volume's geometry, channel counts adding and every voxel kept at its offset; differing grids or no volumes fail |
| Quantile.Sort | voxel/volume.py:501-504 | the reference order: sorted and a permutation of its input |
| Quantile.KthSmallest | voxel/volume.py:503-504 | an element with fewer than `k` elements below it and at least `k` at or below it |
| Quantile.KthLargest | voxel/volume.py:500-501 | an element with fewer than `k` elements above it and at least `k` at or above it |
| Quantile.MinIsFirstSmallest | voxel/volume.py:494-495 | the minimum is the first smallest element |
| Quantile.MaxIsFirstLargest | voxel/volume.py:496-497 | the maximum is the first largest element |
| Quantile.OrderInRange | voxel/volume.py:500-503 | `floor(n * q) + 1` lies in `[1, n]` for `0 <= q < 1` and `n >= 1` |
| Quantile.QuantileOf | voxel/volume.py:482-504 | `q` outside `[0, 1]` fails; `q = 0` gives the minimum, `q = 1` the maximum; otherwise the result is the k-th smallest voxel value (`q <= 0.5`) or the k-th largest (`q > 0.5`) with `1 <= k <= n`; an empty volume has no quantile |
| Cropping.Expand | voxel/volume.py:732 | a tuple of at most four items is completed with full slices; more than four fails |
| Cropping.ResolveItem | voxel/volume.py:755 | an index in `[-n, n)` picks one position, and is IndexOutOfRange outside it; a slice needs a positive step and resolves as Python does |
| Cropping.WindowOf | voxel/volume.py:755 | the four items resolve to a window that fits the tensor, or the first failing item's error |
| Cropping.Checked | voxel/volume.py:728-736 | more than four items fail; an integer index on a spatial axis fails; a success has steps on every spatial slice and keeps the channel item |
| Cropping.SlicingToCoordinates | voxel/volume.py:739 | the low corner is the slices' normalised starts and the high corner their normalised stops minus one, inside the grid; the stride is the slices' steps |
| Cropping.IntegerBetween | voxel/volume.py:708-710 | rounding the lower corner up and the upper corner down keeps exactly the integers between them |
| Cropping.MeshCorners | voxel/volume.py:708-710 | a voxel lies between the mesh's rounded corners exactly when every coordinate lies within the vertices' range |
| Cropping.MeshPlan | voxel/volume.py:704-723 | an empty mesh fails; otherwise `minc` is the vertices' rounded-up low corner minus the margin, clamped to `>= 0`, and `maxc` is their rounded-down high corner plus the margin, clamped to `<= baseshape`; the slicing is built from these corners, the channel axis is kept whole and there is no stride |
| Cropping.Reslice | voxel/volume.py:739-743 | without a margin the slicing is kept and the corners are the slices' own; with a margin `minc = max(c0 - m, 0)` and `maxc = min(c1 + m, baseshape)`, and the spatial slices are rebuilt from them with the slices' stride |
| Cropping.TuplePlan | voxel/volume.py:725-743 | the tuple branch succeeds exactly when the items pass the checks; without a margin the checked slicing is kept, with one the corners are widened by the margin and clamped as in `Reslice` |
| Cropping.MarginWidens | voxel/volume.py:739-743 | with unit steps and a non-negative margin `m`, a crop that succeeds without margin also succeeds with it; on each spatial axis the window starts at `max(start - m, 0)`, ends at `min(stop + m, n)`, and contains the window without margin |
| Cropping.MovedWorld | voxel/volume.py:748-752 | the cropped geometry puts voxel `p` where voxel `minc + p * stride` was; skipping the shift at `minc = 0` and the scale without a stride changes nothing |
| Cropping.Cut | voxel/volume.py:755-759 | the sliced tensor under the moved geometry, or the slicing's error |
| Cropping.Crop | voxel/volume.py:684-759 | an unknown cropping type, an empty mesh, too many items and a spatial integer index fail; a success is a valid volume on the moved geometry |
| Cropping.CropSlices | voxel/volume.py:755-759 | a successful crop's data is the source data sliced by the crop window |
| Cropping.CropInWorld | voxel/volume.py:748-759 | every voxel of the cropped volume holds the source voxel it was cut from, and lies where that voxel lay in world space |
| Cropping.CropEverything | voxel/volume.py:725-759 | cropping with an empty tuple and no margin gives the volume back |
| Cropping.ZeroMargin | voxel/volume.py:740-743 | a zero margin crops as no margin does |
| Cropping.NonzeroMember | voxel/volume.py:773 | the non-zero list holds exactly the voxels whose value is not zero |
| Cropping.NonzeroBox | voxel/volume.py:776-777 | every non-zero voxel lies between the least and greatest corner over all four axes |
| Cropping.TightBelow | voxel/volume.py:776 | every coordinate of the low corner is attained by a non-zero voxel |
| Cropping.TightAbove | voxel/volume.py:777 | every coordinate of the high corner is attained by a non-zero voxel |
| Cropping.CropToNonzero | voxel/volume.py:761-778 | the crop fails exactly when no voxel is non-zero |
| Cropping.CropToNonzeroShape | voxel/volume.py:773-778 | without a margin the result spans the bounding box of the non-zero voxels in channels and in grid |
| Cropping.CropToNonzeroKeeps | voxel/volume.py:773-778 | every non-zero voxel is kept, at its offset from the low corner |
| Cropping.CropToNonzeroInPlace | voxel/volume.py:773-778 | every kept non-zero voxel stays where it was in world space |
| Resampling.Plan | voxel/volume.py:816-834 | the corrected per-axis plan: output extent equals the target's, and output index `i` copies source index `i + lower` exactly when that lies in the source |
| Resampling.PlanAsWrittenExtent | voxel/volume.py:816-834 | the plan as written has the target's extent exactly when the crop window is not empty |
| Resampling.PlanAgrees | voxel/volume.py:816-834 | when the crop window is not empty, the plan as written is the corrected plan |
| Resampling.DisjointWindowMisshaped | voxel/volume.py:816-834 | for `lower = -5`, `T = 3`, `S = 10` the plan as written keeps 8 voxels and pads 5 before, 13 in all instead of 3 |
| Resampling.PlanBefore | voxel/volume.py:816-834 | the corrected plan for a target window wholly before the source keeps nothing and pads all `T` voxels |
| Resampling.PlanPadsIffOutside | voxel/volume.py:826-834 | padding is needed exactly when the target grid leaves the source grid |
| Resampling.PadTensor | voxel/volume.py:826-834 | padding keeps the channels, grows the grid by the pad amounts, and takes its values from the chosen mode; replicating an empty axis or reflecting by as many voxels as the axis has fails |
| Resampling.Padded | voxel/volume.py:826-834 | an unknown padding mode fails only when some pad amount is non-zero; zeros padding never fails |
| Resampling.PaddedKept | voxel/volume.py:820-834 | after crop and pad, output voxel `q + before` holds source voxel `q + start` |
| Resampling.PaddedZeros | voxel/volume.py:826-834 | in zeros mode, every padded voxel is zero |
| Resampling.ResampleLike | voxel/volume.py:800-836 | differing linear parts or a fractional offset leave the fast path; identical geometries return the data unchanged on the target geometry; otherwise the result has the target geometry and keeps the channels |
| Resampling.ResampleLikeOutcome | voxel/volume.py:811-836 | on the integer-shift path with a non-negative target shape, zeros mode always succeeds with the target's shape |
| Resampling.ResampleZerosContent | voxel/volume.py:811-836 | in zeros mode, output voxel `p` is source voxel `p + lower` when that lies in the source, and zero otherwise |
| Resampling.FastPathAligned | voxel/volume.py:811-813 | with an integer offset, target voxel `p` lies where source voxel `p + lower` lies |
| Resampling.ReshapeBy | voxel/volume.py:906-910 | resampling onto the grid of shape `t` shifted by `shift` gives shape `t` on the shifted geometry |
| Resampling.ReshapeAsWritten | voxel/volume.py:906-910 | reshape as written: shape `t`, with the geometry shifted by `(S - t) // 2` |
| Resampling.ReshapeAsWrittenRoundTrip | voxel/volume.py:897-910 | reshaping there and back as written leaves the geometry shifted by -1 voxel on every axis whose size difference is odd |
| Resampling.ReshapeAsWrittenDrift | voxel/volume.py:897-898 | the unit grid at the origin, reshaped as written to `T` and back, has its first voxel at -1 on every axis whose size difference is odd and at 0 elsewhere |
| Resampling.ReshapeAsWrittenNotSymmetric | voxel/volume.py:897-898 | a 4-voxel grid at the origin, reshaped to 3 and back as written, starts at world x = -1, so its geometry differs from the original |
| Resampling.ReshapeAsWrittenFastPath | voxel/volume.py:906-910 | for a non-negative shape, the as-written reshape is what the fast path as written gives on the floor-centred target, since that window always overlaps the source |
| Resampling.Reshape | voxel/volume.py:906-910 | corrected reshape: shape `t`, with the centring shift rounded toward zero; voxel `p` holds source voxel `p + shift` or zero |
| Resampling.HalfShiftCancels | voxel/volume.py:897-898 | the truncated shifts out and back sum to zero |
| Resampling.ReshapeRoundTrip | voxel/volume.py:897-898 | reshaping there and back restores the original geometry |
| Resampling.FloorShiftResidue | voxel/volume.py:906 | the floor-divided shifts out and back sum to -1 on odd axes and to 0 elsewhere |
| Resampling.PadAsWritten | voxel/volume.py:924-930 | pad as written: baseshape `S + d`, with the geometry shifted by `(S - (S + d)) // 2`; a negative new shape fails |
| Resampling.PadAsWrittenRoundTrip | voxel/volume.py:924-930 | padding by `d` and then by `-d` as written restores the shape but leaves the geometry shifted by -1 voxel on every axis where `d` is odd |
| Resampling.PadAsWrittenDrift | voxel/volume.py:924-928 | the unit grid at the origin, padded by `d` and back as written, has its first voxel at -1 on every axis where `d` is odd and at 0 elsewhere |
| Resampling.PadAsWrittenNotSymmetric | voxel/volume.py:924-928 | a 4-voxel grid at the origin, padded by one voxel along x and back as written, starts at world x = -1, so its geometry differs from the original |
| Resampling.Pad | voxel/volume.py:924-930 | corrected pad: baseshape `S + d`, with the centring shift rounded toward zero; a negative new shape fails |
| Resampling.PadRoundTrip | voxel/volume.py:924-930 | corrected pad: padding by `d` and then by `-d` restores the shape and the geometry |
| Transforms.TransformGeometry | voxel/volume.py:959-964 | `negate` fails; otherwise the data and the grid are unchanged |
| Transforms.TransformMovesWorld | voxel/volume.py:963-964 | every voxel moves to where the transform takes its old world position |
| Transforms.TransformTwice | voxel/volume.py:959-964 | transforming by `t1` and then `t2` places every voxel as one transform by `t2 @ t1` does |
| Transforms.TransformStill | voxel/volume.py:959-964 | the identity transform gives the volume back |
| InPlace.Locate | voxel/volume.py:530-531 | an index tuple names a cell exactly when every index lies in `[-n, n)`, and the cell is inside the buffer |
| InPlace.LocateDistinct | voxel/volume.py:530-531 | different voxels name different cells |
| InPlace.FilledTwice | voxel/volume.py:530-531 | masked assignment sets the masked cells, keeps the others, and is idempotent |
| InPlace.CombinedVoxel | voxel/volume.py:601-615 | the in-place operator combines each voxel with the operand's matching voxel; a one-channel operand applies to every channel |
| InPlace.SubtractUndoesAdd | voxel/volume.py:601-607 | `-=` after `+=` with the same operand restores the data |
| InPlace.DivideUndoesMultiply | voxel/volume.py:609-615 | `/=` after `*=` with the same non-zero operand restores the data |
| InPlace.ClampValue | voxel/volume.py:316-334 | the result is at most `max`; at least `min` when the bounds do not cross; unchanged inside the bounds; always `x`, `min` or `max` |
| InPlace.ClampTwice | voxel/volume.py:331-332 | clamping is idempotent |
| InPlace.Volume.constructor | voxel/volume.py:21-37 | a flat buffer of the volume's extent, with its geometry attached |
| InPlace.Volume.SetGeometry | voxel/volume.py:58-65 | an attachable geometry replaces the old one; otherwise ShapeMismatch and the geometry is unchanged; the data, the shape and the construction invariant are kept |
| InPlace.Volume.SetVoxel | voxel/volume.py:530-531 | exactly the named cell takes the value; an index out of range fails and changes nothing |
| InPlace.Volume.SetMasked | voxel/volume.py:530-531 | a mask of the volume's shape sets exactly the masked cells; any other mask fails and changes nothing |
| InPlace.Volume.UpdateWith | voxel/volume.py:601-615 | the data becomes the broadcast combination of the old data with the operand; an operand that does not broadcast fails and changes nothing |
| InPlace.Volume.ClampInPlace | voxel/volume.py:331-332 | every cell is clamped; with no bound at all it fails and changes nothing |

## Left out

- Interpolation is not modelled: the `grid_sample` fallback of `resample_like` (voxel/volume.py:838-855), the resampling branch of `transform` (voxel/volume.py:966-985), and `volume_grid` and `normalize_grid_points`. `ResampleLike` answers `Interpolated` where the source would interpolate.
- `resample`'s spacing-to-shape computation is left out, because it is floating point `ceil` and fractional shifts.
- Also left out, for the reason given:
  - filters and `smooth`: floating point convolution;
  - `save`: file I/O;
  - `to`, `cuda`, `cpu`, `half`, `float`, `detach`: device, dtype and autograd plumbing;
  - `rand_like` and `randn_like`: randomness;
  - `centroids`: floating point weighted means;
  - `bounds`: depends on the mesh module.
- The conversions from world units to voxels (`margin / spacing`, `delta / spacing`, rounded) are floating point, so `Crop`, `CropToNonzero` and `Pad` take the margin or the delta already in whole voxels. Mesh vertices are taken in voxel coordinates, so the `world2voxel` step is left out.
- `resample_like`'s `delta = (inverse(source) @ target)(0)` needs a matrix inverse from the geometry library, which is not part of this model. `ResampleLike` takes `delta` as a parameter, constrained so that the source maps `delta` to the target's translation.
- `AcquisitionGeometry`, `AffineMatrix`, `vx.slicing` and `vx.mesh` are not part of this model; the conventions assumed for them are listed above.
- Further geometry details:
  - `transform` takes the transform already in world space, so the conversion of voxel-space transforms is left out;
  - the explicit slice direction of a geometry is not modelled;
  - Ellipsis in a cropping tuple is not modelled.
- The operators that return a new volume (`+`, `-`, `*`, `/`, comparisons, logical ops) and `clamp(inplace=False)` are left out; their in-place counterparts are modelled.
- dtypes are left out: data is `real` and masks are `bool`.
- Assignment by slices and tensor-valued assignment through `__setitem__` are left out; assignment at one voxel and assignment through a boolean mask are modelled.
- `InPlace.Volume.UpdateWith` requires a non-zero divisor for `/=`, because division by zero gives IEEE infinities or NaN, which `real` cannot represent.
- `InPlace.Volume.UpdateWith` accepts only these operand shapes: a scalar, the volume's own shape, or one channel over the volume's grid. It does not model torch's other broadcasts.
- `InPlace.Volume.constructor` takes a buffer that is already 4-D, with a geometry that attaches to its grid. The rank and geometry checks of the constructor (voxel/volume.py:32-37, 61-63) are in `Volumes.Create`.
- `InPlace.SubtractUndoesAdd`: the round trip holds in exact real arithmetic only. Float rounding is not modelled; in float64, `v += 1e16` then `v -= 1e16` turns a voxel of `1.0` into `0.0`.
- `InPlace.DivideUndoesMultiply`: the round trip holds in exact real arithmetic only. Float rounding and overflow to infinity under `*=` are not modelled.
- `Volumes.FullLike`: a negative channel count, which `torch.full`, `torch.zeros` and `torch.ones` refuse (voxel/volume.py:374-376, 393-395, 412-414), is excluded by the type `nat`.
- `Quantile.QuantileOf`: the rank `int(n * q) + 1` (or `int(n * (1.0 - q)) + 1`) is computed on exact reals in `Quantile.Order`; float64 rounding is not modelled. For example `q = 0.9`, `n = 10` gives `1.0 - q` slightly below 0.1 in floating point, so the source takes `k = 1` where the model takes `k = 2`.
- `Quantile.QuantileOf` returns an error for a volume with no voxels, where torch raises from `min`, `max` or `topk`.
- `Cropping.CropToNonzero` fails for a volume with no non-zero voxel, where the source fails inside `amin` on an empty tensor.

## Findings

| source | as written | input that shows it | evidently intended | confidence | as-written member | corrected member |
|---|---|---|---|---|---|---|
| voxel/volume.py:816-834 | the fast path crops `[max(lower, 0), min(upper, 0) + S)` and pads `|min(lower, 0)|` before and `max(upper, 0)` after; when the target window lies wholly before the source, the stop is negative and Python slicing counts it from the end | one axis with `S = 10`, `T = 3`, `lower = -5`: the crop `[0, -2)` keeps 8 voxels and 5 are padded before, so 13 voxels come out instead of 3 and `new` rejects the geometry | an all-padding output of the target's shape (zeros in zeros mode) | not executed | Resampling.ResampleLikeAsWritten (with Resampling.DisjointWindowMisshaped and Resampling.AsWrittenRejectsDisjoint) | Resampling.ResampleLike (with Resampling.Plan, Resampling.PlanBefore and Resampling.ResampleZerosContent) |
| voxel/volume.py:897-910 | `reshape` centres with the shift `(S - T) // 2`, a floor division; going back uses `(T - S) // 2`, and on an odd difference the two add up to -1 rather than 0 | a unit-spaced `4 x 1 x 1` grid at the origin, reshaped to `3 x 1 x 1` and back: the first voxel ends at world x = -1 | the documented symmetry: reshaping back restores the original geometry | not executed | Resampling.ReshapeAsWritten (with Resampling.ReshapeAsWrittenNotSymmetric, Resampling.ReshapeAsWrittenDrift and Resampling.ReshapeAsWrittenRoundTrip) | Resampling.Reshape (with Resampling.ReshapeRoundTrip) |
| voxel/volume.py:924-930 | `pad` centres with the same floor-divided shift `(S - (S + d)) // 2`; padding back by `-d` uses `(S + d - S) // 2`, and on an odd `d` the two add up to -1 | a unit-spaced `4 x 1 x 1` grid at the origin, padded by `(1, 0, 0)` and then by `(-1, 0, 0)`: the first voxel ends at world x = -1 | padding by `-d` undoes padding by `d`, as for the `reshape` it mirrors | not executed | Resampling.PadAsWritten (with Resampling.PadAsWrittenNotSymmetric, Resampling.PadAsWrittenDrift and Resampling.PadAsWrittenRoundTrip) | Resampling.Pad (with Resampling.PadRoundTrip) |

