/** Error values and the Option/Result wrappers that stand for the exceptions
    raised by the volume operations. */
module Results {

  datatype Option<+T> = None | Some(value: T)

  /** The ValueError, IndexError and RuntimeError conditions the volume code
      raises, directly or through the tensor library it calls. */
  datatype Error =
    | RankError(ndim: nat)                     // input tensor neither 3-D nor 4-D
    | ShapeMismatch                            // geometry baseshape differs from the tensor's spatial shape
    | QuantileOutOfRange                       // q < 0 or q > 1
    | EmptyReduction                           // min, max, topk or amin over no elements
    | UnknownCropping                          // cropping argument of an unsupported type
    | SpatialIndex                             // an integer index would remove a spatial axis
    | TooManyIndices                           // more than four slicing items
    | IndexOutOfRange                          // an integer index outside its axis
    | BadStep                                  // a slice step that is zero or negative
    | EmptyMesh                                // a bounding mesh with no vertices
    | NoPaddingMode(name: string)              // padding mode with no torch pad equivalent
    | PadTooLarge                              // torch cannot replicate or reflect-pad this axis
    | NegateWithoutResample                    // transform(negate=True, resample=False)
    | EmptyStack                               // stack() of no volumes
    | StackShapeMismatch                       // concatenating volumes of different spatial shapes
    | MaskShapeMismatch                        // boolean mask shape differs from the tensor's
    | NoClampBound                             // clamp with neither min nor max
    | BroadcastMismatch                        // an in-place operand that does not fit the volume's shape

  datatype Result<+T> = Ok(value: T) | Err(error: Error)
}
