/** The native descriptors the shape factories hand their parameters to.
    Their implementation is compiled code outside this model; here each one
    only records the arguments it was constructed with. */
module Native {
  import opened PyValues

  /** Primitive cell: one length per primitive-vector direction, and the
      flag saying whether the lengths are in nanometers. */
  datatype Primitive = Primitive(lengths: seq<PyVal>, nanometers: PyVal)

  /** Translational symmetry: one sentinel-encoded length per direction. */
  datatype Translational = Translational(lengths: seq<PyVal>)
}
