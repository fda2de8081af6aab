/** Types shared by every module. */
module Common {
  datatype Option<+T> = None | Some(value: T)

  /** Positions and directions in the plane, over exact reals. */
  datatype Vec = Vec(x: real, y: real)
}
