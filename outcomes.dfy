/** Values shared by the whole model: optional values, the outcome of a
    Python call that may raise, and a symbolic `round(x, n)`. */
module Outcomes {

  /** Python's `None` or a value. */
  datatype Option<+T> = None | Some(value: T)

  /** What a Python call ends in: it returns a value, or it raises an
      exception that no code on the path catches. */
  datatype Call<+T> = Returns(value: T) | Raises

  /** `round(exact, places)` kept symbolic: the binary floating-point
      rounding itself is not modelled, so properties are stated of `exact`. */
  datatype Rounded = Round(exact: real, places: nat)
}
