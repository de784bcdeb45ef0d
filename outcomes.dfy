/**
 * The shapes in which the toolkit's operations report back: a value or an
 * error message (Go's `(T, error)` pair), and a floating-point outcome that
 * may be NaN or infinite.
 */
module Outcomes {

  /** A Go `(T, error)` pair: either a result or the error's message. */
  datatype Result<T> = Ok(value: T) | Err(msg: string)

  /** A float64 outcome: a finite number, NaN, or one of the two infinities. */
  datatype Value = Num(x: real) | NaN | PosInf | NegInf

  const InvalidDimensions: string := "invalid input dimensions"
  const Singular: string := "matrix is singular"
}
