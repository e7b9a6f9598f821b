/** Small helper datatypes shared by the two script models. */
module Wrappers {

  /** A value that may be absent: JavaScript's `null`, or a number that failed to parse. */
  datatype Option<+T> = None | Some(value: T)

  function Min(a: real, b: real): real { if a <= b then a else b }
  function Max(a: real, b: real): real { if a >= b then a else b }
  function Abs(a: real): real { if a < 0.0 then -a else a }
}
