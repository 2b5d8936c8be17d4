/** Failure-carrying wrappers shared by the whole model: an optional value and
    a value-or-error result, standing for Go's `(T, error)` returns and for map
    lookups that may miss. */
module Outcomes {

  datatype Option<+T> = None | Some(value: T)

  datatype Result<+T, +E> = Ok(value: T) | Err(error: E)

  /** `min` and `max` over reals, as Go's `math.Min`/`math.Max` on finite values. */
  function Min(a: real, b: real): real { if a <= b then a else b }

  function Max(a: real, b: real): real { if a >= b then a else b }

  function Abs(x: real): real { if x < 0.0 then -x else x }
}
