/** Small vocabulary shared by every component. */
module Basics {

  datatype Option<+T> = None | Some(value: T)

  /** `reasons.push(reason)` guarded by a condition, as a value. */
  function When<R>(condition: bool, reason: R): (r: seq<R>)
    ensures r == [] <==> !condition
  {
    if condition then [reason] else []
  }

  function Max(x: real, y: real): real {
    if x < y then y else x
  }

  function Min(x: real, y: real): real {
    if y < x then y else x
  }

  function Abs(x: real): real {
    if x < 0.0 then -x else x
  }
}
