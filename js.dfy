/** JavaScript values as the engine reads them: an absent property is None,
    and `x || d` replaces every falsy x (absent, or the number 0) by d. */
module Js {

  datatype Option<T> = None | Some(value: T) {

    /** `x !== undefined ? x : default` */
    function GetOr(default: T): T {
      match this
      case Some(v) => v
      case None => default
    }
  }

  /** `hint || default` on an integer-valued property. */
  function NumberOr(hint: Option<int>, default: int): (r: int)
    ensures default != 0 ==> r != 0
    ensures hint.Some? && hint.value != 0 ==> r == hint.value
    ensures (hint.None? || hint == Some(0)) ==> r == default
  {
    if hint.Some? && hint.value != 0 then hint.value else default
  }

  /** `hint || default` on a real-valued property. */
  function RealOr(hint: Option<real>, default: real): (r: real)
    ensures default != 0.0 ==> r != 0.0
    ensures hint.Some? && hint.value != 0.0 ==> r == hint.value
    ensures (hint.None? || hint == Some(0.0)) ==> r == default
  {
    if hint.Some? && hint.value != 0.0 then hint.value else default
  }
}
