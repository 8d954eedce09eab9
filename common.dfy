/** Small helpers shared by the game modules: an Option type and the
    clamping operators of JavaScript's Math library on integers and reals. */
module Common {

  datatype Option<+T> = None | Some(value: T)

  /** Math.max on two integers. */
  function Max(a: int, b: int): int { if a >= b then a else b }

  /** Math.min on two integers. */
  function Min(a: int, b: int): int { if a <= b then a else b }

  /** Math.max on two reals. */
  function MaxReal(a: real, b: real): real { if a >= b then a else b }

  /** Math.min on two reals. */
  function MinReal(a: real, b: real): real { if a <= b then a else b }

  /** Math.abs on a real. */
  function Abs(x: real): real { if x < 0.0 then -x else x }
}
