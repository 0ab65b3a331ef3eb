/** The larger and the smaller of two numbers (`Math.max` / `Math.min` of two arguments). */
module MinMax {

  function Max(a: int, b: int): int { if a >= b then a else b }
  function Min(a: int, b: int): int { if a <= b then a else b }

  function MaxReal(a: real, b: real): real { if a >= b then a else b }
  function MinReal(a: real, b: real): real { if a <= b then a else b }
}
