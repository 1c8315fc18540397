/** The lesser and the greater of two numbers. */
module Numbers {

  function Min(a: int, b: int): int { if a <= b then a else b }

  /** `x` is the smaller, or the greater, of the two. */
  predicate IsLesser(x: int, a: int, b: int) { x <= a && x <= b && (x == a || x == b) }

  predicate IsGreater(x: int, a: int, b: int) { a <= x && b <= x && (x == a || x == b) }

  function Max(a: int, b: int): int { if a <= b then b else a }

  function RealMax(a: real, b: real): real { if a <= b then b else a }
}
