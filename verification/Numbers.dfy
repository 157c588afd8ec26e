/** `Math.min`, `Math.max` and the rounding-up division that the source writes with `Math.ceil`. */
module Numbers {

  /** `Number.MAX_SAFE_INTEGER` */
  const MAX_SAFE_INTEGER := 9007199254740991

  function Min(a: int, b: int): int {
    if a < b then a else b
  }

  function Max(a: int, b: int): int {
    if a < b then b else a
  }

  function CeilDiv(a: int, b: int): int
    requires b > 0
  {
    (a + b - 1) / b
  }
}
