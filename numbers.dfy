/**
 * Numeric vocabulary shared by the gear kernel.
 *
 * JavaScript numbers are modelled as exact reals (and tooth counts, which come
 * from parseInt, as integers). Trigonometry is not computed: the two functions
 * of Math that the kernel calls are handed in as a Trig value.
 */
module Numbers {

  /** Math.PI, written as the decimal that denotes it. */
  const Pi: real := 3.141592653589793

  /** Math.max on two numbers. */
  function Max(a: real, b: real): real {
    if a >= b then a else b
  }

  /** Math.min on two numbers. */
  function Min(a: real, b: real): real {
    if a <= b then a else b
  }

  /** Math.max on two integers. */
  function MaxInt(a: int, b: int): int {
    if a >= b then a else b
  }

  /** Math.min on two integers. */
  function MinInt(a: int, b: int): int {
    if a <= b then a else b
  }

  /** Math.cos and Math.sin, both taking radians. */
  datatype Trig = Trig(cos: real -> real, sin: real -> real)

  /** Trigonometry that satisfies the Pythagorean identity. */
  ghost predicate Pythagorean(t: Trig) {
    forall a :: t.cos(a) * t.cos(a) + t.sin(a) * t.sin(a) == 1.0
  }
}
