/** Java's 32-bit `int`: the range, wrap-around of `+` and `-`, and the `(int)` cast of a floating value. */
module JavaInt {
  const MIN: int := -0x8000_0000
  const MAX: int := 0x7FFF_FFFF
  const MODULUS: int := 0x1_0000_0000

  newtype Int32 = x: int | -0x8000_0000 <= x < 0x8000_0000

  /** The result of Java `int` addition or subtraction whose exact value is `x`:
      `x` reduced modulo 2^32 into the signed range. */
  function Wrap(x: int): (r: Int32)
    ensures MIN <= x <= MAX ==> r as int == x
    ensures (x - r as int) % MODULUS == 0
  {
    var q := (x - MIN) / MODULUS;
    assert x - ((x - MIN) % MODULUS + MIN) == q * MODULUS;
    ((x - MIN) % MODULUS + MIN) as Int32
  }

  /** Java's `(int)` cast of a finite floating value: truncation toward zero,
      saturating at the two ends of the `int` range. */
  function FromReal(r: real): (n: Int32)
    ensures r >= MAX as real ==> n as int == MAX
    ensures r <= MIN as real ==> n as int == MIN
    ensures MIN as real < r < MAX as real && r >= 0.0 ==> 0 <= n && n as real <= r < n as real + 1.0
    ensures MIN as real < r < MAX as real && r < 0.0 ==> n <= 0 && n as real - 1.0 < r <= n as real
  {
    if r >= MAX as real then MAX as Int32
    else if r <= MIN as real then MIN as Int32
    else if r >= 0.0 then r.Floor as Int32
    else -((-r).Floor) as Int32
  }
}
