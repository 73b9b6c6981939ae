/**
 * Java's 32-bit two's-complement `int`. Every coordinate, size and edge of
 * the window is a Java `int`, so sums and differences of them wrap modulo
 * 2^32; Add and Sub say so explicitly.
 */
module JavaInt {
  const MIN: int := -0x8000_0000
  const MAX: int := 0x7FFF_FFFF
  const MODULUS: int := 0x1_0000_0000

  type Int32 = x: int | MIN <= x <= MAX

  /** The Java `int` that stands for the mathematical integer v. */
  function Wrap(v: int): (r: Int32)
    ensures MIN <= v <= MAX ==> r == v
    ensures (r - v) % MODULUS == 0
  {
    (v - MIN) % MODULUS + MIN
  }

  /** Java `a + b` on two ints. */
  function Add(a: Int32, b: Int32): (r: Int32)
    ensures MIN <= a + b <= MAX ==> r == a + b
  {
    Wrap(a + b)
  }

  /** Java `a - b` on two ints. */
  function Sub(a: Int32, b: Int32): (r: Int32)
    ensures MIN <= a - b <= MAX ==> r == a - b
  {
    Wrap(a - b)
  }

  /** Two ints that agree modulo 2^32 are the same int. */
  lemma CongruentEqual(r: Int32, s: Int32)
    requires (r - s) % MODULUS == 0
    ensures r == s
  {
    var d := r - s;
    assert -MODULUS < d < MODULUS;
  }

  /** Wrapping is periodic: adding a multiple of 2^32 changes nothing. */
  lemma WrapCongruent(u: int, v: int)
    requires (u - v) % MODULUS == 0
    ensures Wrap(u) == Wrap(v)
  {
    var ru, rv := Wrap(u), Wrap(v);
    assert (ru - u) % MODULUS == 0 && (rv - v) % MODULUS == 0;
    ModSum(ru - u, u - v, v - rv);
    CongruentEqual(ru, rv);
  }

  lemma ModSum(a: int, b: int, c: int)
    requires a % MODULUS == 0 && b % MODULUS == 0 && (-c) % MODULUS == 0
    ensures (a + b + c) % MODULUS == 0
  {
    var ka, kb, kc := a / MODULUS, b / MODULUS, (-c) / MODULUS;
    assert a == ka * MODULUS && b == kb * MODULUS && -c == kc * MODULUS;
    assert a + b + c == (ka + kb - kc) * MODULUS;
  }

  /**
   * `a + (b - a) == b` holds of Java ints whatever overflows on the way:
   * an edge at `x` with width `right - x` ends exactly at `right`.
   */
  lemma AddSubCancel(a: Int32, b: Int32)
    ensures Add(a, Sub(b, a)) == b
  {
    var d := Sub(b, a);
    assert (d - (b - a)) % MODULUS == 0;
    WrapCongruent(a + d, b);
  }
}
