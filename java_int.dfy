/** Java's 32-bit `int`, whose arithmetic wraps around modulo 2^32. */
module JavaInt {
  const Modulus: int := 0x1_0000_0000

  newtype int32 = x: int | -0x8000_0000 <= x < 0x8000_0000

  predicate InRange(x: int)
  {
    -0x8000_0000 <= x < 0x8000_0000
  }

  /** The `int` a Java operation yields when the exact result is `x`. */
  function Wrap(x: int): (r: int32)
    ensures InRange(x) ==> r as int == x
    ensures (x - r as int) % Modulus == 0
  {
    ((x + 0x8000_0000) % Modulus - 0x8000_0000) as int32
  }

  /** Adding a multiple of 2^32 does not change the wrapped value. */
  lemma WrapPeriodic(x: int, q: int)
    ensures Wrap(x + q * Modulus) == Wrap(x)
  {
    var a := x + 0x8000_0000;
    assert (a + q * Modulus) % Modulus == a % Modulus;
  }

  /** Two values that differ by a multiple of 2^32 wrap to the same `int`. */
  lemma WrapCongruent(x: int, y: int)
    requires (x - y) % Modulus == 0
    ensures Wrap(x) == Wrap(y)
  {
    var q := (x - y) / Modulus;
    assert x == y + q * Modulus;
    WrapPeriodic(y, q);
  }

  /** Wrapping an intermediate sum changes nothing: `int` addition is exact modulo 2^32. */
  lemma WrapAdd(x: int, y: int)
    ensures Wrap(Wrap(x) as int + y) == Wrap(x + y)
  {
    WrapCongruent(Wrap(x) as int + y, x + y);
  }

  /** Wrapping an intermediate factor changes nothing: `int` multiplication is exact modulo 2^32. */
  lemma WrapMul(x: int, y: int)
    ensures Wrap(Wrap(x) as int * y) == Wrap(x * y)
  {
    var w := Wrap(x) as int;
    var q := (x - w) / Modulus;
    assert x == w + q * Modulus;
    assert x * y == w * y + (q * y) * Modulus;
    WrapPeriodic(w * y, q * y);
  }
}
