/**
 * Java's 32-bit `int` arithmetic. Quantities, prices, line totals and order
 * amounts are all `int` in the store, so `*` and `+` wrap around modulo 2^32
 * into the two's-complement range.
 */
module JavaInt {

  const Modulus: int := 0x1_0000_0000
  const MinInt: int := -0x8000_0000
  const MaxInt: int := 0x7fff_ffff

  type Int32 = x: int | MinInt <= x <= MaxInt

  /** The `int` a Java computation yields when the exact result is `x`. */
  function Wrap32(x: int): (r: Int32)
    ensures (r - x) % Modulus == 0
    ensures MinInt <= x <= MaxInt ==> r == x
  {
    var m := x % Modulus;
    if m <= MaxInt then m else m - Modulus
  }

  /** Java `a * b` on two `int`s. */
  function Mul32(a: Int32, b: Int32): (r: Int32)
    ensures MinInt <= a * b <= MaxInt ==> r == a * b
  {
    Wrap32(a * b)
  }

  /** Java `a + b` on two `int`s. */
  function Add32(a: Int32, b: Int32): (r: Int32)
    ensures (r - (a + b)) % Modulus == 0
    ensures MinInt <= a + b <= MaxInt ==> r == a + b
  {
    Wrap32(a + b)
  }

  /** Two exact values that agree modulo 2^32 wrap to the same `int`. */
  lemma WrapCongruent(x: int, y: int)
    requires (x - y) % Modulus == 0
    ensures Wrap32(x) == Wrap32(y)
  {
    var k := (x - y) / Modulus;
    assert x == y + k * Modulus;
    ModShift(y, k);
  }

  lemma ModShift(y: int, k: int)
    ensures (y + k * Modulus) % Modulus == y % Modulus
  {
  }

  /** Sums of pairwise congruent terms are congruent. */
  lemma AddCongruent(x: int, a: int, y: int, b: int)
    requires (x - a) % Modulus == 0 && (y - b) % Modulus == 0
    ensures ((x + y) - (a + b)) % Modulus == 0
  {
    var i := (x - a) / Modulus;
    var j := (y - b) / Modulus;
    assert (x + y) - (a + b) == 0 + (i + j) * Modulus;
    ModShift(0, i + j);
  }

  /** Wrapping once along the way or only at the end gives the same `int`. */
  lemma {:induction false} WrapAdd(x: int, a: int, y: int, b: int)
    requires (a - x) % Modulus == 0 && (b - y) % Modulus == 0
    ensures Wrap32(x + y) == Wrap32(a + b)
  {
    var i := (x - a) / Modulus;
    var j := (y - b) / Modulus;
    assert x + y - (a + b) == (i + j) * Modulus;
    WrapCongruent(x + y, a + b);
  }
}
