/**
 * Java's 32-bit `int` arithmetic, as far as the widgets rely on it: values of
 * type `int`, two's-complement wrap-around of `+`/`-`, and `/`, which
 * truncates toward zero (Dafny's own `/` is Euclidean).
 */
module JavaInt {

  const INT_MIN: int := -0x8000_0000
  const INT_MAX: int := 0x7fff_ffff
  const TWO_32: int := 0x1_0000_0000

  /** The values of Java's `int`. */
  type Int32 = x: int | -0x8000_0000 <= x < 0x8000_0000

  predicate InInt32(x: int) {
    INT_MIN <= x <= INT_MAX
  }

  function Abs(x: int): nat {
    if x < 0 then -x else x
  }

  /** The `int` that Java produces for an exact result `x`: `x` modulo 2^32, read as two's complement. */
  function Wrap32(x: int): (r: Int32)
    ensures (x - r) % TWO_32 == 0
    ensures InInt32(x) ==> r == x
  {
    var m := x % TWO_32;
    if m <= INT_MAX then m else m - TWO_32
  }

  /** Java's `a / b` on integers: the quotient rounded toward zero. */
  function JavaDiv(a: int, b: int): (q: int)
    requires b != 0
    ensures Abs(q) * Abs(b) <= Abs(a) < (Abs(q) + 1) * Abs(b)
    ensures q != 0 ==> (q < 0 <==> (a < 0) != (b < 0))
  {
    var n, d := Abs(a), Abs(b);
    var m := n / d;
    QuotientBounds(n, d);
    if (a < 0) == (b < 0) then m else -m
  }

  /** The quotient of natural numbers brackets the dividend between two multiples of the divisor. */
  lemma QuotientBounds(n: nat, d: nat)
    requires d > 0
    ensures (n / d) * d <= n < (n / d + 1) * d
  {
    var q, r := n / d, n % d;
    assert n == q * d + r && 0 <= r < d;
    assert (q + 1) * d == q * d + d;
  }
}
