/**
 * Java's integer operators, written out over Dafny's unbounded integers.
 * Dafny's `/` and `%` are Euclidean; Java's truncate toward zero.
 */
module JavaArith {

  const INT_MIN: int := -0x8000_0000
  const INT_MAX: int := 0x7fff_ffff

  function Abs(x: int): (r: nat)
    ensures r == x || r == -x
  {
    if x < 0 then -x else x
  }

  /** Java's `a / b` on `int` and `long`: the quotient truncated toward zero. */
  function Div(a: int, b: int): (q: int)
    requires b != 0
    ensures Abs(q) == Abs(a) / Abs(b)
    ensures (a < 0) == (b < 0) ==> q >= 0
    ensures (a < 0) != (b < 0) ==> q <= 0
    ensures a >= 0 && b > 0 ==> q == a / b
  {
    var m := Abs(a) / Abs(b);
    assert m >= 0;
    if (a < 0) != (b < 0) then -m else m
  }

  /** Java's `a % b` on `int`: the remainder takes the sign of `a`. */
  function Rem(a: int, b: int): (r: int)
    requires b != 0
    ensures a == Div(a, b) * b + r
    ensures a >= 0 && b > 0 ==> r == a % b
  {
    a - Div(a, b) * b
  }

  /** Java's `(int)` cast of a `long`: keep the low 32 bits, two's complement. */
  function ToInt(x: int): (r: int)
    ensures INT_MIN <= r <= INT_MAX
    ensures INT_MIN <= x <= INT_MAX ==> r == x
    ensures (r - x) % 0x1_0000_0000 == 0
  {
    (x - INT_MIN) % 0x1_0000_0000 + INT_MIN
  }

  /** Java's `Math.abs` on `float`. */
  function RealAbs(a: real): (r: real)
    ensures r >= 0.0 && (r == a || r == -a)
  {
    if a < 0.0 then -a else a
  }

  /** Java's `Math.min` on `int`. */
  function Min(a: int, b: int): (r: int)
    ensures r <= a && r <= b && (r == a || r == b)
  {
    if a <= b then a else b
  }

  /** Java's `Math.max` on `int`. */
  function Max(a: int, b: int): (r: int)
    ensures r >= a && r >= b && (r == a || r == b)
  {
    if a >= b then a else b
  }

  // Facts about multiplication and division used by the proofs.

  lemma MulNonneg(a: int, b: int)
    requires a >= 0 && b >= 0
    ensures a * b >= 0
  {
  }

  lemma MulMonotone(a: int, b: int, d: nat)
    requires a <= b
    ensures a * d <= b * d
  {
    assert b * d - a * d == (b - a) * d;
    MulNonneg(b - a, d);
  }

  /** A positive multiple of `d` is at least `d`. */
  lemma MulAtLeast(x: int, d: nat)
    ensures x >= 1 ==> x * d >= d
  {
    if x >= 1 {
      MulMonotone(1, x, d);
    }
  }

  /** Euclidean division by a positive number is monotone. */
  lemma FloorDivMonotone(a: int, b: int, d: int)
    requires a <= b && d > 0
    ensures a / d <= b / d
  {
    var qa, qb := a / d, b / d;
    assert (qa - qb) * d == qa * d - qb * d;
    MulAtLeast(qa - qb, d);
  }

  /** Java's truncating division by a positive number is monotone. */
  lemma DivMonotone(a: int, b: int, d: int)
    requires a <= b && d > 0
    ensures Div(a, d) <= Div(b, d)
  {
    if a >= 0 {
      FloorDivMonotone(a, b, d);
    } else if b < 0 {
      FloorDivMonotone(-b, -a, d);
    }
  }

  /** The quotient `q` of a division by a positive `d` satisfies `q * d <= a < (q + 1) * d`. */
  lemma DivBounds(a: int, d: int)
    requires d > 0
    ensures a / d * d <= a < (a / d + 1) * d
  {
    assert (a / d + 1) * d == a / d * d + d;
  }
}
