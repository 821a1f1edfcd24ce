/** C integer semantics the driver relies on: 16-bit register words, the
    `uint16_t` truncation applied to every written value, and C's division,
    which truncates toward zero where Dafny's `/` is Euclidean. */
module CInt {

  /** A 16-bit register word (`uint16_t`). */
  type Word16 = x: int | 0 <= x < 0x1_0000

  function Abs(x: int): (r: nat)
    ensures r == x || r == -x
  {
    if x < 0 then -x else x
  }

  function Min(a: int, b: int): int { if a <= b then a else b }

  function Max(a: int, b: int): int { if a <= b then b else a }

  /** The conversion to `uint16_t` that a write applies to its value: the
      low 16 bits in two's complement. Dafny's `%` never returns a negative
      remainder, which is exactly that reduction for negative values too. */
  function U16(x: int): (w: Word16)
    ensures 0 <= x < 0x1_0000 ==> w == x
    ensures (x - w) % 0x1_0000 == 0
  {
    x % 0x1_0000
  }

  /** C's `a / b` on signed integers: the quotient truncated toward zero.
      Its magnitude is the quotient of the magnitudes and its sign is the
      product of the operands' signs. */
  function TDiv(a: int, b: int): (q: int)
    requires b != 0
    ensures Abs(q) == Abs(a) / Abs(b)
    ensures q > 0 ==> ((a > 0) == (b > 0))
    ensures q < 0 ==> ((a > 0) != (b > 0))
  {
    var m := Abs(a) / Abs(b);
    DivOfNonNegative(Abs(a), Abs(b));
    if (a >= 0) == (b > 0) then m else -m
  }

  lemma DivOfNonNegative(x: int, y: int)
    requires x >= 0 && y > 0
    ensures 0 <= x / y
    ensures x / y > 0 ==> x >= y
  {
  }

  /** On a non-negative dividend and a positive divisor, C's division and
      Dafny's agree; the driver's unsigned arithmetic is of that kind. */
  lemma TDivNonNegative(a: int, b: int)
    requires a >= 0 && b > 0
    ensures TDiv(a, b) == a / b
  {
  }

  /** Dividing a multiple of ten by ten gives the factor back. */
  lemma TDivTenExact(q: int)
    requires q >= 0
    ensures TDiv(q * 10, 10) == q
  {
    TDivNonNegative(q * 10, 10);
  }

  /** `*` by a non-negative factor keeps order. */
  lemma MulMonotone(x: int, y: int, c: int)
    requires x <= y && c >= 0
    ensures x * c <= y * c
  {
    assert y * c - x * c == (y - x) * c;
  }

  /** Euclidean division by a positive divisor keeps order on
      non-negative operands. */
  lemma DivMonotone(a: int, b: int, d: int)
    requires 0 <= a <= b && d > 0
    ensures a / d <= b / d
  {
    if a / d > b / d {
      MulMonotone(b / d + 1, a / d, d);
    }
  }

  /** C's division by a positive divisor keeps order. */
  lemma TDivMonotone(a: int, b: int, d: int)
    requires a <= b && d > 0
    ensures TDiv(a, d) <= TDiv(b, d)
  {
    if 0 <= a {
      DivMonotone(a, b, d);
      TDivNonNegative(a, d);
      TDivNonNegative(b, d);
    } else if b < 0 {
      DivMonotone(-b, -a, d);
      assert TDiv(a, d) == -((-a) / d);
      assert TDiv(b, d) == -((-b) / d);
    } else {
      assert TDiv(a, d) <= 0 <= TDiv(b, d);
    }
  }
}
