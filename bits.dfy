/** Bitwise `|` and `&` on non-negative integers, defined bit by bit, with
    the facts the register words need: each bit of `a | b` is the
    disjunction of the operands' bits, and a 16-bit operand pair gives a
    16-bit result. */
module Bits {
  import opened CInt

  function Pow2(n: nat): (p: nat)
    ensures p >= 1
  {
    if n == 0 then 1 else 2 * Pow2(n - 1)
  }

  /** Bit `i` of `x`. */
  predicate Bit(x: nat, i: nat)
  {
    if i == 0 then x % 2 == 1 else Bit(x / 2, i - 1)
  }

  function Or(a: nat, b: nat): nat
    decreases a + b
  {
    if a == 0 && b == 0 then 0
    else 2 * Or(a / 2, b / 2) + (if a % 2 == 1 || b % 2 == 1 then 1 else 0)
  }

  function And(a: nat, b: nat): nat
    decreases a + b
  {
    if a == 0 || b == 0 then 0
    else 2 * And(a / 2, b / 2) + (if a % 2 == 1 && b % 2 == 1 then 1 else 0)
  }

  lemma {:induction false} OrBit(a: nat, b: nat, i: nat)
    ensures Bit(Or(a, b), i) <==> Bit(a, i) || Bit(b, i)
    decreases i
  {
    if a == 0 && b == 0 {
      ZeroHasNoBits(i);
    } else if i > 0 {
      OrBit(a / 2, b / 2, i - 1);
    }
  }

  lemma {:induction false} AndBit(a: nat, b: nat, i: nat)
    ensures Bit(And(a, b), i) <==> Bit(a, i) && Bit(b, i)
    decreases i
  {
    if a == 0 || b == 0 {
      ZeroHasNoBits(i);
    } else if i > 0 {
      AndBit(a / 2, b / 2, i - 1);
    }
  }

  lemma {:induction false} ZeroHasNoBits(i: nat)
    ensures !Bit(0, i)
  {
    if i > 0 {
      ZeroHasNoBits(i - 1);
    }
  }

  /** `Pow2(p)` is the mask whose only bit is bit `p`. */
  lemma {:induction false} Pow2Bit(p: nat, i: nat)
    ensures Bit(Pow2(p), i) <==> i == p
    decreases i
  {
    if i == 0 {
      if p > 0 {
        assert Pow2(p) == 2 * Pow2(p - 1);
      }
    } else if p == 0 {
      ZeroHasNoBits(i - 1);
    } else {
      assert Pow2(p) / 2 == Pow2(p - 1);
      Pow2Bit(p - 1, i - 1);
    }
  }

  /** A non-zero value has a set bit. */
  lemma {:induction false} NonZeroHasBit(x: nat) returns (i: nat)
    requires x > 0
    ensures Bit(x, i)
    decreases x
  {
    if x % 2 == 1 {
      i := 0;
    } else {
      var j := NonZeroHasBit(x / 2);
      i := j + 1;
    }
  }

  lemma {:induction false} OrBound(a: nat, b: nat, n: nat)
    requires a < Pow2(n) && b < Pow2(n)
    ensures Or(a, b) < Pow2(n)
    decreases n
  {
    if n > 0 && !(a == 0 && b == 0) {
      OrBound(a / 2, b / 2, n - 1);
    }
  }

  lemma {:induction false} AndBelow(a: nat, b: nat)
    ensures And(a, b) <= a
    decreases a + b
  {
    if a != 0 && b != 0 {
      AndBelow(a / 2, b / 2);
    }
  }

  lemma Pow2Of16()
    ensures Pow2(16) == 0x1_0000
  {
    assert Pow2(4) == 16;
    assert Pow2(8) == 256 by {
      assert Pow2(8) == 2 * 2 * 2 * 2 * Pow2(4);
    }
    assert Pow2(12) == 4096 by {
      assert Pow2(12) == 2 * 2 * 2 * 2 * Pow2(8);
    }
    assert Pow2(16) == 2 * 2 * 2 * 2 * Pow2(12);
  }

  /** `|` of two register words. */
  function Or16(a: Word16, b: Word16): (r: Word16)
    ensures forall i: nat :: Bit(r, i) <==> Bit(a, i) || Bit(b, i)
  {
    Pow2Of16();
    OrBound(a, b, 16);
    forall i: nat ensures Bit(Or(a, b), i) <==> Bit(a, i) || Bit(b, i) {
      OrBit(a, b, i);
    }
    Or(a, b)
  }

  /** `&` of two register words. */
  function And16(a: Word16, b: Word16): (r: Word16)
    ensures forall i: nat :: Bit(r, i) <==> Bit(a, i) && Bit(b, i)
  {
    AndBelow(a, b);
    forall i: nat ensures Bit(And(a, b), i) <==> Bit(a, i) && Bit(b, i) {
      AndBit(a, b, i);
    }
    And(a, b)
  }
}
