/** Python's bitwise operators on non-negative ints, defined bit by bit from
  * the low end: the lowest bit of the result is computed from the lowest
  * bits of the operands, and the rest from the operands shifted right by
  * one. */
module Bits {
  function Pow2(k: nat): (p: nat)
    ensures p >= 1
  {
    if k == 0 then 1 else 2 * Pow2(k - 1)
  }

  /** `a ^ b` */
  function Xor(a: nat, b: nat): nat
    decreases a + b
  {
    if a == 0 then b
    else if b == 0 then a
    else 2 * Xor(a / 2, b / 2) + (a + b) % 2
  }

  /** `a & b` */
  function And(a: nat, b: nat): nat
    decreases a + b
  {
    if a == 0 || b == 0 then 0
    else 2 * And(a / 2, b / 2) + (if a % 2 == 1 && b % 2 == 1 then 1 else 0)
  }

  /** `a | b` */
  function Or(a: nat, b: nat): nat
    decreases a + b
  {
    if a == 0 then b
    else if b == 0 then a
    else 2 * Or(a / 2, b / 2) + (if a % 2 == 1 || b % 2 == 1 then 1 else 0)
  }

  /** `a << k` */
  function ShiftLeft(a: nat, k: nat): nat
  {
    if k == 0 then a else 2 * ShiftLeft(a, k - 1)
  }

  /** `a >> k` */
  function ShiftRight(a: nat, k: nat): nat
  {
    if k == 0 then a else ShiftRight(a / 2, k - 1)
  }

  /** Bit `i` of `a`, counting from the least significant bit. */
  predicate BitSet(a: nat, i: nat)
  {
    if i == 0 then a % 2 == 1 else BitSet(a / 2, i - 1)
  }

  lemma {:induction false} ShiftLeftIsMul(a: nat, k: nat)
    ensures ShiftLeft(a, k) == a * Pow2(k)
  {
    if k > 0 {
      ShiftLeftIsMul(a, k - 1);
      assert a * Pow2(k) == 2 * (a * Pow2(k - 1));
    }
  }

  /** Two numbers below 2^k have their exclusive or below 2^k. */
  lemma {:induction false} XorBound(a: nat, b: nat, k: nat)
    requires a < Pow2(k) && b < Pow2(k)
    ensures Xor(a, b) < Pow2(k)
    decreases k
  {
    if a != 0 && b != 0 {
      XorBound(a / 2, b / 2, k - 1);
    }
  }

  lemma XorByte(a: nat, b: nat)
    requires a < 256 && b < 256
    ensures Xor(a, b) < 256
  {
    XorBound(a, b, 8);
  }

  /** `a ^ b` is 0 exactly when the operands are equal. */
  lemma {:induction false} XorZero(a: nat, b: nat)
    ensures Xor(a, b) == 0 <==> a == b
    decreases a + b
  {
    if a != 0 && b != 0 {
      XorZero(a / 2, b / 2);
    }
  }

  lemma {:induction false} AndBound(a: nat, b: nat)
    ensures And(a, b) <= b
    decreases a + b
  {
    if a != 0 && b != 0 {
      AndBound(a / 2, b / 2);
    }
  }

  /** Or-ing a number below 2^k into a number shifted left by k adds them:
    * their bits do not overlap. */
  lemma {:induction false} OrDisjoint(h: nat, l: nat, k: nat)
    requires l < Pow2(k)
    ensures Or(ShiftLeft(h, k), l) == ShiftLeft(h, k) + l
    decreases k
  {
    if k > 0 && ShiftLeft(h, k) != 0 && l != 0 {
      OrDisjoint(h, l / 2, k - 1);
    }
  }

  /** `hi << 8 | lo` for a byte `lo` is `hi * 256 + lo`. */
  lemma JoinByte(hi: nat, lo: nat)
    requires lo < 256
    ensures Or(ShiftLeft(hi, 8), lo) == hi * 256 + lo
  {
    OrDisjoint(hi, lo, 8);
    ShiftLeftIsMul(hi, 8);
    assert Pow2(8) == 256;
  }

  /** A number splits into its bits above k, shifted back into place, and
    * its low k bits selected with the mask 2^k - 1. */
  lemma {:induction false} SplitAt(a: nat, k: nat)
    ensures ShiftLeft(ShiftRight(a, k), k) + And(a, Pow2(k) - 1) == a
    decreases k
  {
    if k > 0 {
      SplitAt(a / 2, k - 1);
      ShiftAfterHalving(a / 2, k - 1);
    }
  }

  /** Shifting a halved number left by k + 1 is shifting it left by k and
    * doubling. */
  lemma {:induction false} ShiftAfterHalving(a: nat, k: nat)
    ensures ShiftLeft(ShiftRight(a, k), k + 1) == 2 * ShiftLeft(ShiftRight(a, k), k)
  {
  }

  // The meaning of each operator, bit by bit, as Python documents it.

  lemma {:induction false} NoBitsOfZero(i: nat)
    ensures !BitSet(0, i)
  {
    if i > 0 {
      NoBitsOfZero(i - 1);
    }
  }

  /** Bit i of `a ^ b` is set when it is set in exactly one operand. */
  lemma {:induction false} XorBit(a: nat, b: nat, i: nat)
    ensures BitSet(Xor(a, b), i) <==> BitSet(a, i) != BitSet(b, i)
    decreases i
  {
    if a == 0 || b == 0 {
      NoBitsOfZero(i);
    } else if i == 0 {
      XorHalves(a, b);
    } else {
      var x := Xor(a, b);
      XorHalves(a, b);
      assert BitSet(x, i) == BitSet(x / 2, i - 1);
      XorBit(a / 2, b / 2, i - 1);
    }
  }

  /** The lowest bit of `a ^ b` is set when exactly one operand has it, and
    * the bits above it are those of the halves' xor. */
  lemma XorHalves(a: nat, b: nat)
    requires a != 0 && b != 0
    ensures Xor(a, b) / 2 == Xor(a / 2, b / 2)
    ensures Xor(a, b) % 2 == 1 <==> (a % 2 == 1) != (b % 2 == 1)
  {
    var y := Xor(a / 2, b / 2);
    assert Xor(a, b) == 2 * y + (a + b) % 2;
    DoubledPlusParity(y, a, b);
  }

  lemma DoubledPlusParity(y: nat, a: nat, b: nat)
    ensures (2 * y + (a + b) % 2) / 2 == y
    ensures (2 * y + (a + b) % 2) % 2 == 1 <==> (a % 2 == 1) != (b % 2 == 1)
  {
  }

  /** Bit i of `a & b` is set when it is set in both operands. */
  lemma {:induction false} AndBit(a: nat, b: nat, i: nat)
    ensures BitSet(And(a, b), i) <==> BitSet(a, i) && BitSet(b, i)
    decreases i
  {
    if a == 0 || b == 0 {
      NoBitsOfZero(i);
    } else if i > 0 {
      AndBit(a / 2, b / 2, i - 1);
    }
  }

  /** Bit i of `a | b` is set when it is set in either operand. */
  lemma {:induction false} OrBit(a: nat, b: nat, i: nat)
    ensures BitSet(Or(a, b), i) <==> BitSet(a, i) || BitSet(b, i)
    decreases i
  {
    if a == 0 || b == 0 {
      NoBitsOfZero(i);
    } else if i > 0 {
      OrBit(a / 2, b / 2, i - 1);
    }
  }

  /** Bit i of `a << k` is bit i - k of `a`, and the k lowest bits are clear. */
  lemma {:induction false} ShiftLeftBit(a: nat, k: nat, i: nat)
    ensures BitSet(ShiftLeft(a, k), i) <==> k <= i && BitSet(a, i - k)
    decreases k
  {
    if k > 0 && i > 0 {
      ShiftLeftBit(a, k - 1, i - 1);
    }
  }

  /** Bit i of `a >> k` is bit i + k of `a`. */
  lemma {:induction false} ShiftRightBit(a: nat, k: nat, i: nat)
    ensures BitSet(ShiftRight(a, k), i) <==> BitSet(a, i + k)
    decreases k
  {
    if k > 0 {
      ShiftRightBit(a / 2, k - 1, i);
    }
  }

  /** Python's single-bit test `a & (1 << i) != 0` is bit `i` of `a`. */
  lemma {:induction false} AndSingleBit(a: nat, i: nat)
    ensures And(a, ShiftLeft(1, i)) != 0 <==> BitSet(a, i)
    decreases i
  {
    if i > 0 {
      AndSingleBit(a / 2, i - 1);
      assert ShiftLeft(1, i) / 2 == ShiftLeft(1, i - 1);
    }
  }
}
