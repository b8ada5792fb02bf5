/** Python's integer bit operators, restricted to non-negative operands,
    and the facts about single bits that the driver's register updates rely on. */
module Bits {

  /** A value a one-byte register can hold. */
  type Byte = x: int | 0 <= x < 256

  /** `1 << n` */
  function Pow2(n: nat): (r: nat)
    ensures r > 0
  {
    if n == 0 then 1 else 2 * Pow2(n - 1)
  }

  /** Bit `i` of `x`, bit 0 being the least significant. */
  function Bit(x: nat, i: nat): (b: nat)
    ensures b < 2
  {
    if i == 0 then x % 2 else Bit(x / 2, i - 1)
  }

  /** `a & b` */
  function And(a: nat, b: nat): (r: nat)
    ensures r <= a && r <= b
  {
    if a == 0 || b == 0 then 0
    else 2 * And(a / 2, b / 2) + (if a % 2 == 1 && b % 2 == 1 then 1 else 0)
  }

  /** `a & ~b`: the bits of `a` that are clear in `b`. */
  function AndNot(a: nat, b: nat): (r: nat)
    ensures r <= a
  {
    if a == 0 then 0
    else 2 * AndNot(a / 2, b / 2) + (if a % 2 == 1 && b % 2 == 0 then 1 else 0)
  }

  /** `a | b` */
  function Or(a: nat, b: nat): (r: nat)
    ensures r >= a && r >= b
    decreases a + b
  {
    if a == 0 && b == 0 then 0
    else 2 * Or(a / 2, b / 2) + (if a % 2 == 1 || b % 2 == 1 then 1 else 0)
  }

  lemma Pow2Byte()
    ensures Pow2(8) == 256
  {
  }

  lemma {:induction false} BitOfZero(i: nat)
    ensures Bit(0, i) == 0
  {
    if i > 0 {
      BitOfZero(i - 1);
    }
  }

  /** Bit `i` of `1 << p` is set exactly when `i == p`. */
  lemma {:induction false} BitOfPow2(p: nat, i: nat)
    ensures Bit(Pow2(p), i) == if i == p then 1 else 0
  {
    if p == 0 {
      if i > 0 {
        BitOfZero(i - 1);
      }
    } else if i > 0 {
      assert Pow2(p) / 2 == Pow2(p - 1);
      BitOfPow2(p - 1, i - 1);
    }
  }

  lemma {:induction false} BitOfAndNot(a: nat, b: nat, i: nat)
    ensures Bit(AndNot(a, b), i) == if Bit(a, i) == 1 && Bit(b, i) == 0 then 1 else 0
  {
    if a == 0 {
      BitOfZero(i);
    } else if i > 0 {
      BitOfAndNot(a / 2, b / 2, i - 1);
    }
  }

  lemma {:induction false} BitOfOr(a: nat, b: nat, i: nat)
    ensures Bit(Or(a, b), i) == if Bit(a, i) == 1 || Bit(b, i) == 1 then 1 else 0
    decreases a + b
  {
    if a == 0 && b == 0 {
      BitOfZero(i);
    } else if i > 0 {
      BitOfOr(a / 2, b / 2, i - 1);
    }
  }

  /** Masking with `1 << p` keeps bit `p` in place and nothing else. */
  lemma {:induction false} AndPow2(a: nat, p: nat)
    ensures And(a, Pow2(p)) == Bit(a, p) * Pow2(p)
  {
    if a == 0 {
      BitOfZero(p);
    } else if p == 0 {
      assert And(a / 2, 0) == 0;
    } else {
      assert Pow2(p) % 2 == 0 && Pow2(p) / 2 == Pow2(p - 1);
      AndPow2(a / 2, p - 1);
      if Bit(a, p) == 0 {
        assert And(a, Pow2(p)) == 0;
      } else {
        assert And(a, Pow2(p)) == 2 * Pow2(p - 1);
      }
    }
  }

  /** `a | b` of two n-bit numbers is an n-bit number. */
  lemma {:induction false} OrBelow(a: nat, b: nat, n: nat)
    requires a < Pow2(n) && b < Pow2(n)
    ensures Or(a, b) < Pow2(n)
  {
    if n > 0 && !(a == 0 && b == 0) {
      OrBelow(a / 2, b / 2, n - 1);
    }
  }

  /** An n-bit number is determined by its n low bits. */
  lemma {:induction false} BitsDetermine(a: nat, b: nat, n: nat)
    requires a < Pow2(n) && b < Pow2(n)
    requires forall i :: 0 <= i < n ==> Bit(a, i) == Bit(b, i)
    ensures a == b
  {
    if n > 0 {
      assert Bit(a, 0) == Bit(b, 0);
      forall i | 0 <= i < n - 1
        ensures Bit(a / 2, i) == Bit(b / 2, i)
      {
        assert Bit(a, i + 1) == Bit(b, i + 1);
      }
      BitsDetermine(a / 2, b / 2, n - 1);
    }
  }

  /** Two bytes with the same eight bits are equal. */
  lemma ByteBitsDetermine(a: Byte, b: Byte)
    requires forall i :: 0 <= i < 8 ==> Bit(a, i) == Bit(b, i)
    ensures a == b
  {
    Pow2Byte();
    BitsDetermine(a, b, 8);
  }
}
