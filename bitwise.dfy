/**
 Python's `|` on non-negative integers, defined digit by digit in base 2, with
 the facts the column masks rely on: a bit of `a | b` is set exactly when it is
 set in `a` or in `b`, and a number is determined by its bits.
 */
module Bitwise {

  /** Bit `k` of `n`, counting from the least significant bit. */
  function Bit(n: nat, k: nat): bool
    decreases k
  {
    if k == 0 then n % 2 == 1 else Bit(n / 2, k - 1)
  }

  /** Bitwise OR of two non-negative integers. */
  function Or(a: nat, b: nat): nat
    decreases a + b
  {
    if a == 0 then b
    else if b == 0 then a
    else 2 * Or(a / 2, b / 2) + (if a % 2 == 1 || b % 2 == 1 then 1 else 0)
  }

  lemma {:induction false} BitOfZero(k: nat)
    ensures !Bit(0, k)
  {
    if k > 0 {
      BitOfZero(k - 1);
    }
  }

  /** `Or` is the bitwise OR: each bit of the result is the disjunction of the operands' bits. */
  lemma {:induction false} OrBit(a: nat, b: nat, k: nat)
    ensures Bit(Or(a, b), k) == (Bit(a, k) || Bit(b, k))
    decreases a + b
  {
    if a == 0 {
      BitOfZero(k);
    } else if b == 0 {
      BitOfZero(k);
    } else if k > 0 {
      var c := if a % 2 == 1 || b % 2 == 1 then 1 else 0;
      assert Or(a, b) == 2 * Or(a / 2, b / 2) + c;
      assert Or(a, b) / 2 == Or(a / 2, b / 2);
      OrBit(a / 2, b / 2, k - 1);
    }
  }

  /** Two numbers with the same bits are equal. */
  lemma {:induction false} BitsDetermine(a: nat, b: nat)
    requires forall k: nat :: Bit(a, k) == Bit(b, k)
    ensures a == b
    decreases a + b
  {
    assert Bit(a, 0) == Bit(b, 0);
    if a + b > 0 {
      forall k: nat
        ensures Bit(a / 2, k) == Bit(b / 2, k)
      {
        assert Bit(a, k + 1) == Bit(b, k + 1);
      }
      BitsDetermine(a / 2, b / 2);
    }
  }

  /** OR is commutative, associative and idempotent, and 0 is its unit. */
  lemma OrLaws(a: nat, b: nat, c: nat)
    ensures Or(a, b) == Or(b, a)
    ensures Or(Or(a, b), c) == Or(a, Or(b, c))
    ensures Or(a, a) == a
    ensures Or(a, 0) == a && Or(0, a) == a
  {
    forall k: nat
      ensures Bit(Or(a, b), k) == Bit(Or(b, a), k)
      ensures Bit(Or(Or(a, b), c), k) == Bit(Or(a, Or(b, c)), k)
      ensures Bit(Or(a, a), k) == Bit(a, k)
    {
      OrBit(a, b, k);
      OrBit(b, a, k);
      OrBit(Or(a, b), c, k);
      OrBit(b, c, k);
      OrBit(a, Or(b, c), k);
      OrBit(a, a, k);
    }
    BitsDetermine(Or(a, b), Or(b, a));
    BitsDetermine(Or(Or(a, b), c), Or(a, Or(b, c)));
    BitsDetermine(Or(a, a), a);
  }
}
