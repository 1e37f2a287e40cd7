/** Shifts and bitwise operators on natural numbers, and when they are arithmetic. */
module Bits {
  import opened Wrappers
  import opened Division

  function Pow2(k: nat): (p: nat)
    ensures p > 0
  {
    if k == 0 then 1 else 2 * Pow2(k - 1)
  }

  function Or(a: nat, b: nat): nat
    decreases a + b
  {
    if a == 0 && b == 0 then 0 else 2 * Or(a / 2, b / 2) + (if a % 2 == 1 || b % 2 == 1 then 1 else 0)
  }

  function And(a: nat, b: nat): nat
    decreases a + b
  {
    if a == 0 && b == 0 then 0 else 2 * And(a / 2, b / 2) + (if a % 2 == 1 && b % 2 == 1 then 1 else 0)
  }

  /** `a << k` in 64 bits. */
  function ShiftLeft(a: u64, k: nat): u64 {
    a * Pow2(k) % WRAP
  }

  lemma {:induction false} OrZero(a: nat)
    ensures Or(a, 0) == a
  {
    if a > 0 { OrZero(a / 2); }
  }

  /** Parts that do not overlap are joined by adding them. */
  lemma {:induction false} OrIsSum(a: nat, k: nat, b: nat)
    requires b < Pow2(k)
    ensures Or(a * Pow2(k), b) == a * Pow2(k) + b
    decreases k
  {
    if k == 0 {
      OrZero(a);
    } else {
      assert a * Pow2(k) == 2 * (a * Pow2(k - 1));
      OrIsSum(a, k - 1, b / 2);
    }
  }

  lemma {:induction false} AndZero(a: nat)
    ensures And(a, 0) == 0
  {
    if a > 0 { AndZero(a / 2); }
  }

  /** A mask of `k` ones leaves the remainder. */
  lemma {:induction false} AndIsRemainder(a: nat, k: nat)
    ensures And(a, Pow2(k) - 1) == a % Pow2(k)
    decreases k
  {
    if k == 0 {
      AndZero(a);
    } else {
      AndIsRemainder(a / 2, k - 1);
      RemainderSplits(a, Pow2(k - 1));
    }
  }

  lemma RemainderSplits(a: nat, m: nat)
    requires m > 0
    ensures a % (2 * m) == 2 * (a / 2 % m) + a % 2
  {
    var q, r := a / 2 / m, a / 2 % m;
    assert a / 2 == q * m + r;
    assert a == q * (2 * m) + (2 * r + a % 2);
    DivUnique(a, 2 * m, q, 2 * r + a % 2);
    DivMod(a, 2 * m);
  }

  lemma Doubled(a: nat, b: nat)
    ensures 2 * a * b == 2 * (a * b)
  {
  }

  lemma {:induction false} PowersAdd(j: nat, k: nat)
    ensures Pow2(j + k) == Pow2(j) * Pow2(k)
  {
    if j > 0 {
      PowersAdd(j - 1, k);
      Doubled(Pow2(j - 1), Pow2(k));
    }
  }

  lemma Widths()
    ensures Pow2(10) == 1024 && Pow2(12) == 4096 && Pow2(22) == 0x40_0000 && Pow2(42) == 0x400_0000_0000
    ensures Pow2(64) == WRAP
  {
    PowersAdd(10, 2);
    PowersAdd(10, 12);
    PowersAdd(22, 20);
    PowersAdd(10, 10);
    PowersAdd(22, 42);
  }
}
