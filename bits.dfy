/** The unsigned bit operations the chunk logic uses (`&`, `|`, `>>`, `1 << k`),
    defined on unbounded naturals through their binary digits. */
module Bits {
  import opened Common

  /** Bit k of x, that is `(x >> k) & 1`. */
  function TestBit(x: nat, k: nat): bool {
    if k == 0 then x % 2 == 1 else TestBit(x / 2, k - 1)
  }

  /** `x >> k` */
  function ShiftRight(x: nat, k: nat): nat {
    if k == 0 then x else ShiftRight(x / 2, k - 1)
  }

  /** `a | b` */
  function BitOr(a: nat, b: nat): nat
    decreases a + b
  {
    if a == 0 && b == 0 then 0
    else 2 * BitOr(a / 2, b / 2) + (if a % 2 == 1 || b % 2 == 1 then 1 else 0)
  }

  /** `a & b` */
  function BitAnd(a: nat, b: nat): nat
    decreases a + b
  {
    if a == 0 && b == 0 then 0
    else 2 * BitAnd(a / 2, b / 2) + (if a % 2 == 1 && b % 2 == 1 then 1 else 0)
  }

  lemma {:induction false} ZeroHasNoBits(k: nat)
    ensures !TestBit(0, k)
  {
    if k > 0 {
      ZeroHasNoBits(k - 1);
    }
  }

  lemma {:induction false} ShiftRightBit(x: nat, s: nat, k: nat)
    ensures TestBit(ShiftRight(x, s), k) == TestBit(x, k + s)
  {
    if s > 0 {
      ShiftRightBit(x / 2, s - 1, k);
      assert TestBit(x, k + s) == TestBit(x / 2, k + s - 1);
    }
  }

  lemma {:induction false} Pow2Bit(j: nat, k: nat)
    ensures TestBit(Pow2(j), k) == (j == k)
  {
    if j == 0 {
      if k > 0 {
        ZeroHasNoBits(k - 1);
      }
    } else if k > 0 {
      Pow2Bit(j - 1, k - 1);
    }
  }

  lemma {:induction false} BitOrBit(a: nat, b: nat, k: nat)
    ensures TestBit(BitOr(a, b), k) == (TestBit(a, k) || TestBit(b, k))
    decreases k
  {
    if a == 0 && b == 0 {
      ZeroHasNoBits(k);
    } else if k > 0 {
      assert BitOr(a, b) / 2 == BitOr(a / 2, b / 2);
      BitOrBit(a / 2, b / 2, k - 1);
    }
  }

  lemma {:induction false} BitAndBit(a: nat, b: nat, k: nat)
    ensures TestBit(BitAnd(a, b), k) == (TestBit(a, k) && TestBit(b, k))
    decreases k
  {
    if a == 0 && b == 0 {
      ZeroHasNoBits(k);
    } else if k > 0 {
      assert BitAnd(a, b) / 2 == BitAnd(a / 2, b / 2);
      BitAndBit(a / 2, b / 2, k - 1);
    }
  }

  /** Two numbers with the same bits are equal. */
  lemma {:induction false} SameBitsEqual(a: nat, b: nat)
    requires forall k: nat :: TestBit(a, k) == TestBit(b, k)
    ensures a == b
    decreases a + b
  {
    if a != 0 || b != 0 {
      assert TestBit(a, 0) == TestBit(b, 0);
      forall k: nat
        ensures TestBit(a / 2, k) == TestBit(b / 2, k)
      {
        assert TestBit(a, k + 1) == TestBit(b, k + 1);
      }
      SameBitsEqual(a / 2, b / 2);
    }
  }

  /** Every bit set in m is also set in x. */
  ghost predicate BitsWithin(m: nat, x: nat) {
    forall k: nat :: TestBit(m, k) ==> TestBit(x, k)
  }

  /** The k low bits of i are all set. */
  ghost predicate LowBitsSet(i: nat, k: nat) {
    forall j: nat :: j < k ==> TestBit(i, j)
  }

  /** `(x & m) == m` holds exactly when every bit set in m is set in x. */
  lemma CoversMask(x: nat, m: nat)
    ensures BitAnd(x, m) == m <==> BitsWithin(m, x)
  {
    if BitAnd(x, m) == m {
      forall k: nat | TestBit(m, k)
        ensures TestBit(x, k)
      {
        BitAndBit(x, m, k);
      }
    } else if BitsWithin(m, x) {
      forall k: nat
        ensures TestBit(BitAnd(x, m), k) == TestBit(m, k)
      {
        BitAndBit(x, m, k);
      }
      SameBitsEqual(BitAnd(x, m), m);
      assert false;
    }
  }

  /** Below 2^k a number is determined by its k low bits. */
  lemma {:induction false} LowBitsDetermine(a: nat, b: nat, k: nat)
    requires a < Pow2(k) && b < Pow2(k)
    requires forall j: nat :: j < k ==> TestBit(a, j) == TestBit(b, j)
    ensures a == b
  {
    if k > 0 {
      assert TestBit(a, 0) == TestBit(b, 0);
      forall j: nat | j < k - 1
        ensures TestBit(a / 2, j) == TestBit(b / 2, j)
      {
        assert TestBit(a, j + 1) == TestBit(b, j + 1);
      }
      LowBitsDetermine(a / 2, b / 2, k - 1);
    }
  }

  /** Among the numbers below 2^k only 2^k - 1 has all its k low bits set. */
  lemma {:induction false} AllOnesBelow(i: nat, k: nat)
    requires i < Pow2(k)
    ensures LowBitsSet(i, k) <==> i == Pow2(k) - 1
  {
    if k > 0 {
      AllOnesBelow(i / 2, k - 1);
      if LowBitsSet(i, k) {
        assert TestBit(i, 0);
        forall j: nat | j < k - 1
          ensures TestBit(i / 2, j)
        {
          assert TestBit(i, j + 1);
        }
      }
      if i == Pow2(k) - 1 {
        assert i / 2 == Pow2(k - 1) - 1 && i % 2 == 1;
        forall j: nat | j < k
          ensures TestBit(i, j)
        {
          if j > 0 {
            assert TestBit(i, j) == TestBit(i / 2, j - 1);
          }
        }
      }
    }
  }
}
