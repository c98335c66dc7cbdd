/** Exclusive-or of two's complement integers, and or of naturals, defined digit by digit. */
module Bits {
  import opened Powers

  /** Number of steps until a number is all sign bits. */
  function Size(a: int): nat { if a >= 0 then a else -a - 1 }

  function Xor(a: int, b: int): int
    decreases Size(a) + Size(b)
  {
    if (a == 0 || a == -1) && (b == 0 || b == -1) then (if a == b then 0 else -1)
    else (a + b) % 2 + 2 * Xor(a / 2, b / 2)
  }

  lemma {:induction false} Digits(r: int, x: int)
    requires 0 <= r < 2
    ensures (r + 2 * x) / 2 == x && (r + 2 * x) % 2 == r
  {
  }

  lemma {:induction false} SameDigits(a: int, b: int)
    requires a % 2 == b % 2 && a / 2 == b / 2
    ensures a == b
  {
  }

  lemma {:induction false} XorDigits(a: int, b: int)
    ensures Xor(a, b) % 2 == (a + b) % 2
    ensures Xor(a, b) / 2 == Xor(a / 2, b / 2)
  {
    if (a == 0 || a == -1) && (b == 0 || b == -1) {
      assert a / 2 == a && b / 2 == b;
    } else {
      Digits((a + b) % 2, Xor(a / 2, b / 2));
    }
  }

  lemma {:induction false} ParityTwice(a: int, b: int, x: int)
    requires x % 2 == (a + b) % 2
    ensures (a + x) % 2 == b % 2
  {
  }

  /** Applying the same mask twice undoes it. */
  lemma {:induction false} XorTwice(a: int, b: int)
    ensures Xor(a, Xor(a, b)) == b
    decreases Size(a) + Size(b)
  {
    if (a == 0 || a == -1) && (b == 0 || b == -1) {
    } else {
      XorTwice(a / 2, b / 2);
      XorDigits(a, b);
      XorDigits(a, Xor(a, b));
      ParityTwice(a, b, Xor(a, b));
      SameDigits(Xor(a, Xor(a, b)), b);
    }
  }

  lemma {:induction false} XorComm(a: int, b: int)
    ensures Xor(a, b) == Xor(b, a)
    decreases Size(a) + Size(b)
  {
    if !((a == 0 || a == -1) && (b == 0 || b == -1)) { XorComm(a / 2, b / 2); }
  }

  lemma {:induction false} XorZero(a: int)
    ensures Xor(a, 0) == a
    decreases Size(a)
  {
    if a != 0 && a != -1 { XorZero(a / 2); }
  }

  /** The result of a k-bit operation has k bits. */
  lemma {:induction false} XorFits(a: int, b: int, k: nat)
    requires 0 - Pow2(k) <= a < Pow2(k) && 0 - Pow2(k) <= b < Pow2(k)
    ensures 0 - Pow2(k) <= Xor(a, b) < Pow2(k)
    decreases k
  {
    if !((a == 0 || a == -1) && (b == 0 || b == -1)) {
      XorFits(a / 2, b / 2, k - 1);
    }
  }

  lemma {:induction false} XorNat(a: nat, b: nat)
    ensures Xor(a, b) >= 0
    decreases a + b
  {
    if a > 0 || b > 0 { XorNat(a / 2, b / 2); }
  }

  /* ---- or of numbers with no digit in common ---- */

  function Or(a: nat, b: nat): nat
    decreases a + b
  {
    if a == 0 && b == 0 then 0
    else (if a % 2 == 1 || b % 2 == 1 then 1 else 0) + 2 * Or(a / 2, b / 2)
  }

  lemma {:induction false} OrZero(b: nat)
    ensures Or(0, b) == b
    decreases b
  {
    if b > 0 { OrZero(b / 2); }
  }

  lemma {:induction false} OrDisjoint(a: nat, b: nat, k: nat, c: nat)
    requires a < Pow2(k) && b == Pow2(k) * c
    ensures Or(a, b) == a + b
    decreases k
  {
    if k == 0 {
      OrZero(b);
    } else if a > 0 || b > 0 {
      assert b == 2 * (Pow2(k - 1) * c) by { assert (2 * Pow2(k - 1)) * c == 2 * (Pow2(k - 1) * c); }
      OrDisjoint(a / 2, b / 2, k - 1, c);
    }
  }
}
