/** The checksum of components/lfs/lfs_util.c: a CRC-32 that takes four bits at a time from a table, against the
    one that takes one bit at a time and has no table. Words are naturals below 2^32. */
module Crc {
  import opened Powers
  import opened Bytes
  import Bits

  const POLY: nat := 0xedb88320

  type uint32 = n: nat | n < 0x1_0000_0000

  /** Exclusive-or of words. */
  function Xor(a: nat, b: nat): nat {
    Bits.XorNat(a, b);
    Bits.Xor(a, b)
  }

  /* ---- laws of exclusive-or, for a name of it that does not expand in proofs ---- */

  type Op = (nat, nat) -> nat

  ghost predicate IsXor(x: Op) {
    forall a, b {:trigger Xor(a, b)} :: x(a, b) == Xor(a, b)
  }

  lemma {:induction false} XorDigits(x: Op, a: nat, b: nat)
    requires IsXor(x)
    ensures x(a, b) % 2 == (a + b) % 2 && x(a, b) / 2 == x(a / 2, b / 2)
  {
    assert x(a, b) == Xor(a, b) && x(a / 2, b / 2) == Xor(a / 2, b / 2);
    Bits.XorDigits(a, b);
  }

  lemma {:induction false} XorZero(x: Op, a: nat)
    requires IsXor(x)
    ensures x(a, 0) == a && x(0, a) == a
  {
    assert x(a, 0) == Xor(a, 0) && x(0, a) == Xor(0, a);
    Bits.XorZero(a);
    Bits.XorComm(a, 0);
  }

  lemma {:induction false} XorComm(x: Op, a: nat, b: nat)
    requires IsXor(x)
    ensures x(a, b) == x(b, a)
    decreases a
  {
    if a == 0 {
      XorZero(x, b);
    } else {
      XorComm(x, a / 2, b / 2);
      XorDigits(x, a, b);
      XorDigits(x, b, a);
      Bits.SameDigits(x(a, b), x(b, a));
    }
  }

  lemma {:induction false} Parity(a: nat, b: nat, c: nat, ab: nat, bc: nat)
    requires bc % 2 == (b + c) % 2 && ab % 2 == (a + b) % 2
    ensures (a + bc) % 2 == (ab + c) % 2
  {
  }

  lemma {:induction false} XorAssoc(x: Op, a: nat, b: nat, c: nat)
    requires IsXor(x)
    ensures x(a, x(b, c)) == x(x(a, b), c)
    decreases a
  {
    if a == 0 {
      XorZero(x, b);
      XorZero(x, x(b, c));
    } else {
      var ab, bc := x(a, b), x(b, c);
      XorAssoc(x, a / 2, b / 2, c / 2);
      XorDigits(x, b, c);
      XorDigits(x, a, b);
      XorDigits(x, a, bc);
      XorDigits(x, ab, c);
      Parity(a, b, c, ab, bc);
      Bits.SameDigits(x(a, bc), x(ab, c));
    }
  }

  lemma {:induction false} XorSelf(x: Op, a: nat)
    requires IsXor(x)
    ensures x(a, a) == 0
    decreases a
  {
    if a == 0 {
      XorZero(x, a);
    } else {
      XorSelf(x, a / 2);
      XorDigits(x, a, a);
      Bits.SameDigits(x(a, a), 0);
    }
  }

  /** Exclusive-or with the same word is undone by it. */
  lemma {:induction false} XorCancel(x: Op, a: nat, b: nat, d: nat)
    requires IsXor(x) && x(a, d) == x(b, d)
    ensures a == b
  {
    XorAssoc(x, a, d, d);
    XorAssoc(x, b, d, d);
    XorSelf(x, d);
    XorZero(x, a);
    XorZero(x, b);
  }

  /** (a+b) + (c+d) = (a+c) + (b+d), writing + for exclusive-or. */
  lemma {:induction false} XorSwap(x: Op, a: nat, b: nat, c: nat, d: nat)
    requires IsXor(x)
    ensures x(x(a, b), x(c, d)) == x(x(a, c), x(b, d))
  {
    XorAssoc(x, a, b, x(c, d));
    XorAssoc(x, b, c, d);
    XorComm(x, b, c);
    XorAssoc(x, c, b, d);
    XorAssoc(x, a, c, x(b, d));
  }

  /** Numbers without a digit in common: 2h + 2u + t from h + u. */
  lemma {:induction false} XorDouble(x: Op, h: nat, u: nat, t: nat, a: nat, b: nat)
    requires IsXor(x) && x(h, u) == h + u && t < 2 && a == 2 * h && b == 2 * u + t
    ensures x(a, b) == a + b
  {
    XorDigits(x, a, b);
    assert a / 2 == h && b / 2 == u;
    assert (a + b) / 2 == h + u;
    Bits.SameDigits(x(a, b), a + b);
  }

  lemma {:induction false} XorNibble(x: Op, h: nat, t: nat)
    requires IsXor(x) && t < 16
    ensures x(16 * h, t) == 16 * h + t
  {
    var t1 := t / 2;
    var t2 := t1 / 2;
    var t3 := t2 / 2;
    XorZero(x, h);
    XorDouble(x, h, 0, t3, 2 * h, t3);
    XorDouble(x, 2 * h, t3, t2 % 2, 4 * h, t2);
    XorDouble(x, 4 * h, t2, t1 % 2, 8 * h, t1);
    XorDouble(x, 8 * h, t1, t % 2, 16 * h, t);
  }

  /* ---- the reference ---- */

  function Feedback(bit: nat): nat { if bit == 1 then POLY else 0 }

  /** One tick of the shift register. */
  function BitStep(c: nat): nat { Xor(c / 2, Feedback(c % 2)) }

  function Iter<T>(f: T -> T, c: T, n: nat): T
    decreases n
  {
    if n == 0 then c else Iter(f, f(c), n - 1)
  }

  /** Eight ticks with a byte, least significant bit first. */
  function ByteTicks(c: nat, b: byte): nat { Iter(BitStep, Xor(c, b), 8) }

  type Ticks = (nat, byte) -> nat

  function ByteOp(): Ticks { (c: nat, b: byte) => ByteTicks(c, b) }

  function Fold(g: Ticks, c: nat, data: seq<byte>): nat
    decreases |data|
  {
    if |data| == 0 then c else Fold(g, g(c, data[0]), data[1..])
  }

  /** The register after some bytes. */
  function Crc(c: nat, data: seq<byte>): nat { Fold(ByteOp(), c, data) }

  /* ---- the register is linear ---- */

  ghost predicate IsStep(f: nat -> nat) {
    forall c {:trigger BitStep(c)} :: f(c) == BitStep(c)
  }

  lemma {:induction false} StepIs(x: Op, f: nat -> nat, c: nat)
    requires IsXor(x) && IsStep(f)
    ensures f(c) == x(c / 2, Feedback(c % 2))
  {
    assert f(c) == BitStep(c);
  }

  lemma {:induction false} FeedbackLinear(x: Op, a: nat, b: nat)
    requires IsXor(x) && a < 2 && b < 2
    ensures Feedback((a + b) % 2) == x(Feedback(a), Feedback(b))
  {
    XorSelf(x, Feedback(a));
    XorZero(x, Feedback(a));
    XorZero(x, Feedback(b));
  }

  lemma {:induction false} StepLinear(x: Op, f: nat -> nat, a: nat, b: nat)
    requires IsXor(x) && IsStep(f)
    ensures f(x(a, b)) == x(f(a), f(b))
  {
    XorDigits(x, a, b);
    FeedbackLinear(x, a % 2, b % 2);
    assert (a % 2 + b % 2) % 2 == (a + b) % 2;
    StepIs(x, f, a);
    StepIs(x, f, b);
    StepIs(x, f, x(a, b));
    XorSwap(x, a / 2, b / 2, Feedback(a % 2), Feedback(b % 2));
  }

  lemma {:induction false} IterLinear<T(!new)>(f: T -> T, x: (T, T) -> T, a: T, b: T, n: nat)
    requires forall u, v :: f(x(u, v)) == x(f(u), f(v))
    ensures Iter(f, x(a, b), n) == x(Iter(f, a, n), Iter(f, b, n))
    decreases n
  {
    if n > 0 { IterLinear(f, x, f(a), f(b), n - 1); }
  }

  lemma {:induction false} IterAdd<T>(f: T -> T, c: T, m: nat, n: nat)
    ensures Iter(f, c, m + n) == Iter(f, Iter(f, c, m), n)
    decreases m
  {
    if m > 0 { IterAdd(f, f(c), m - 1, n); }
  }

  lemma {:induction false} StepsLinear(x: Op, f: nat -> nat, a: nat, b: nat, n: nat)
    requires IsXor(x) && IsStep(f)
    ensures Iter(f, x(a, b), n) == x(Iter(f, a, n), Iter(f, b, n))
  {
    forall u, v ensures f(x(u, v)) == x(f(u), f(v)) { StepLinear(x, f, u, v); }
    IterLinear(f, x, a, b, n);
  }

  /** A zero bit is only shifted out. */
  lemma {:induction false} ShiftOut(x: Op, f: nat -> nat, m: nat, c: nat)
    requires IsXor(x) && IsStep(f) && c == 2 * m
    ensures f(c) == m
  {
    StepIs(x, f, c);
    XorZero(x, m);
    assert c / 2 == m && c % 2 == 0;
  }

  lemma {:induction false} IterFour<T>(f: T -> T, c: T, n: nat)
    requires n == 4
    ensures Iter(f, c, n) == f(f(f(f(c))))
  {
    assert Iter(f, c, n) == Iter(f, f(c), n - 1);
    assert Iter(f, f(c), n - 1) == Iter(f, f(f(c)), n - 2);
    assert Iter(f, f(f(c)), n - 2) == Iter(f, f(f(f(c))), n - 3);
  }

  lemma {:induction false} ShiftNibble(x: Op, f: nat -> nat, h: nat, n: nat)
    requires IsXor(x) && IsStep(f) && n == 4
    ensures Iter<nat>(f, 16 * h, n) == h
  {
    IterFour<nat>(f, 16 * h, n);
    ShiftOut(x, f, 8 * h, 16 * h);
    ShiftOut(x, f, 4 * h, 8 * h);
    ShiftOut(x, f, 2 * h, 4 * h);
    ShiftOut(x, f, h, 2 * h);
  }

  /* ---- the table ---- */

  const RTABLE: seq<nat> := [
    0x00000000, 0x1db71064, 0x3b6e20c8, 0x26d930ac,
    0x76dc4190, 0x6b6b51f4, 0x4db26158, 0x5005713c,
    0xedb88320, 0xf00f9344, 0xd6d6a3e8, 0xcb61b38c,
    0x9b64c2b0, 0x86d3d2d4, 0xa00ae278, 0xbdbdf21c]

  /** An entry holds what four ticks make of its index. */
  ghost predicate Entry(f: nat -> nat, t: nat, v: nat, n: nat) {
    Iter(f, t, n) == v
  }

  /** Entries for single bits: the polynomial, shifted. */
  lemma {:induction false} SingleBits(x: Op, f: nat -> nat, n: nat)
    requires IsXor(x) && IsStep(f) && n == 4
    ensures Entry(f, 0, 0, n) && Entry(f, 1, 0x1db71064, n) && Entry(f, 2, 0x3b6e20c8, n)
    ensures Entry(f, 4, 0x76dc4190, n) && Entry(f, 8, 0xedb88320, n)
  {
    StepIs(x, f, 1);
    XorZero(x, POLY);
    assert f(1) == 0xedb88320;
    ShiftOut(x, f, 0, 0);
    ShiftOut(x, f, 1, 2);
    ShiftOut(x, f, 2, 4);
    ShiftOut(x, f, 4, 8);
    ShiftOut(x, f, 0x76dc4190, 0xedb88320);
    ShiftOut(x, f, 0x3b6e20c8, 0x76dc4190);
    ShiftOut(x, f, 0x1db71064, 0x3b6e20c8);
    IterFour<nat>(f, 0, n);
    IterFour<nat>(f, 1, n);
    IterFour<nat>(f, 2, n);
    IterFour<nat>(f, 4, n);
    IterFour<nat>(f, 8, n);
  }

  lemma {:induction false} Combine(x: Op, f: nat -> nat, n: nat, a: nat, u: nat, b: nat, v: nat, t: nat, w: nat)
    requires IsXor(x) && IsStep(f) && Entry(f, a, u, n) && Entry(f, b, v, n) && x(a, b) == t && x(u, v) == w
    ensures Entry(f, t, w, n)
  {
    StepsLinear(x, f, a, b, n);
  }

  /* ---- exclusive-or of hexadecimal numbers ---- */

  lemma {:induction false} XorEven(x: Op, h: nat, k: nat, a: nat, b: nat)
    requires IsXor(x) && a == 2 * h && b == 2 * k
    ensures x(a, b) == 2 * x(h, k)
  {
    XorDigits(x, a, b);
    assert a / 2 == h && b / 2 == k && (a + b) % 2 == 0;
    Bits.SameDigits(x(a, b), 2 * x(h, k));
  }

  /** Digit by digit in base 16. */
  lemma {:induction false} XorHex(x: Op, h: nat, k: nat, t: nat, u: nat)
    requires IsXor(x) && t < 16 && u < 16 && x(t, u) < 16
    ensures x(16 * h + t, 16 * k + u) == 16 * x(h, k) + x(t, u)
  {
    XorEven(x, h, k, 2 * h, 2 * k);
    XorEven(x, 2 * h, 2 * k, 4 * h, 4 * k);
    XorEven(x, 4 * h, 4 * k, 8 * h, 8 * k);
    XorEven(x, 8 * h, 8 * k, 16 * h, 16 * k);
    XorNibble(x, h, t);
    XorNibble(x, k, u);
    XorSwap(x, 16 * h, t, 16 * k, u);
    XorNibble(x, x(h, k), x(t, u));
  }

  /** A hexadecimal digit by its bits, most significant first. */
  datatype Digit = Digit(b3: bool, b2: bool, b1: bool, b0: bool)

  function Of(d: Digit): (n: nat)
    ensures n < 16
  {
    (if d.b3 then 8 else 0) + (if d.b2 then 4 else 0) + (if d.b1 then 2 else 0) + (if d.b0 then 1 else 0)
  }

  function XorDigit(d: Digit, e: Digit): Digit {
    Digit(d.b3 != e.b3, d.b2 != e.b2, d.b1 != e.b1, d.b0 != e.b0)
  }

  /** One more bit. */
  lemma {:induction false} XorBit(x: Op, t: nat, u: nat, h: nat, k: nat, tb: bool, ub: bool)
    requires IsXor(x) && t == 2 * h + (if tb then 1 else 0) && u == 2 * k + (if ub then 1 else 0)
    ensures x(t, u) == 2 * x(h, k) + if tb != ub then 1 else 0
  {
    XorDigits(x, t, u);
    assert t / 2 == h && u / 2 == k;
    Bits.SameDigits(x(t, u), 2 * x(h, k) + if tb != ub then 1 else 0);
  }

  /** One more digit. */
  lemma {:induction false} More(x: Op, h: nat, k: nat, m: nat, d: Digit, e: Digit)
    requires IsXor(x) && x(h, k) == m
    ensures x(16 * h + Of(d), 16 * k + Of(e)) == 16 * m + Of(XorDigit(d, e))
  {
    var h1, k1 := 2 * h + (if d.b3 then 1 else 0), 2 * k + (if e.b3 then 1 else 0);
    var h2, k2 := 2 * h1 + (if d.b2 then 1 else 0), 2 * k1 + (if e.b2 then 1 else 0);
    var h3, k3 := 2 * h2 + (if d.b1 then 1 else 0), 2 * k2 + (if e.b1 then 1 else 0);
    XorBit(x, h1, k1, h, k, d.b3, e.b3);
    XorBit(x, h2, k2, h1, k1, d.b2, e.b2);
    XorBit(x, h3, k3, h2, k2, d.b1, e.b1);
    XorBit(x, 16 * h + Of(d), 16 * k + Of(e), h3, k3, d.b0, e.b0);
  }

  const D0: Digit := Digit(false, false, false, false)
  const D1: Digit := Digit(false, false, false, true)
  const D2: Digit := Digit(false, false, true, false)
  const D3: Digit := Digit(false, false, true, true)
  const D4: Digit := Digit(false, true, false, false)
  const D5: Digit := Digit(false, true, false, true)
  const D6: Digit := Digit(false, true, true, false)
  const D7: Digit := Digit(false, true, true, true)
  const D8: Digit := Digit(true, false, false, false)
  const D9: Digit := Digit(true, false, false, true)
  const DA: Digit := Digit(true, false, true, false)
  const DB: Digit := Digit(true, false, true, true)
  const DC: Digit := Digit(true, true, false, false)
  const DD: Digit := Digit(true, true, false, true)
  const DE: Digit := Digit(true, true, true, false)
  const DF: Digit := Digit(true, true, true, true)

  /** The table again, digit by digit. */
  const DIGITS: seq<seq<Digit>> := [
    [D0, D0, D0, D0, D0, D0, D0, D0],
    [D1, DD, DB, D7, D1, D0, D6, D4],
    [D3, DB, D6, DE, D2, D0, DC, D8],
    [D2, D6, DD, D9, D3, D0, DA, DC],
    [D7, D6, DD, DC, D4, D1, D9, D0],
    [D6, DB, D6, DB, D5, D1, DF, D4],
    [D4, DD, DB, D2, D6, D1, D5, D8],
    [D5, D0, D0, D5, D7, D1, D3, DC],
    [DE, DD, DB, D8, D8, D3, D2, D0],
    [DF, D0, D0, DF, D9, D3, D4, D4],
    [DD, D6, DD, D6, DA, D3, DE, D8],
    [DC, DB, D6, D1, DB, D3, D8, DC],
    [D9, DB, D6, D4, DC, D2, DB, D0],
    [D8, D6, DD, D3, DD, D2, DD, D4],
    [DA, D0, D0, DA, DE, D2, D7, D8],
    [DB, DD, DB, DD, DF, D2, D1, DC]]

  /** The word with these digits, most significant first. */
  function Word(d: seq<Digit>): nat
    requires |d| == 8
  {
    0x1000_0000 * Of(d[0]) + 0x100_0000 * Of(d[1]) + 0x10_0000 * Of(d[2]) + 0x1_0000 * Of(d[3])
    + 0x1000 * Of(d[4]) + 0x100 * Of(d[5]) + 0x10 * Of(d[6]) + Of(d[7])
  }

  function Value(d: seq<Digit>): nat {
    if |d| == 0 then 0 else 16 * Value(d[..|d| - 1]) + Of(d[|d| - 1])
  }

  lemma {:induction false} XorValue(x: Op, d: seq<Digit>, e: seq<Digit>, c: seq<Digit>)
    requires IsXor(x) && |d| == |e| == |c| && forall i :: 0 <= i < |d| ==> c[i] == XorDigit(d[i], e[i])
    ensures x(Value(d), Value(e)) == Value(c)
    decreases |d|
  {
    if |d| == 0 {
      XorZero(x, 0);
    } else {
      var n := |d| - 1;
      XorValue(x, d[..n], e[..n], c[..n]);
      More(x, Value(d[..n]), Value(e[..n]), Value(c[..n]), d[n], e[n]);
    }
  }

  lemma {:induction false} ValueFour(d: seq<Digit>, n: nat)
    requires 4 <= n <= |d|
    ensures Value(d[..n]) == 0x1_0000 * Value(d[..n - 4]) + 0x1000 * Of(d[n - 4]) + 0x100 * Of(d[n - 3])
                             + 0x10 * Of(d[n - 2]) + Of(d[n - 1])
  {
    assert d[..n][..n - 1] == d[..n - 1] && d[..n - 1][..n - 2] == d[..n - 2];
    assert d[..n - 2][..n - 3] == d[..n - 3] && d[..n - 3][..n - 4] == d[..n - 4];
    assert Value(d[..n - 3]) == 16 * Value(d[..n - 4]) + Of(d[n - 4]);
    assert Value(d[..n - 2]) == 16 * Value(d[..n - 3]) + Of(d[n - 3]);
    assert Value(d[..n - 1]) == 16 * Value(d[..n - 2]) + Of(d[n - 2]);
  }

  lemma {:induction false} WordIsValue(d: seq<Digit>)
    requires |d| == 8
    ensures Value(d) == Word(d)
  {
    ValueFour(d, |d|);
    ValueFour(d, |d| - 4);
    assert d[..|d|] == d && d[..|d| - 8] == [];
  }

  lemma {:induction false} TableWord(k: nat)
    requires k < 16
    ensures |DIGITS[k]| == 8 && Word(DIGITS[k]) == RTABLE[k]
  {
  }

  lemma {:induction false} TableDigits(k: nat, i: nat)
    requires k < 8 && i < 8
    ensures |DIGITS[k]| == |DIGITS[8]| == |DIGITS[8 + k]| == 8
    ensures DIGITS[8 + k][i] == XorDigit(DIGITS[8][i], DIGITS[k][i])
  {
  }

  /** Entry 8 + k is entry 8 exclusive-or entry k. */
  lemma {:induction false} Mix(x: Op, k: nat)
    requires IsXor(x) && k < 8
    ensures x(RTABLE[8], RTABLE[k]) == RTABLE[8 + k]
  {
    TableWord(8);
    TableWord(k);
    TableWord(8 + k);
    forall i | 0 <= i < 8 ensures DIGITS[8 + k][i] == XorDigit(DIGITS[8][i], DIGITS[k][i]) { TableDigits(k, i); }
    XorValue(x, DIGITS[8], DIGITS[k], DIGITS[8 + k]);
    WordIsValue(DIGITS[8]);
    WordIsValue(DIGITS[k]);
    WordIsValue(DIGITS[8 + k]);
  }

  /** From an entry to the one for half its index. */
  lemma {:induction false} Halve(x: Op, f: nat -> nat, n: nat, t: nat, w: nat, t2: nat, w2: nat)
    requires IsXor(x) && IsStep(f) && n == 4 && t2 == 2 * t && w2 == 2 * w && Entry(f, t2, w2, n)
    ensures Entry(f, t, w, n)
  {
    ShiftOut(x, f, t, t2);
    ShiftOut(x, f, w, w2);
    IterFour<nat>(f, t, n);
    IterFour<nat>(f, t2, n);
  }

  /** Indices of two entries. */
  lemma {:induction false} SumIndex(x: Op, d: Digit, e: Digit)
    requires IsXor(x)
    ensures x(Of(d), Of(e)) == Of(XorDigit(d, e))
  {
    XorZero(x, 0);
    More(x, 0, 0, 0, d, e);
  }

  lemma {:induction false} EvenEntries(x: Op, f: nat -> nat, n: nat)
    requires IsXor(x) && IsStep(f) && n == 4
    ensures Entry(f, 10, 0xd6d6a3e8, n) && Entry(f, 12, 0x9b64c2b0, n) && Entry(f, 14, 0xa00ae278, n)
    ensures Entry(f, 6, 0x4db26158, n)
  {
    SingleBits(x, f, n);
    SumIndex(x, D8, D2);
    Mix(x, 2);
    Combine(x, f, n, 8, 0xedb88320, 2, 0x3b6e20c8, 10, 0xd6d6a3e8);
    SumIndex(x, D8, D4);
    Mix(x, 4);
    Combine(x, f, n, 8, 0xedb88320, 4, 0x76dc4190, 12, 0x9b64c2b0);
    Halve(x, f, n, 6, 0x4db26158, 12, 0x9b64c2b0);
    SumIndex(x, D8, D6);
    Mix(x, 6);
    Combine(x, f, n, 8, 0xedb88320, 6, 0x4db26158, 14, 0xa00ae278);
  }

  lemma {:induction false} OddEntries(x: Op, f: nat -> nat, n: nat)
    requires IsXor(x) && IsStep(f) && n == 4
    ensures Entry(f, 3, 0x26d930ac, n) && Entry(f, 5, 0x6b6b51f4, n) && Entry(f, 7, 0x5005713c, n)
    ensures Entry(f, 9, 0xf00f9344, n) && Entry(f, 11, 0xcb61b38c, n)
    ensures Entry(f, 13, 0x86d3d2d4, n) && Entry(f, 15, 0xbdbdf21c, n)
  {
    SingleBits(x, f, n);
    EvenEntries(x, f, n);
    Halve(x, f, n, 3, 0x26d930ac, 6, 0x4db26158);
    Halve(x, f, n, 5, 0x6b6b51f4, 10, 0xd6d6a3e8);
    Halve(x, f, n, 7, 0x5005713c, 14, 0xa00ae278);
    SumIndex(x, D8, D1);
    Mix(x, 1);
    Combine(x, f, n, 8, 0xedb88320, 1, 0x1db71064, 9, 0xf00f9344);
    SumIndex(x, D8, D3);
    Mix(x, 3);
    Combine(x, f, n, 8, 0xedb88320, 3, 0x26d930ac, 11, 0xcb61b38c);
    SumIndex(x, D8, D5);
    Mix(x, 5);
    Combine(x, f, n, 8, 0xedb88320, 5, 0x6b6b51f4, 13, 0x86d3d2d4);
    SumIndex(x, D8, D7);
    Mix(x, 7);
    Combine(x, f, n, 8, 0xedb88320, 7, 0x5005713c, 15, 0xbdbdf21c);
  }

  /** Every entry of the table is what four ticks make of its index. */
  lemma {:induction false} TableIsFourSteps(x: Op, f: nat -> nat, t: nat, n: nat)
    requires IsXor(x) && IsStep(f) && t < 16 && n == 4
    ensures Iter(f, t, n) == RTABLE[t]
  {
    SingleBits(x, f, n);
    EvenEntries(x, f, n);
    OddEntries(x, f, n);
    assert Entry(f, t, RTABLE[t], n);
  }

  /* ---- four bits at a time ---- */

  lemma {:induction false} NibbleBelow(x: Op, t: nat, u: nat)
    requires IsXor(x) && t < 16 && u < 16
    ensures x(t, u) < 16
  {
    var k := 4;
    assert Pow2(4) == 16;
    XorBelow(x, t, u, k);
  }

  lemma {:induction false} XorBelow(x: Op, a: nat, b: nat, k: nat)
    requires IsXor(x) && a < Pow2(k) && b < Pow2(k)
    ensures x(a, b) < Pow2(k)
    decreases k
  {
    if k == 0 {
      XorZero(x, 0);
    } else {
      XorBelow(x, a / 2, b / 2, k - 1);
      XorDigits(x, a, b);
    }
  }

  /** The low digit of an exclusive-or depends on the low digits, the rest on the rest. */
  lemma {:induction false} XorLow(x: Op, a: nat, b: nat)
    requires IsXor(x)
    ensures x(a, b) / 16 == x(a / 16, b / 16) && x(a, b) % 16 == x(a % 16, b % 16)
  {
    NibbleBelow(x, a % 16, b % 16);
    XorHex(x, a / 16, b / 16, a % 16, b % 16);
  }

  /** One line of the loop is four ticks. */
  lemma {:induction false} NibbleRound(x: Op, f: nat -> nat, c: nat, d: nat, n: nat)
    requires IsXor(x) && IsStep(f) && d < 16 && n == 4
    ensures x(c, d) % 16 < 16 && Iter(f, x(c, d), n) == x(c / 16, RTABLE[x(c, d) % 16])
  {
    var y := x(c, d);
    var h, t := y / 16, y % 16;
    XorLow(x, c, d);
    XorZero(x, c / 16);
    XorNibble(x, h, t);
    StepsLinear(x, f, 16 * h, t, n);
    ShiftNibble(x, f, h, n);
    TableIsFourSteps(x, f, t, n);
  }

  /** Both lines are eight ticks. */
  lemma {:induction false} ByteRound(x: Op, f: nat -> nat, c: nat, b: byte, n: nat, r: nat)
    requires IsXor(x) && IsStep(f) && n == 4 && r == x(c / 16, RTABLE[x(c, b) % 16])
    ensures Iter(f, x(c, b), n + n) == x(r / 16, RTABLE[x(r, b / 16) % 16])
  {
    var lo, hi := b % 16, b / 16;
    XorLow(x, c, b);
    XorLow(x, c, lo);
    NibbleRound(x, f, c, lo, n);
    assert Iter(f, x(c, lo), n) == r;
    XorNibble(x, hi, lo);
    XorComm(x, 16 * hi, lo);
    XorAssoc(x, c, lo, 16 * hi);
    StepsLinear(x, f, x(c, lo), 16 * hi, n);
    ShiftNibble(x, f, hi, n);
    IterAdd(f, x(c, b), n, n);
    NibbleRound(x, f, r, hi, n);
  }
}
