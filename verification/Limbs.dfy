/** Field elements of curve25519-donna.c: ten signed limbs of alternately 26 and 25 bits, held in
    64-bit words, for integers modulo p = 2^255 - 19. */
module Limbs {
  import opened ModArith
  import opened Powers

  /** int64_t; every arithmetic step is checked to stay inside. */
  newtype limb = x: int | -0x8000_0000_0000_0000 <= x < 0x8000_0000_0000_0000

  const P: int := 0x7fff_ffff_ffff_ffff_ffff_ffff_ffff_ffff_ffff_ffff_ffff_ffff_ffff_ffff_ffff_ffed

  /** Limb i has weight 2^ceil(25.5 * i). */
  function Exp(i: nat): nat { (51 * i + 1) / 2 }

  function W(i: nat): nat { Pow2(Exp(i)) }

  /** The integer that limbs 0, ..., n-1 stand for. */
  function V(s: seq<limb>, n: nat): int
    requires n <= |s|
    decreases n
  {
    if n == 0 then 0 else V(s, n - 1) + W(n - 1) * s[n - 1] as int
  }

  /** The field element. */
  function Fe(s: seq<limb>): (r: nat)
    ensures r < P
  {
    V(s, |s|) % P
  }

  /* ---- weights ---- */

  lemma {:induction false} ExpAdd(i: nat, j: nat)
    ensures Exp(i) + Exp(j) == Exp(i + j) + if i % 2 == 1 && j % 2 == 1 then 1 else 0
  {
  }

  /** The weights of two odd limbs multiply to twice the weight of their sum. */
  lemma {:induction false} WeightMul(i: nat, j: nat)
    ensures W(i) * W(j) == if i % 2 == 1 && j % 2 == 1 then 2 * W(i + j) else W(i + j)
  {
    ExpAdd(i, j);
    Pow2Add(Exp(i), Exp(j));
  }

  /* ---- the product of two elements ---- */

  /** What limbs i and j of the factors contribute to limb i+j of the product. */
  function Term(x: seq<limb>, y: seq<limb>, i: int, j: int): int {
    if 0 <= i < |x| && 0 <= j < |y|
    then (if i % 2 == 1 && j % 2 == 1 then 2 * (x[i] as int * y[j] as int) else x[i] as int * y[j] as int)
    else 0
  }

  /** The part of limb k of the product that comes from limbs 0, ..., n-1 of x. */
  function Coeff(x: seq<limb>, y: seq<limb>, k: int, n: nat): int
    decreases n
  {
    if n == 0 then 0 else Coeff(x, y, k, n - 1) + Term(x, y, n - 1, k - (n - 1))
  }

  /* ---- sums of arbitrary integers ---- */

  function Sum(t: int -> int, m: nat): int
    decreases m
  {
    if m == 0 then 0 else Sum(t, m - 1) + t(m - 1)
  }

  lemma {:induction false} SumAdd(t: int -> int, u: int -> int, v: int -> int, m: nat)
    requires forall k :: 0 <= k < m ==> v(k) == t(k) + u(k)
    ensures Sum(v, m) == Sum(t, m) + Sum(u, m)
    decreases m
  {
    if m > 0 { SumAdd(t, u, v, m - 1); }
  }

  lemma {:induction false} SumZero(t: int -> int, m: nat)
    requires forall k :: 0 <= k < m ==> t(k) == 0
    ensures Sum(t, m) == 0
    decreases m
  {
    if m > 0 { SumZero(t, m - 1); }
  }

  lemma {:induction false} Spread(a: int, b: int, c: int)
    ensures a * (b + c) == a * b + a * c
  {
  }

  function Clamp(n: int, hi: nat): nat { if n <= 0 then 0 else if n <= hi then n else hi }

  /** A copy of `u`, shifted by `i`. */
  lemma {:induction false} SumShifted(t: int -> int, u: int -> int, i: nat, n: nat, m: nat)
    requires forall k :: 0 <= k < m ==> t(k) == if 0 <= k - i < n then u(k - i) else 0
    ensures Sum(t, m) == Sum(u, Clamp(m - i, n))
    decreases m
  {
    if m > 0 { SumShifted(t, u, i, n, m - 1); }
  }

  lemma {:induction false} SumScaled(t: int -> int, u: int -> int, a: int, m: nat)
    requires forall k :: 0 <= k < m ==> t(k) == a * u(k)
    ensures Sum(t, m) == a * Sum(u, m)
    decreases m
  {
    if m > 0 {
      SumScaled(t, u, a, m - 1);
      Spread(a, Sum(u, m - 1), u(m - 1));
    }
  }

  /* ---- values multiply ---- */

  /** Weighted limb, zero outside the element. */
  function Part(s: seq<limb>, i: int): int {
    if 0 <= i < |s| then W(i) * s[i] as int else 0
  }

  lemma {:induction false} ValueIsSum(s: seq<limb>, n: nat)
    requires n <= |s|
    ensures V(s, n) == Sum(i => Part(s, i), n)
    decreases n
  {
    if n > 0 { ValueIsSum(s, n - 1); }
  }

  lemma {:induction false} Twice(w: int, p: int)
    ensures (2 * w) * p == w * (2 * p)
  {
  }

  lemma {:induction false} TermWeight(x: seq<limb>, y: seq<limb>, i: int, j: int)
    requires 0 <= i < |x| && 0 <= j < |y|
    ensures W(i + j) * Term(x, y, i, j) == Part(x, i) * Part(y, j)
  {
    WeightMul(i, j);
    var a, b := x[i] as int, y[j] as int;
    MulRegroup(W(i), W(j), a, b);
    MulRegroup(W(i), a, W(j), b);
    Twice(W(i + j), a * b);
  }

  function WTerm(x: seq<limb>, y: seq<limb>, i: int, k: int): int {
    if k >= 0 then W(k) * Term(x, y, i, k - i) else 0
  }

  function WCoeff(x: seq<limb>, y: seq<limb>, n: int, k: int): int {
    if k >= 0 && n >= 0 then W(k) * Coeff(x, y, k, n) else 0
  }

  lemma {:induction false} RowEntry(x: seq<limb>, y: seq<limb>, i: int, k: int)
    requires 0 <= i < |x| && 0 <= k
    ensures WTerm(x, y, i, k) == if 0 <= k - i < |y| then Part(x, i) * Part(y, k - i) else 0
  {
    if 0 <= k - i < |y| { TermWeight(x, y, i, k - i); }
  }

  function Row(x: seq<limb>, y: seq<limb>, i: int): int -> int {
    k => WTerm(x, y, i, k)
  }

  function Rows(x: seq<limb>, y: seq<limb>, n: int): int -> int {
    k => WCoeff(x, y, n, k)
  }

  lemma {:induction false} RowSum(x: seq<limb>, y: seq<limb>, i: int, m: nat)
    requires 0 <= i < |x| && m >= |x| + |y| - 1
    ensures Sum(Row(x, y, i), m) == Part(x, i) * V(y, |y|)
  {
    var a := Part(x, i);
    var t, u, v := Row(x, y, i), j => a * Part(y, j), j => Part(y, j);
    forall k | 0 <= k < m ensures t(k) == if 0 <= k - i < |y| then u(k - i) else 0 {
      RowEntry(x, y, i, k);
    }
    SumShifted(t, u, i, |y|, m);
    SumScaled(u, v, a, |y|);
    ValueIsSum(y, |y|);
  }

  lemma {:induction false} NextRow(x: seq<limb>, y: seq<limb>, i: int, k: int)
    requires i >= 0
    ensures WCoeff(x, y, i + 1, k) == WCoeff(x, y, i, k) + WTerm(x, y, i, k)
  {
    if k >= 0 { Spread(W(k), Coeff(x, y, k, i), Term(x, y, i, k - i)); }
  }

  lemma {:induction false} RowsNext(x: seq<limb>, y: seq<limb>, n: nat, m: nat)
    ensures Sum(Rows(x, y, n + 1), m) == Sum(Rows(x, y, n), m) + Sum(Row(x, y, n), m)
  {
    forall k | 0 <= k < m
      ensures Rows(x, y, n + 1)(k) == Rows(x, y, n)(k) + Row(x, y, n)(k)
    {
      NextRow(x, y, n, k);
    }
    SumAdd(Rows(x, y, n), Row(x, y, n), Rows(x, y, n + 1), m);
  }

  lemma {:induction false} RowsSum(x: seq<limb>, y: seq<limb>, n: nat, m: nat)
    requires n <= |x| && m >= |x| + |y| - 1
    ensures Sum(Rows(x, y, n), m) == V(x, n) * V(y, |y|)
    decreases n
  {
    if n == 0 {
      SumZero(Rows(x, y, 0), m);
    } else {
      RowsSum(x, y, n - 1, m);
      RowSum(x, y, n - 1, m);
      RowsNext(x, y, n - 1, m);
      SpreadLeft(V(x, n - 1), Part(x, n - 1), V(y, |y|));
    }
  }

  lemma {:induction false} SpreadLeft(a: int, b: int, c: int)
    ensures (a + b) * c == a * c + b * c
  {
  }

  /** Limbs that are the coefficients of the product stand for the product of the values. */
  lemma {:induction false} ProductValue(x: seq<limb>, y: seq<limb>, z: seq<limb>)
    requires |z| >= |x| + |y| - 1
    requires forall k :: 0 <= k < |z| ==> z[k] as int == Coeff(x, y, k, |x|)
    ensures V(z, |z|) == V(x, |x|) * V(y, |y|)
  {
    RowsSum(x, y, |x|, |z|);
    ValueIsSum(z, |z|);
    SumSame(i => Part(z, i), Rows(x, y, |x|), |z|);
  }

  lemma {:induction false} SumSame(t: int -> int, u: int -> int, m: nat)
    requires forall k :: 0 <= k < m ==> t(k) == u(k)
    ensures Sum(t, m) == Sum(u, m)
    decreases m
  {
    if m > 0 { SumSame(t, u, m - 1); }
  }

  /* ---- reductions ---- */

  lemma {:induction false} SetLimb(s: seq<limb>, i: nat, v: limb, n: nat)
    requires i < n <= |s|
    ensures V(s[i := v], n) == V(s, n) + W(i) * (v as int - s[i] as int)
    decreases n
  {
    var t := s[i := v];
    if i == n - 1 {
      SamePrefix(s, t, n - 1);
      Spread(W(i), s[i] as int, v as int - s[i] as int);
    } else {
      SetLimb(s, i, v, n - 1);
    }
  }

  lemma {:induction false} SetTwo(s: seq<limb>, i: nat, a: limb, j: nat, b: limb, n: nat)
    requires i < j < n <= |s|
    ensures V(s[i := a][j := b], n) ==
            V(s, n) + W(i) * (a as int - s[i] as int) + W(j) * (b as int - s[j] as int)
  {
    SetLimb(s, i, a, n);
    SetLimb(s[i := a], j, b, n);
  }

  lemma {:induction false} SamePrefix(s: seq<limb>, t: seq<limb>, n: nat)
    requires n <= |s| && n <= |t| && s[..n] == t[..n]
    ensures V(s, n) == V(t, n)
    decreases n
  {
    if n > 0 {
      assert s[n - 1] == s[..n][n - 1] && t[n - 1] == t[..n][n - 1];
      assert s[..n - 1] == s[..n][..n - 1] && t[..n - 1] == t[..n][..n - 1];
      SamePrefix(s, t, n - 1);
    }
  }

  /** Bits of limb i. */
  function Radix(i: nat): nat { if i % 2 == 0 then 0x400_0000 else 0x200_0000 }

  function RadixBits(i: nat): nat { if i % 2 == 0 then 26 else 25 }

  lemma {:induction false} RadixPower(i: nat)
    ensures Radix(i) == Pow2(RadixBits(i))
  {
    SmallPowers();
  }

  lemma {:induction false} WeightNext(i: nat)
    ensures W(i + 1) == W(i) * Radix(i)
  {
    var e, b := Exp(i), RadixBits(i);
    RadixPower(i);
    NextExponent(i);
    Pow2Add(e, b);
  }

  lemma {:induction false} NextExponent(i: nat)
    ensures Exp(i + 1) == Exp(i) + RadixBits(i)
  {
    var k := i / 2;
    if i % 2 == 0 {
      DivModUnique(51 * i + 1, 2, 51 * k, 1);
      DivModUnique(51 * (i + 1) + 1, 2, 51 * k + 26, 0);
    } else {
      DivModUnique(51 * i + 1, 2, 51 * k + 26, 0);
      DivModUnique(51 * (i + 1) + 1, 2, 51 * k + 51, 1);
    }
  }

  /** A carry from limb i to limb i+1 keeps the value. */
  lemma {:induction false} CarryKeepsValue(s: seq<limb>, i: nat, a: limb, b: limb, over: int, n: nat)
    requires i + 1 < n <= |s|
    requires a as int == s[i] as int - over * Radix(i) && b as int == s[i + 1] as int + over
    ensures V(s[i := a][i + 1 := b], n) == V(s, n)
  {
    SetTwo(s, i, a, i + 1, b, n);
    WeightNext(i);
    CarryBalance(W(i), Radix(i), over);
  }

  lemma {:induction false} CarryBalance(w: int, r: int, over: int)
    ensures w * (-(over * r)) + (w * r) * over == 0
  {
  }

  lemma {:induction false} TopWeight(n: nat)
    requires n == 10
    ensures W(n) == P + 19
  {
    var a, b := 26, 25;
    SmallPowers();
    var t := 0x8_0000_0000_0000;
    PowerIs(a, 0x400_0000, b, 0x200_0000);
    PowerIs(a + b, t, a + b, t);
    var c := 2 * (a + b);
    PowerIs(c, t * t, c, t * t);
    PowerIs(c + c, (t * t) * (t * t), a + b, t);
    assert Exp(n) == c + c + (a + b);
  }

  lemma {:induction false} TailValue(z: seq<limb>, m: nat, n: nat)
    requires m % 2 == 0 && m + n <= |z|
    ensures V(z, m + n) == V(z, m) + W(m) * V(z[m..], n)
    decreases n
  {
    if n > 0 {
      TailValue(z, m, n - 1);
      WeightMul(m, n - 1);
      var c := z[m + n - 1] as int;
      assert z[m..][n - 1] == z[m + n - 1];
      MulAssoc(W(m), W(n - 1), c);
      Spread(W(m), V(z[m..], n - 1), W(n - 1) * c);
    }
  }

  lemma {:induction false} MulAssoc(a: int, b: int, c: int)
    ensures (a * b) * c == a * (b * c)
  {
  }

  lemma {:induction false} FoldPrefix(z: seq<limb>, t: seq<limb>, r: seq<limb>, n: nat)
    requires n <= |z| && n <= |t| && n <= |r|
    requires forall i :: 0 <= i < n ==> r[i] as int == z[i] as int + 19 * t[i] as int
    ensures V(r, n) == V(z, n) + 19 * V(t, n)
    decreases n
  {
    if n > 0 {
      FoldPrefix(z, t, r, n - 1);
      Combine(W(n - 1), z[n - 1] as int, t[n - 1] as int);
    }
  }

  lemma {:induction false} Combine(w: int, a: int, b: int)
    ensures w * (a + 19 * b) == w * a + 19 * (w * b)
  {
  }

  /** Limbs 10-18 fold back onto limbs 0-8 with factor 19, because 2^255 = 19 modulo p. */
  lemma {:induction false} FoldDegree(z: seq<limb>, r: seq<limb>)
    requires |z| == 19 && |r| == 10 && r[9] == z[9]
    requires forall i :: 0 <= i < 9 ==> r[i] as int == z[i] as int + 19 * z[10 + i] as int
    ensures Fe(r) == V(z, |z|) % P
  {
    var m := |r|;
    var t := z[m..];
    var n := |t|;
    assert n == 9 && forall i :: 0 <= i < n ==> t[i] == z[10 + i];
    TailValue(z, m, n);
    FoldPrefix(z, t, r, n);
    assert V(r, m) == V(r, n) + W(n) * r[n] as int && V(z, m) == V(z, n) + W(n) * z[n] as int;
    TopWeight(m);
    FoldMod(V(z, |z|), V(r, m), V(z, m), V(t, n));
  }

  lemma {:induction false} FoldMod(vz: int, vr: int, low: int, t: int)
    requires vz == low + (P + 19) * t && vr == low + 19 * t
    ensures vz % P == vr % P
  {
    ModShift(vz, vr, t, P);
  }

  /** Limb 10 wraps around to limb 0 with factor 19. */
  lemma {:induction false} WrapTop(s: seq<limb>, a: limb, m: nat)
    requires m == 10 < |s| && a as int == s[0] as int + 19 * s[m] as int
    ensures V(s[0 := a][m := 0], m + 1) % P == V(s, m + 1) % P
  {
    var n := m + 1;
    var u := s[0 := a][m := 0];
    SetTwo(s, 0, a, m, 0, n);
    TopWeight(m);
    FirstWeight(0);
    WrapMod(V(s, n), V(u, n), W(0), W(m), a as int - s[0] as int, s[m] as int);
  }

  lemma {:induction false} FirstWeight(i: nat)
    requires i == 0
    ensures W(i) == 1
  {
  }

  lemma {:induction false} WrapMod(v: int, v2: int, w0: int, wm: int, d: int, h: int)
    requires w0 == 1 && wm == P + 19 && d == 19 * h && v2 == v + w0 * d + wm * (0 - h)
    ensures v2 % P == v % P
  {
    ModShift(v, v2, h, P);
  }

  /* ---- arithmetic modulo p ---- */

  function Add(a: int, b: int): nat { (a + b) % P }
  function Sub(a: int, b: int): nat { (a - b) % P }
  function Mul(a: int, b: int): nat { (a * b) % P }
}
