/** Coefficient reduction of curve25519-donna.c, and multiplication in reduced form. */
module Reduce {
  import opened ModArith
  import opened Limbs
  import opened Field

  /* ---- division by shifting ---- */

  /** C division: the quotient is rounded towards zero. */
  function Trunc(v: int, d: int): int
    requires d > 0
  {
    if v >= 0 then v / d else -((-v) / d)
  }

  /** 0xffffffff >> s when v is negative, else 0: the high word's sign bit, smeared and shifted. */
  function Roundoff(v: limb, s: int): (r: limb)
    requires s == 64 || s == 128
    ensures v >= 0 ==> r == 0
    ensures v < 0 ==> r as int == 0xffff_ffff / s
  {
    var highword := (v as int % 0x1_0000_0000_0000_0000) / 0x1_0000_0000;
    HighWordSign(v as int);
    var sign := if highword >= 0x8000_0000 then -1 else 0;
    var u32 := sign % 0x1_0000_0000;
    (if s == 64 then u32 / 64 else u32 / 128) as limb
  }

  lemma {:induction false} HighWordSign(v: int)
    requires -0x8000_0000_0000_0000 <= v < 0x8000_0000_0000_0000
    ensures (v % 0x1_0000_0000_0000_0000) / 0x1_0000_0000 >= 0x8000_0000 <==> v < 0
  {
    if v < 0 {
      DivModUnique(v, 0x1_0000_0000_0000_0000, -1, v + 0x1_0000_0000_0000_0000);
    } else {
      DivModUnique(v, 0x1_0000_0000_0000_0000, 0, v);
    }
  }

  lemma {:induction false} FloorIsTrunc(v: int, d: int)
    requires d > 0
    ensures v < 0 ==> (v + (d - 1)) / d == Trunc(v, d)
  {
    if v < 0 {
      var q, r := (-v) / d, (-v) % d;
      assert -v == q * d + r;
      if r == 0 {
        DivModUnique(v + (d - 1), d, -q, d - 1);
      } else {
        DivModUnique(v + (d - 1), d, -q, d - 1 - r);
      }
    }
  }

  function DivBy2_26(v: limb): (r: limb)
    ensures r as int == Trunc(v as int, 0x400_0000)
  {
    FloorIsTrunc(v as int, 0x400_0000);
    ((v + Roundoff(v, 64)) as int / 0x400_0000) as limb
  }

  function DivBy2_25(v: limb): (r: limb)
    ensures r as int == Trunc(v as int, 0x200_0000)
  {
    FloorIsTrunc(v as int, 0x200_0000);
    ((v + Roundoff(v, 128)) as int / 0x200_0000) as limb
  }

  /** The 32-bit version; v >> 31 is -1 or 0. */
  function DivS32By2_25(v: limb): (r: limb)
    requires -0x8000_0000 <= v < 0x8000_0000
    ensures r as int == Trunc(v as int, 0x200_0000)
  {
    FloorIsTrunc(v as int, 0x200_0000);
    var roundoff := ((v as int / 0x8000_0000) % 0x1_0000_0000) / 128;
    ((v as int + roundoff) / 0x200_0000) as limb
  }

  lemma {:induction false} TruncBounds(v: int, d: int)
    requires d > 0
    ensures -d < v - Trunc(v, d) * d < d
    ensures -d < v < d ==> Trunc(v, d) == 0
  {
    if v >= 0 {
      QuotientBounds(v, d, v / d);
    } else {
      QuotientBounds(-v, d, (-v) / d);
      NegateProduct((-v) / d, d);
    }
  }

  lemma {:induction false} QuotientBounds(v: int, d: int, q: int)
    requires v >= 0 && d > 0 && q == v / d
    ensures 0 <= v - q * d < d && (v < d ==> q == 0)
  {
    assert v == q * d + v % d;
    if v < d { DivModUnique(v, d, 0, v); }
  }

  lemma {:induction false} NegateProduct(a: int, b: int)
    ensures (-a) * b == -(a * b)
  {
  }

  /* ---- one carry ---- */

  function Total(s: seq<limb>): int { V(s, |s|) }

  /** All limbs strictly inside their radix, except that limb 2 may touch it. */
  predicate Nearly(s: seq<limb>) {
    |s| == 10 && forall i :: 0 <= i < 10 ==> Within(s[i], if i == 2 then Radix(i) else Radix(i) - 1)
  }

  predicate Strict(s: seq<limb>) {
    |s| == 10 && forall i :: 0 <= i < 10 ==> Within(s[i], Radix(i) - 1)
  }

  /** over = output[i] / 2^26; output[i] -= over << 26; output[i+1] += over, for even i;
      the same with 25 for odd i. */
  method Carry(output: array<limb>, i: nat) returns (ghost over: int)
    requires output.Length >= 11 && i < 10
    requires Within(output[i], 0x4000_0040_0000_0000) && Within(output[i + 1], 0x4000_0000_0000_0000)
    modifies output
    ensures Total(output[..11]) == old(Total(output[..11]))
    ensures over == Trunc(old(output[i]) as int, Radix(i))
    ensures output[i] as int == old(output[i]) as int - over * Radix(i)
    ensures output[i + 1] as int == old(output[i + 1]) as int + over
    ensures Within(output[i], Radix(i) - 1) && -0x20_0000_2000 <= over <= 0x20_0000_2000
    ensures forall k :: 0 <= k < output.Length && k != i && k != i + 1 ==> output[k] == old(output[k])
  {
    ghost var s := output[..11];
    TruncBounds(output[i] as int, Radix(i));
    if i % 2 == 0 {
      var q := DivBy2_26(output[i]);
      over := q as int;
      output[i] := output[i] - q * 0x400_0000;
      output[i + 1] := output[i + 1] + q;
    } else {
      var q := DivBy2_25(output[i]);
      over := q as int;
      output[i] := output[i] - q * 0x200_0000;
      output[i + 1] := output[i + 1] + q;
    }
    CarryKeepsValue(s, i, output[i], output[i + 1], over, |s|);
    assert output[..11] == s[i := output[i]][i + 1 := output[i + 1]];
  }

  /* ---- the carry chain ---- */

  /** Bound on limb i when the chain reaches it. */
  ghost predicate Pending(old': seq<limb>, now: seq<limb>, i: nat)
    requires |old'| == 10 && |now| == 11 && i <= 10
  {
    && (i < 10 ==> Within(now[i], 0x4000_0020_0000_2000))
    && (i == 10 ==> Within(now[i], 0x20_0000_2000))
    && (forall k :: i < k < 10 ==> now[k] == old'[k])
    && (i < 10 ==> now[10] == 0)
  }

  /** From a nearly reduced element, only limb 2 can start a carry, and then it is left at 0. */
  ghost predicate Ripple(old': seq<limb>, now: seq<limb>, i: nat)
    requires |old'| == 10 && |now| == 11 && i <= 10
  {
    Nearly(old') ==>
      && (i <= 2 ==> now[i] == old'[i])
      && (i > 2 ==> now[2] == 0 || now[i] == if i < 10 then old'[i] else 0)
      && Within(now[i], if i < 10 then Radix(i) else 1)
  }

  /** `after` is `before` with one carry out of limb i. */
  ghost predicate Carried(before: seq<limb>, after: seq<limb>, i: nat, over: int)
    requires |before| == |after| == 11 && i < 10
  {
    && over == Trunc(before[i] as int, Radix(i))
    && after[i] as int == before[i] as int - over * Radix(i)
    && after[i + 1] as int == before[i + 1] as int + over
    && -0x20_0000_2000 <= over <= 0x20_0000_2000
    && (forall k :: 0 <= k < 11 && k != i && k != i + 1 ==> after[k] == before[k])
  }

  lemma {:induction false} PendingStep(old': seq<limb>, before: seq<limb>, after: seq<limb>, i: nat, over: int)
    requires |old'| == 10 && |before| == |after| == 11 && i < 10
    requires Carried(before, after, i, over) && Pending(old', before, i)
    requires forall k :: 0 <= k < 10 ==> Within(old'[k], 0x4000_0000_0000_0000)
    ensures Pending(old', after, i + 1)
  {
  }

  lemma {:induction false} UnitCarry(v: int, r: int)
    requires r > 1 && -r <= v <= r
    ensures -1 <= Trunc(v, r) <= 1
    ensures -r < v < r ==> Trunc(v, r) == 0
    ensures v == r || v == -r ==> v - Trunc(v, r) * r == 0
  {
    if v == r {
      DivModUnique(v, r, 1, 0);
    } else if v == -r {
      DivModUnique(-v, r, 1, 0);
    } else {
      TruncBounds(v, r);
    }
  }

  lemma {:induction false} RippleStep(old': seq<limb>, before: seq<limb>, after: seq<limb>, i: nat, over: int)
    requires |old'| == 10 && |before| == |after| == 11 && i < 10
    requires Carried(before, after, i, over) && Pending(old', before, i) && Ripple(old', before, i)
    ensures Ripple(old', after, i + 1)
  {
    if Nearly(old') {
      UnitCarry(before[i] as int, Radix(i));
      assert i < 2 ==> Within(before[i], Radix(i) - 1);
      assert i > 2 && before[2] != 0 ==> Within(before[i], Radix(i) - 1);
    }
  }

  method FReducePass(output: array<limb>)
    requires output.Length >= 11 && forall k :: 0 <= k < 10 ==> Within(output[k], 0x4000_0000_0000_0000)
    requires output[10] == 0
    modifies output
    ensures Total(output[..11]) == old(Total(output[..11]))
    ensures forall k :: 0 <= k < 10 ==> Within(output[k], Radix(k) - 1)
    ensures Within(output[10], 0x20_0000_2000)
    ensures Nearly(old(output[..10])) ==> Within(output[10], 1) && (output[10] != 0 ==> output[2] == 0)
    ensures forall k :: 11 <= k < output.Length ==> output[k] == old(output[k])
  {
    ghost var s := output[..10];
    for j := 0 to 5
      invariant Total(output[..11]) == old(Total(output[..11])) && Chained(s, output[..11], j)
      invariant forall k :: 11 <= k < output.Length ==> output[k] == old(output[k])
    {
      CarryTwo(output, j, s);
    }
    ChainDone(s, output[..11]);
  }

  /** After j rounds of the chain. */
  ghost predicate Chained(old': seq<limb>, now: seq<limb>, j: nat) {
    && |old'| == 10 && |now| == 11 && j <= 5
    && (forall k :: 0 <= k < 10 ==> Within(old'[k], 0x4000_0000_0000_0000))
    && (forall k :: 0 <= k < 2 * j ==> Within(now[k], Radix(k) - 1))
    && Pending(old', now, 2 * j) && Ripple(old', now, 2 * j)
  }

  lemma {:induction false} ChainDone(old': seq<limb>, now: seq<limb>)
    requires Chained(old', now, 5)
    ensures forall k :: 0 <= k < 10 ==> Within(now[k], Radix(k) - 1)
    ensures Within(now[10], 0x20_0000_2000)
    ensures Nearly(old') ==> Within(now[10], 1) && (now[10] != 0 ==> now[2] == 0)
  {
  }

  lemma {:induction false} NextRound(old': seq<limb>, before: seq<limb>, now: seq<limb>, j: nat, i: nat)
    requires j < 5 && i == 2 * j && Chained(old', before, j) && |now| == 11
    requires Pending(old', now, i + 2) && Ripple(old', now, i + 2)
    requires Within(now[i], Radix(i) - 1) && Within(now[i + 1], Radix(i + 1) - 1)
    requires forall k :: 0 <= k < i ==> now[k] == before[k]
    ensures Chained(old', now, j + 1)
  {
    assert i + 2 == 2 * (j + 1);
    forall k | 0 <= k < i + 2 ensures Within(now[k], Radix(k) - 1) {
      if k < i { assert Within(before[k], Radix(k) - 1); }
    }
  }

  /** One round of the chain: from limb i = 2j to limb i+1 and from there to limb i+2. */
  method CarryTwo(output: array<limb>, j: nat, ghost s: seq<limb>)
    requires output.Length >= 11 && j < 5 && Chained(s, output[..11], j)
    modifies output
    ensures Total(output[..11]) == old(Total(output[..11])) && Chained(s, output[..11], j + 1)
    ensures forall k :: 11 <= k < output.Length ==> output[k] == old(output[k])
  {
    var i := 2 * j;
    ghost var before := output[..11];
    CarryOn(output, i, s);
    CarryOn(output, i + 1, s);
    NextRound(s, before, output[..11], j, i);
  }

  /** A carry inside the chain. */
  method CarryOn(output: array<limb>, i: nat, ghost s: seq<limb>)
    requires output.Length >= 11 && i < 10 && |s| == 10
    requires forall k :: 0 <= k < 10 ==> Within(s[k], 0x4000_0000_0000_0000)
    requires Pending(s, output[..11], i) && Ripple(s, output[..11], i)
    modifies output
    ensures Total(output[..11]) == old(Total(output[..11]))
    ensures Pending(s, output[..11], i + 1) && Ripple(s, output[..11], i + 1)
    ensures Within(output[i], Radix(i) - 1)
    ensures forall k :: 0 <= k < output.Length && k != i && k != i + 1 ==> output[k] == old(output[k])
  {
    ghost var before := output[..11];
    assert before[i + 1] == if i + 1 < 10 then s[i + 1] else 0;
    ghost var over := Carry(output, i);
    ghost var after := output[..11];
    assert Carried(before, after, i, over);
    PendingStep(s, before, after, i, over);
    RippleStep(s, before, after, i, over);
  }

  /* ---- the whole reduction ---- */

  /** With limb 10 empty, eleven limbs stand for the same number as ten. */
  lemma {:induction false} EmptyTop(s: seq<limb>, t: seq<limb>)
    requires |s| == 11 && s[10] == 0 && t == s[..10]
    ensures Total(s) == Total(t)
  {
    var n := |t|;
    assert V(s, |s|) == V(s, n) + W(n) * s[n] as int;
    SamePrefix(s, t, n);
  }

  /** output[0] += 19 * output[10] by shifts; output[10] = 0. */
  method WrapAround(output: array<limb>)
    requires output.Length >= 11 && Within(output[0], 0x400_0000) && Within(output[10], 0x20_0000_2000)
    modifies output
    ensures Total(output[..11]) % P == old(Total(output[..11])) % P
    ensures output[0] as int == old(output[0]) as int + 19 * old(output[10]) as int && output[10] == 0
    ensures forall k :: 0 <= k < output.Length && k != 0 && k != 10 ==> output[k] == old(output[k])
  {
    ghost var s := output[..11];
    output[0] := output[0] + output[10] * 16;
    output[0] := output[0] + output[10] * 2;
    output[0] := output[0] + output[10];
    output[10] := 0;
    WrapTop(s, output[0], |s| - 1);
    assert output[..11] == s[0 := output[0]][|s| - 1 := 0];
  }

  /** The last carry, out of limb 1, in 32-bit arithmetic. */
  method CarryS32(output: array<limb>)
    requires output.Length >= 11 && Within(output[1], 0x201_3001) && Within(output[2], 0x3ff_ffff)
    modifies output
    ensures Total(output[..11]) == old(Total(output[..11]))
    ensures Within(output[1], 0x1ff_ffff)
    ensures -1 <= output[2] as int - old(output[2]) as int <= 1
    ensures Within(old(output[1]), 0x1ff_ffff) ==> output[2] == old(output[2])
    ensures forall k :: 0 <= k < output.Length && k != 1 && k != 2 ==> output[k] == old(output[k])
  {
    ghost var s := output[..11];
    TruncBounds(output[1] as int, 0x200_0000);
    var over32 := DivS32By2_25(S32(output[1]));
    output[1] := output[1] - over32 * 0x200_0000;
    output[2] := output[2] + over32;
    ghost var i := |s| - 10;
    CarryKeepsValue(s, i, output[1], output[2], over32 as int, |s|);
    assert output[..11] == s[i := output[1]][i + 1 := output[2]];
  }

  /** What is left to do after the carry chain. */
  method FReduceTail(output: array<limb>)
    requires output.Length >= 11 && forall k :: 0 <= k < 10 ==> Within(output[k], Radix(k) - 1)
    requires Within(output[10], 0x20_0000_2000)
    modifies output
    ensures Total(output[..11]) % P == old(Total(output[..11])) % P
    ensures Nearly(output[..10]) && output[10] == 0
    ensures old(output[10]) == 0 || old(output[2]) == 0 ==> Strict(output[..10])
    ensures forall k :: 11 <= k < output.Length ==> output[k] == old(output[k])
  {
    ghost var two := output[2];
    ghost var top := output[10];
    WrapAround(output);
    ghost var over := Carry(output, 0);
    TailCarry(output[0] as int + over * 0x400_0000, over, top as int);
    CarryS32(output);
    assert Within(output[2], 0x400_0000);
  }

  lemma {:induction false} TailCarry(v: int, over: int, top: int)
    requires over == Trunc(v, 0x400_0000) && -0x3ff_ffff + 19 * top <= v <= 0x3ff_ffff + 19 * top
    requires -0x20_0000_2000 <= top <= 0x20_0000_2000
    ensures -0x1_3001 <= over <= 0x1_3001
    ensures top == 0 ==> over == 0
  {
    TruncBounds(v, 0x400_0000);
  }

  /** Brings all coefficients back into range without changing the field element. */
  method FReduceCoefficients(output: array<limb>)
    requires output.Length >= 11 && forall k :: 0 <= k < 10 ==> Within(output[k], 0x4000_0000_0000_0000)
    modifies output
    ensures Fe(output[..10]) == Fe(old(output[..10]))
    ensures Nearly(output[..10]) && output[10] == 0
    ensures Nearly(old(output[..10])) ==> Strict(output[..10])
    ensures forall k :: 11 <= k < output.Length ==> output[k] == old(output[k])
  {
    ghost var start := output[..10];
    output[10] := 0;
    assert output[..11][..10] == output[..10] == start;
    EmptyTop(output[..11], start);
    FReducePass(output);
    FReduceTail(output);
    assert output[..11][..10] == output[..10];
    EmptyTop(output[..11], output[..10]);
  }

  /* ---- field operations in reduced form ---- */

  lemma {:induction false} CoeffsBounded(z: seq<limb>, x: seq<limb>, y: seq<limb>)
    requires |z| == 19 && Coeffs(z, 0, x, y)
    ensures forall k :: 0 <= k < 19 ==> Within(z[k], CoeffBound(k))
  {
    forall k | 0 <= k < 19 ensures Within(z[k], CoeffBound(k)) {
      assert IsCoeff(z[k], x, y, 0 + k);
    }
  }

  /** Long form and degree reduction together compute the product in the field. */
  lemma {:induction false} ProductFe(x: seq<limb>, y: seq<limb>, z: seq<limb>, r: seq<limb>)
    requires |x| == |y| == 10 && |z| == 19 && |r| == 10 && Coeffs(z, 0, x, y) && r[9] == z[9]
    requires forall i :: 0 <= i < 9 ==> r[i] as int == z[i] as int + 19 * z[10 + i] as int
    ensures Fe(r) == Mul(Fe(x), Fe(y))
  {
    forall k | 0 <= k < |z| ensures z[k] as int == Coeff(x, y, k, |x|) {
      assert IsCoeff(z[k], x, y, 0 + k);
    }
    ProductValue(x, y, z);
    FoldDegree(z, r);
    ModMul(V(x, |x|), V(y, |y|), P);
  }

  /** Degree and coefficient reduction of a long form in place. */
  method Shorten(t: array<limb>, ghost x: seq<limb>, ghost y: seq<limb>)
    requires t.Length >= 19 && |x| == |y| == 10 && Coeffs(t[..19], 0, x, y)
    modifies t
    ensures Fe(t[..10]) == Mul(Fe(x), Fe(y)) && Nearly(t[..10])
  {
    ghost var z := t[..19];
    CoeffsBounded(z, x, y);
    assert forall k :: 0 <= k < 19 ==> t[k] == z[k];
    FReduceDegree(t);
    ProductFe(x, y, z, t[..10]);
    FReduceCoefficients(t);
  }

  /** output = in1 * in2. */
  method FMul(output: array<limb>, in1: array<limb>, in2: array<limb>)
    requires output.Length >= 10 && in1.Length >= 10 && in2.Length >= 10 && output != in1 && output != in2
    requires Loose(in1[..10]) && Loose(in2[..10])
    modifies output
    ensures Fe(output[..10]) == Mul(Fe(in1[..10]), Fe(in2[..10])) && Nearly(output[..10])
    ensures forall k :: 10 <= k < output.Length ==> output[k] == old(output[k])
  {
    var t := new limb[19];
    FProduct(t, in1, in2);
    Shorten(t, in1[..10], in2[..10]);
    Store(output, 0, t[..10]);
    assert output[..10] == t[..10];
  }

  /** output = in1 * in1; `fsquare` is called with distinct arrays only. */
  method FSquare(output: array<limb>, in1: array<limb>)
    requires output.Length >= 10 && in1.Length >= 10 && output != in1
    requires Loose(in1[..10])
    modifies output
    ensures Fe(output[..10]) == Mul(Fe(in1[..10]), Fe(in1[..10])) && Nearly(output[..10])
    ensures forall k :: 10 <= k < output.Length ==> output[k] == old(output[k])
  {
    var t := new limb[19];
    FSquareInner(t, in1);
    Shorten(t, in1[..10], in1[..10]);
    Store(output, 0, t[..10]);
    assert output[..10] == t[..10];
  }
}
