/** The in-place field operations of curve25519-donna.c, on arrays of limbs. */
module Field {
  import opened Limbs

  /* ---- bounds ---- */

  predicate Within(v: limb, b: int) {
    -b <= v as int <= b
  }

  /** |even limbs| <= e and |odd limbs| <= o. */
  predicate Bounded(s: seq<limb>, e: int, o: int) {
    |s| == 10 && forall i :: 0 <= i < 10 ==> Within(s[i], if i % 2 == 0 then e else o)
  }

  /** What `fproduct` accepts: sums and differences of two reduced elements. */
  predicate Loose(s: seq<limb>) { Bounded(s, 0x800_0000, 0x400_0000) }

  /* ---- multiplication ---- */

  /** The cast (s32). */
  function S32(v: limb): (r: limb)
    ensures -0x8000_0000 <= r < 0x8000_0000
    ensures -0x8000_0000 <= v < 0x8000_0000 ==> r == v
  {
    if -0x8000_0000 <= v < 0x8000_0000 then v
    else ((v as int + 0x8000_0000) % 0x1_0000_0000 - 0x8000_0000) as limb
  }

  lemma {:induction false} ProductBound(a: int, b: int, m: int, n: int)
    requires -m <= a <= m && -n <= b <= n
    ensures -(m * n) <= a * b <= m * n
  {
    if a >= 0 {
      if b >= 0 { Monotone(a, m, b, n); } else { Monotone(a, m, -b, n); }
    } else {
      if b >= 0 { Monotone(-a, m, b, n); } else { Monotone(-a, m, -b, n); }
    }
  }

  lemma {:induction false} Monotone(a: int, m: int, b: int, n: int)
    requires 0 <= a <= m && 0 <= b <= n
    ensures 0 <= a * b <= m * n
  {
    assert a * b <= m * b <= m * n;
  }

  /** (limb) (s32) a * (s32) b. */
  function Prod(a: limb, b: limb): (r: limb)
    ensures Within(a, 0x800_0000) && Within(b, 0x800_0000) ==>
              r as int == a as int * b as int && Within(r, 0x40_0000_0000_0000)
    ensures Within(a, 0x400_0000) && Within(b, 0x400_0000) ==> Within(r, 0x10_0000_0000_0000)
  {
    var x, y := S32(a) as int, S32(b) as int;
    ProductBound(x, y, 0x8000_0000, 0x8000_0000);
    assert Within(a, 0x800_0000) && Within(b, 0x800_0000) ==> -0x40_0000_0000_0000 <= x * y <= 0x40_0000_0000_0000 by {
      if Within(a, 0x800_0000) && Within(b, 0x800_0000) { ProductBound(x, y, 0x800_0000, 0x800_0000); }
    }
    assert Within(a, 0x400_0000) && Within(b, 0x400_0000) ==> -0x10_0000_0000_0000 <= x * y <= 0x10_0000_0000_0000 by {
      if Within(a, 0x400_0000) && Within(b, 0x400_0000) { ProductBound(x, y, 0x400_0000, 0x400_0000); }
    }
    (x * y) as limb
  }

  /** Limb k of a product: the exact coefficient, with at most 2^54 per term. */
  ghost predicate IsCoeff(v: limb, x: seq<limb>, y: seq<limb>, k: nat) {
    && v as int == Coeff(x, y, k, |x|)
    && Within(v, 0x40_0000_0000_0000 * (if k < 10 then k + 1 else 19 - k))
  }

  /** Consecutive limbs of a product, starting with limb lo. */
  ghost predicate Coeffs(z: seq<limb>, lo: nat, x: seq<limb>, y: seq<limb>) {
    forall i :: 0 <= i < |z| ==> IsCoeff(z[i], x, y, lo + i)
  }

  lemma {:induction false} CoeffsJoin(a: seq<limb>, b: seq<limb>, lo: nat, x: seq<limb>, y: seq<limb>)
    requires Coeffs(a, lo, x, y) && Coeffs(b, lo + |a|, x, y)
    ensures Coeffs(a + b, lo, x, y)
  {
    forall i | 0 <= i < |a + b| ensures IsCoeff((a + b)[i], x, y, lo + i) {
      if i >= |a| { assert IsCoeff(b[i - |a|], x, y, lo + |a| + (i - |a|)); }
    }
  }

  /** Writes limbs into an array, in order. */
  method Store(output: array<limb>, lo: nat, z: seq<limb>)
    requires lo + |z| <= output.Length
    modifies output
    ensures output[lo..lo + |z|] == z
    ensures forall k :: 0 <= k < output.Length && !(lo <= k < lo + |z|) ==> output[k] == old(output[k])
  {
    for i := 0 to |z|
      invariant output[lo..lo + i] == z[..i]
      invariant forall k :: 0 <= k < output.Length && !(lo <= k < lo + i) ==> output[k] == old(output[k])
    {
      output[lo + i] := z[i];
      assert output[lo..lo + i + 1] == output[lo..lo + i] + [z[i]];
    }
  }

  method ProductLimbs0(x: seq<limb>, y: seq<limb>) returns (z: seq<limb>)
    requires Loose(x) && Loose(y)
    ensures |z| == 3 && Coeffs(z, 0, x, y)
  {
    var z0 := Prod(x[0], y[0]);
    assert Coeff(x, y, 0, 10) == z0 as int;
    var z1 := Prod(x[0], y[1]) + Prod(x[1], y[0]);
    assert Coeff(x, y, 1, 10) == z1 as int;
    var z2 := 2 * Prod(x[1], y[1]) + Prod(x[0], y[2]) + Prod(x[2], y[0]);
    assert Coeff(x, y, 2, 10) == z2 as int;
    z := [z0, z1, z2];
  }

  method ProductLimbs1(x: seq<limb>, y: seq<limb>) returns (z: seq<limb>)
    requires Loose(x) && Loose(y)
    ensures |z| == 1 && Coeffs(z, 3, x, y)
  {
    var z3 := Prod(x[1], y[2]) + Prod(x[2], y[1]) + Prod(x[0], y[3]) + Prod(x[3], y[0]);
    assert Coeff(x, y, 3, 10) == z3 as int;
    z := [z3];
  }

  method ProductLimbs2(x: seq<limb>, y: seq<limb>) returns (z: seq<limb>)
    requires Loose(x) && Loose(y)
    ensures |z| == 2 && Coeffs(z, 4, x, y)
  {
    var z4 := Prod(x[2], y[2]) + 2 * (Prod(x[1], y[3]) + Prod(x[3], y[1])) + Prod(x[0], y[4]) +
      Prod(x[4], y[0]);
    assert Coeff(x, y, 4, 10) == z4 as int;
    var z5 := Prod(x[2], y[3]) + Prod(x[3], y[2]) + Prod(x[1], y[4]) + Prod(x[4], y[1]) +
      Prod(x[0], y[5]) + Prod(x[5], y[0]);
    assert Coeff(x, y, 5, 10) == z5 as int;
    z := [z4, z5];
  }

  method ProductLimbs3(x: seq<limb>, y: seq<limb>) returns (z: seq<limb>)
    requires Loose(x) && Loose(y)
    ensures |z| == 2 && Coeffs(z, 6, x, y)
  {
    var z6 := 2 * (Prod(x[3], y[3]) + Prod(x[1], y[5]) + Prod(x[5], y[1])) + Prod(x[2], y[4]) +
      Prod(x[4], y[2]) + Prod(x[0], y[6]) + Prod(x[6], y[0]);
    assert Coeff(x, y, 6, 10) == z6 as int;
    var z7 := Prod(x[3], y[4]) + Prod(x[4], y[3]) + Prod(x[2], y[5]) + Prod(x[5], y[2]) +
      Prod(x[1], y[6]) + Prod(x[6], y[1]) + Prod(x[0], y[7]) + Prod(x[7], y[0]);
    assert Coeff(x, y, 7, 10) == z7 as int;
    z := [z6, z7];
  }

  method ProductLimbs4(x: seq<limb>, y: seq<limb>) returns (z: seq<limb>)
    requires Loose(x) && Loose(y)
    ensures |z| == 1 && Coeffs(z, 8, x, y)
  {
    var z8 := Prod(x[4], y[4]) + 2 * (Prod(x[3], y[5]) + Prod(x[5], y[3]) + Prod(x[1], y[7]) +
      Prod(x[7], y[1])) + Prod(x[2], y[6]) + Prod(x[6], y[2]) + Prod(x[0], y[8]) + Prod(x[8], y[0]);
    assert Coeff(x, y, 8, 10) == z8 as int;
    z := [z8];
  }

  method ProductLimbs5(x: seq<limb>, y: seq<limb>) returns (z: seq<limb>)
    requires Loose(x) && Loose(y)
    ensures |z| == 1 && Coeffs(z, 9, x, y)
  {
    var z9 := Prod(x[4], y[5]) + Prod(x[5], y[4]) + Prod(x[3], y[6]) + Prod(x[6], y[3]) +
      Prod(x[2], y[7]) + Prod(x[7], y[2]) + Prod(x[1], y[8]) + Prod(x[8], y[1]) + Prod(x[0], y[9]) +
      Prod(x[9], y[0]);
    assert Coeff(x, y, 9, 10) == z9 as int;
    z := [z9];
  }

  method ProductLimbs6(x: seq<limb>, y: seq<limb>) returns (z: seq<limb>)
    requires Loose(x) && Loose(y)
    ensures |z| == 1 && Coeffs(z, 10, x, y)
  {
    var z10 := 2 * (Prod(x[5], y[5]) + Prod(x[3], y[7]) + Prod(x[7], y[3]) + Prod(x[1], y[9]) +
      Prod(x[9], y[1])) + Prod(x[4], y[6]) + Prod(x[6], y[4]) + Prod(x[2], y[8]) + Prod(x[8], y[2]);
    assert Coeff(x, y, 10, 10) == z10 as int;
    z := [z10];
  }

  method ProductLimbs7(x: seq<limb>, y: seq<limb>) returns (z: seq<limb>)
    requires Loose(x) && Loose(y)
    ensures |z| == 2 && Coeffs(z, 11, x, y)
  {
    var z11 := Prod(x[5], y[6]) + Prod(x[6], y[5]) + Prod(x[4], y[7]) + Prod(x[7], y[4]) +
      Prod(x[3], y[8]) + Prod(x[8], y[3]) + Prod(x[2], y[9]) + Prod(x[9], y[2]);
    assert Coeff(x, y, 11, 10) == z11 as int;
    var z12 := Prod(x[6], y[6]) + 2 * (Prod(x[5], y[7]) + Prod(x[7], y[5]) + Prod(x[3], y[9]) +
      Prod(x[9], y[3])) + Prod(x[4], y[8]) + Prod(x[8], y[4]);
    assert Coeff(x, y, 12, 10) == z12 as int;
    z := [z11, z12];
  }

  method ProductLimbs8(x: seq<limb>, y: seq<limb>) returns (z: seq<limb>)
    requires Loose(x) && Loose(y)
    ensures |z| == 3 && Coeffs(z, 13, x, y)
  {
    var z13 := Prod(x[6], y[7]) + Prod(x[7], y[6]) + Prod(x[5], y[8]) + Prod(x[8], y[5]) +
      Prod(x[4], y[9]) + Prod(x[9], y[4]);
    assert Coeff(x, y, 13, 10) == z13 as int;
    var z14 := 2 * (Prod(x[7], y[7]) + Prod(x[5], y[9]) + Prod(x[9], y[5])) + Prod(x[6], y[8]) +
      Prod(x[8], y[6]);
    assert Coeff(x, y, 14, 10) == z14 as int;
    var z15 := Prod(x[7], y[8]) + Prod(x[8], y[7]) + Prod(x[6], y[9]) + Prod(x[9], y[6]);
    assert Coeff(x, y, 15, 10) == z15 as int;
    z := [z13, z14, z15];
  }

  method ProductLimbs9(x: seq<limb>, y: seq<limb>) returns (z: seq<limb>)
    requires Loose(x) && Loose(y)
    ensures |z| == 3 && Coeffs(z, 16, x, y)
  {
    var z16 := Prod(x[8], y[8]) + 2 * (Prod(x[7], y[9]) + Prod(x[9], y[7]));
    assert Coeff(x, y, 16, 10) == z16 as int;
    var z17 := Prod(x[8], y[9]) + Prod(x[9], y[8]);
    assert Coeff(x, y, 17, 10) == z17 as int;
    var z18 := 2 * Prod(x[9], y[9]);
    assert Coeff(x, y, 18, 10) == z18 as int;
    z := [z16, z17, z18];
  }

  method ProductLimbsLow(x: seq<limb>, y: seq<limb>) returns (z: seq<limb>)
    requires Loose(x) && Loose(y)
    ensures |z| == 9 && Coeffs(z, 0, x, y)
  {
    z := ProductLimbs0(x, y);
    var more := ProductLimbs1(x, y);
    CoeffsJoin(z, more, 0, x, y);
    z := z + more;
    more := ProductLimbs2(x, y);
    CoeffsJoin(z, more, 0, x, y);
    z := z + more;
    more := ProductLimbs3(x, y);
    CoeffsJoin(z, more, 0, x, y);
    z := z + more;
    more := ProductLimbs4(x, y);
    CoeffsJoin(z, more, 0, x, y);
    z := z + more;
  }

  method ProductLimbsHigh(x: seq<limb>, y: seq<limb>) returns (z: seq<limb>)
    requires Loose(x) && Loose(y)
    ensures |z| == 10 && Coeffs(z, 9, x, y)
  {
    z := ProductLimbs5(x, y);
    var more := ProductLimbs6(x, y);
    CoeffsJoin(z, more, 9, x, y);
    z := z + more;
    more := ProductLimbs7(x, y);
    CoeffsJoin(z, more, 9, x, y);
    z := z + more;
    more := ProductLimbs8(x, y);
    CoeffsJoin(z, more, 9, x, y);
    z := z + more;
    more := ProductLimbs9(x, y);
    CoeffsJoin(z, more, 9, x, y);
    z := z + more;
  }

  method ProductLimbs(x: seq<limb>, y: seq<limb>) returns (z: seq<limb>)
    requires Loose(x) && Loose(y)
    ensures |z| == 19 && Coeffs(z, 0, x, y)
  {
    z := ProductLimbsLow(x, y);
    var more := ProductLimbsHigh(x, y);
    CoeffsJoin(z, more, 0, x, y);
    z := z + more;
  }

  /** output = in2 * in1, long form. */
  method FProduct(output: array<limb>, in2: array<limb>, in1: array<limb>)
    requires output.Length >= 19 && in1.Length >= 10 && output != in1
    requires in2.Length >= 10 && output != in2
    requires Loose(in1[..10]) && Loose(in2[..10])
    modifies output
    ensures Coeffs(output[..19], 0, in2[..10], in1[..10])
    ensures forall k :: 19 <= k < output.Length ==> output[k] == old(output[k])
  {
    var z := ProductLimbs(in2[..10], in1[..10]);
    Store(output, 0, z);
    assert output[..19] == z;
  }

  method SquareLimbs0(x: seq<limb>) returns (z: seq<limb>)
    requires Loose(x)
    ensures |z| == 3 && Coeffs(z, 0, x, x)
  {
    var z0 := Prod(x[0], x[0]);
    assert Coeff(x, x, 0, 10) == z0 as int;
    var z1 := 2 * Prod(x[0], x[1]);
    assert Coeff(x, x, 1, 10) == z1 as int;
    var z2 := 2 * (Prod(x[1], x[1]) + Prod(x[0], x[2]));
    assert Coeff(x, x, 2, 10) == z2 as int;
    z := [z0, z1, z2];
  }

  method SquareLimbs1(x: seq<limb>) returns (z: seq<limb>)
    requires Loose(x)
    ensures |z| == 2 && Coeffs(z, 3, x, x)
  {
    var z3 := 2 * (Prod(x[1], x[2]) + Prod(x[0], x[3]));
    assert Coeff(x, x, 3, 10) == z3 as int;
    var z4 := Prod(x[2], x[2]) + 4 * Prod(x[1], x[3]) + 2 * Prod(x[0], x[4]);
    assert Coeff(x, x, 4, 10) == z4 as int;
    z := [z3, z4];
  }

  method SquareLimbs2(x: seq<limb>) returns (z: seq<limb>)
    requires Loose(x)
    ensures |z| == 2 && Coeffs(z, 5, x, x)
  {
    var z5 := 2 * (Prod(x[2], x[3]) + Prod(x[1], x[4]) + Prod(x[0], x[5]));
    assert Coeff(x, x, 5, 10) == z5 as int;
    var z6 := 2 * (Prod(x[3], x[3]) + Prod(x[2], x[4]) + Prod(x[0], x[6]) + 2 * Prod(x[1], x[5]));
    assert Coeff(x, x, 6, 10) == z6 as int;
    z := [z5, z6];
  }

  method SquareLimbs3(x: seq<limb>) returns (z: seq<limb>)
    requires Loose(x)
    ensures |z| == 2 && Coeffs(z, 7, x, x)
  {
    var z7 := 2 * (Prod(x[3], x[4]) + Prod(x[2], x[5]) + Prod(x[1], x[6]) + Prod(x[0], x[7]));
    assert Coeff(x, x, 7, 10) == z7 as int;
    var z8 := Prod(x[4], x[4]) + 2 * (Prod(x[2], x[6]) + Prod(x[0], x[8]) + 2 * (Prod(x[1], x[7]) +
      Prod(x[3], x[5])));
    assert Coeff(x, x, 8, 10) == z8 as int;
    z := [z7, z8];
  }

  method SquareLimbs4(x: seq<limb>) returns (z: seq<limb>)
    requires Loose(x)
    ensures |z| == 2 && Coeffs(z, 9, x, x)
  {
    var z9 := 2 * (Prod(x[4], x[5]) + Prod(x[3], x[6]) + Prod(x[2], x[7]) + Prod(x[1], x[8]) +
      Prod(x[0], x[9]));
    assert Coeff(x, x, 9, 10) == z9 as int;
    var z10 := 2 * (Prod(x[5], x[5]) + Prod(x[4], x[6]) + Prod(x[2], x[8]) + 2 * (Prod(x[3], x[7]) +
      Prod(x[1], x[9])));
    assert Coeff(x, x, 10, 10) == z10 as int;
    z := [z9, z10];
  }

  method SquareLimbs5(x: seq<limb>) returns (z: seq<limb>)
    requires Loose(x)
    ensures |z| == 2 && Coeffs(z, 11, x, x)
  {
    var z11 := 2 * (Prod(x[5], x[6]) + Prod(x[4], x[7]) + Prod(x[3], x[8]) + Prod(x[2], x[9]));
    assert Coeff(x, x, 11, 10) == z11 as int;
    var z12 := Prod(x[6], x[6]) + 2 * (Prod(x[4], x[8]) + 2 * (Prod(x[5], x[7]) + Prod(x[3], x[9])));
    assert Coeff(x, x, 12, 10) == z12 as int;
    z := [z11, z12];
  }

  method SquareLimbs6(x: seq<limb>) returns (z: seq<limb>)
    requires Loose(x)
    ensures |z| == 6 && Coeffs(z, 13, x, x)
  {
    var z13 := 2 * (Prod(x[6], x[7]) + Prod(x[5], x[8]) + Prod(x[4], x[9]));
    assert Coeff(x, x, 13, 10) == z13 as int;
    var z14 := 2 * (Prod(x[7], x[7]) + Prod(x[6], x[8]) + 2 * Prod(x[5], x[9]));
    assert Coeff(x, x, 14, 10) == z14 as int;
    var z15 := 2 * (Prod(x[7], x[8]) + Prod(x[6], x[9]));
    assert Coeff(x, x, 15, 10) == z15 as int;
    var z16 := Prod(x[8], x[8]) + 4 * Prod(x[7], x[9]);
    assert Coeff(x, x, 16, 10) == z16 as int;
    var z17 := 2 * Prod(x[8], x[9]);
    assert Coeff(x, x, 17, 10) == z17 as int;
    var z18 := 2 * Prod(x[9], x[9]);
    assert Coeff(x, x, 18, 10) == z18 as int;
    z := [z13, z14, z15, z16, z17, z18];
  }

  method SquareLimbsLow(x: seq<limb>) returns (z: seq<limb>)
    requires Loose(x)
    ensures |z| == 7 && Coeffs(z, 0, x, x)
  {
    z := SquareLimbs0(x);
    var more := SquareLimbs1(x);
    CoeffsJoin(z, more, 0, x, x);
    z := z + more;
    more := SquareLimbs2(x);
    CoeffsJoin(z, more, 0, x, x);
    z := z + more;
  }

  method SquareLimbsHigh(x: seq<limb>) returns (z: seq<limb>)
    requires Loose(x)
    ensures |z| == 12 && Coeffs(z, 7, x, x)
  {
    z := SquareLimbs3(x);
    var more := SquareLimbs4(x);
    CoeffsJoin(z, more, 7, x, x);
    z := z + more;
    more := SquareLimbs5(x);
    CoeffsJoin(z, more, 7, x, x);
    z := z + more;
    more := SquareLimbs6(x);
    CoeffsJoin(z, more, 7, x, x);
    z := z + more;
  }

  method SquareLimbs(x: seq<limb>) returns (z: seq<limb>)
    requires Loose(x)
    ensures |z| == 19 && Coeffs(z, 0, x, x)
  {
    z := SquareLimbsLow(x);
    var more := SquareLimbsHigh(x);
    CoeffsJoin(z, more, 0, x, x);
    z := z + more;
  }

  /** output = in1 * in1, limb for limb what `FProduct` computes. */
  method FSquareInner(output: array<limb>, in1: array<limb>)
    requires output.Length >= 19 && in1.Length >= 10 && output != in1
    requires Loose(in1[..10])
    modifies output
    ensures Coeffs(output[..19], 0, in1[..10], in1[..10])
    ensures forall k :: 19 <= k < output.Length ==> output[k] == old(output[k])
  {
    var z := SquareLimbs(in1[..10]);
    Store(output, 0, z);
    assert output[..19] == z;
  }

  /* ---- reduction ---- */

  function CoeffBound(k: nat): int { 0x40_0000_0000_0000 * (if k < 10 then k + 1 else 19 - k) }

  /** output[k] += 19 * output[10 + k], by shifts and adds. */
  method FoldLimb(output: array<limb>, k: nat)
    requires output.Length >= 19 && k < 9
    requires Within(output[k], CoeffBound(k)) && Within(output[10 + k], CoeffBound(10 + k))
    modifies output
    ensures output[k] as int == old(output[k]) as int + 19 * old(output[10 + k]) as int
    ensures forall i :: 0 <= i < output.Length && i != k ==> output[i] == old(output[i])
  {
    output[k] := output[k] + output[10 + k] * 16;
    output[k] := output[k] + output[10 + k] * 2;
    output[k] := output[k] + output[10 + k];
  }

  /** Folds limbs 10-18 onto limbs 0-8. */
  method FReduceDegree(output: array<limb>)
    requires output.Length >= 19 && forall k :: 0 <= k < 19 ==> Within(output[k], CoeffBound(k))
    modifies output
    ensures forall i :: 0 <= i < 9 ==> output[i] as int == old(output[i]) as int + 19 * old(output[10 + i]) as int
    ensures forall i :: 9 <= i < output.Length ==> output[i] == old(output[i])
    ensures forall i :: 0 <= i < 10 ==> Within(output[i], 0x2b00_0000_0000_0000)
  {
    FoldLimb(output, 8);
    FoldLimb(output, 7);
    FoldLimb(output, 6);
    FoldLimb(output, 5);
    FoldLimb(output, 4);
    FoldLimb(output, 3);
    FoldLimb(output, 2);
    FoldLimb(output, 1);
    FoldLimb(output, 0);
  }
}
