/** The Montgomery ladder of curve25519-donna.c: `fmonty`, `swap_conditional` and `cmult`. */
module Ladder {
  import opened ModArith
  import opened Limbs
  import opened Field
  import opened Reduce
  import opened Rfc7748

  /* ---- sums, differences, multiples ---- */

  function LooseBound(i: nat): int { if i % 2 == 0 then 0x800_0000 else 0x400_0000 }

  function Abs(v: limb): int { if v >= 0 then v as int else -(v as int) }

  /** x + y and x - y stay loose. */
  ghost predicate Fits(x: seq<limb>, y: seq<limb>) {
    |x| == |y| == 10 && forall i :: 0 <= i < 10 ==> Abs(x[i]) + Abs(y[i]) <= LooseBound(i)
  }

  lemma {:induction false} NearlyFits(x: seq<limb>, y: seq<limb>)
    requires Nearly(x) && Nearly(y)
    ensures Fits(x, y) && Loose(x) && Loose(y)
  {
    forall i | 0 <= i < 10 ensures Abs(x[i]) + Abs(y[i]) <= LooseBound(i) {}
  }

  lemma {:induction false} SumValue(x: seq<limb>, y: seq<limb>, z: seq<limb>, n: nat)
    requires n <= |x| && n <= |y| && n <= |z|
    requires forall i :: 0 <= i < n ==> z[i] as int == x[i] as int + y[i] as int
    ensures V(z, n) == V(x, n) + V(y, n)
    decreases n
  {
    if n > 0 {
      SumValue(x, y, z, n - 1);
      Spread(W(n - 1), x[n - 1] as int, y[n - 1] as int);
    }
  }

  lemma {:induction false} SumFe(x: seq<limb>, y: seq<limb>, z: seq<limb>)
    requires |x| == |y| == |z|
    requires forall i :: 0 <= i < |z| ==> z[i] as int == x[i] as int + y[i] as int
    ensures Fe(z) == Add(Fe(x), Fe(y))
  {
    SumValue(x, y, z, |z|);
    SumMod(V(x, |x|), V(y, |y|), V(z, |z|));
  }

  lemma {:induction false} SumMod(a: int, b: int, c: int)
    requires c == a + b
    ensures c % P == Add(a % P, b % P) && a % P == Sub(c % P, b % P)
  {
    ModAdd(a, b, P);
    ModSub(c, b, P);
  }

  lemma {:induction false} DifferenceFe(x: seq<limb>, y: seq<limb>, z: seq<limb>)
    requires |x| == |y| == |z|
    requires forall i :: 0 <= i < |z| ==> z[i] as int == x[i] as int - y[i] as int
    ensures Fe(z) == Sub(Fe(x), Fe(y))
  {
    SumValue(z, y, x, |z|);
    SumMod(V(z, |z|), V(y, |y|), V(x, |x|));
  }

  lemma {:induction false} MultipleValue(x: seq<limb>, z: seq<limb>, c: int, n: nat)
    requires n <= |x| && n <= |z|
    requires forall i :: 0 <= i < n ==> z[i] as int == x[i] as int * c
    ensures V(z, n) == c * V(x, n)
    decreases n
  {
    if n > 0 {
      MultipleValue(x, z, c, n - 1);
      MulMove(W(n - 1), x[n - 1] as int, c);
      Spread(c, V(x, n - 1), W(n - 1) * x[n - 1] as int);
    }
  }

  lemma {:induction false} MulMove(w: int, x: int, c: int)
    ensures w * (x * c) == c * (w * x)
  {
  }

  lemma {:induction false} MultipleFe(x: seq<limb>, z: seq<limb>, c: int)
    requires |x| == |z| && forall i :: 0 <= i < |z| ==> z[i] as int == x[i] as int * c
    ensures Fe(z) == Mul(c, Fe(x))
  {
    MultipleValue(x, z, c, |z|);
    ModMul(c, V(x, |x|), P);
  }

  /** output += in1. */
  method FSum(output: array<limb>, in1: array<limb>)
    requires output.Length >= 10 && in1.Length >= 10 && output != in1 && Fits(output[..10], in1[..10])
    modifies output
    ensures Loose(output[..10]) && Fe(output[..10]) == Add(old(Fe(output[..10])), Fe(in1[..10]))
    ensures forall k :: 10 <= k < output.Length ==> output[k] == old(output[k])
  {
    ghost var x, y := output[..10], in1[..10];
    var i := 0;
    while i < 10
      invariant 0 <= i <= 10 && i % 2 == 0
      invariant forall k :: 0 <= k < i ==> output[k] as int == x[k] as int + y[k] as int
      invariant forall k :: i <= k < output.Length ==> output[k] == old(output[k])
    {
      assert Abs(x[i]) + Abs(y[i]) <= LooseBound(i) && Abs(x[i + 1]) + Abs(y[i + 1]) <= LooseBound(i + 1);
      output[i] := output[i] + in1[i];
      output[i + 1] := output[i + 1] + in1[i + 1];
      i := i + 2;
    }
    LooseSum(x, y, output[..10]);
    SumFe(x, y, output[..10]);
  }

  lemma {:induction false} LooseSum(x: seq<limb>, y: seq<limb>, z: seq<limb>)
    requires Fits(x, y) && |z| == 10
    requires forall k :: 0 <= k < 10 ==> z[k] as int == x[k] as int + y[k] as int || z[k] as int == x[k] as int - y[k] as int
    ensures Loose(z)
  {
    forall k | 0 <= k < 10 ensures Within(z[k], if k % 2 == 0 then 0x800_0000 else 0x400_0000) {
      assert Abs(x[k]) + Abs(y[k]) <= LooseBound(k);
    }
  }

  /** output = in1 - output (note the order). */
  method FDifference(output: array<limb>, in1: array<limb>)
    requires output.Length >= 10 && in1.Length >= 10 && output != in1 && Fits(in1[..10], output[..10])
    modifies output
    ensures Loose(output[..10]) && Fe(output[..10]) == Sub(Fe(in1[..10]), old(Fe(output[..10])))
    ensures forall k :: 10 <= k < output.Length ==> output[k] == old(output[k])
  {
    ghost var x, y := in1[..10], output[..10];
    for i := 0 to 10
      invariant forall k :: 0 <= k < i ==> output[k] as int == x[k] as int - y[k] as int
      invariant forall k :: i <= k < output.Length ==> output[k] == old(output[k])
    {
      assert Abs(x[i]) + Abs(y[i]) <= LooseBound(i);
      output[i] := in1[i] - output[i];
    }
    LooseSum(x, y, output[..10]);
    DifferenceFe(x, y, output[..10]);
  }

  /** output = in1 * 121665, not reduced. */
  method FScalarProduct(output: array<limb>, in1: array<limb>, scalar: limb)
    requires output.Length >= 10 && in1.Length >= 10 && output != in1 && Loose(in1[..10]) && scalar == 121665
    modifies output
    ensures Fe(output[..10]) == Mul(scalar as int, Fe(in1[..10]))
    ensures forall k :: 0 <= k < 10 ==> Within(output[k], 0x4000_0000_0000_0000)
    ensures forall k :: 10 <= k < output.Length ==> output[k] == old(output[k])
  {
    ghost var x := in1[..10];
    for i := 0 to 10
      invariant forall k :: 0 <= k < i ==> output[k] as int == x[k] as int * 121665
      invariant forall k :: 0 <= k < i ==> Within(output[k], 0x4000_0000_0000_0000)
      invariant forall k :: 10 <= k < output.Length ==> output[k] == old(output[k])
    {
      assert Within(x[i], 0x800_0000);
      output[i] := in1[i] * scalar;
    }
    MultipleFe(x, output[..10], scalar as int);
  }

  /* ---- one ladder step ---- */

  /** The abstract state held in four arrays. */
  ghost function Held(x: array<limb>, z: array<limb>, x': array<limb>, z': array<limb>): State
    requires x.Length >= 10 && z.Length >= 10 && x'.Length >= 10 && z'.Length >= 10
    reads x, z, x', z'
  {
    State(Fe(x[..10]), Fe(z[..10]), Fe(x'[..10]), Fe(z'[..10]))
  }

  /** x + z and x - z, in place: x += z and z = x - z. */
  method SumAndDifference(x: array<limb>, z: array<limb>)
    requires x.Length >= 10 && z.Length >= 10 && x != z && Fits(x[..10], z[..10])
    modifies x, z
    ensures Loose(x[..10]) && Fe(x[..10]) == Add(old(Fe(x[..10])), old(Fe(z[..10])))
    ensures Loose(z[..10]) && Fe(z[..10]) == Sub(old(Fe(x[..10])), old(Fe(z[..10])))
  {
    var origx := new limb[10];
    Store(origx, 0, x[..10]);
    assert origx[..10] == origx[0..10] == x[..10];
    FSum(x, z);
    FDifference(z, origx);
  }

  /** fproduct, freduce_degree, freduce_coefficients. */
  method ProductReduced(output: array<limb>, in2: array<limb>, in1: array<limb>)
    requires output.Length >= 19 && in2.Length >= 10 && in1.Length >= 10 && output != in2 && output != in1
    requires Loose(in2[..10]) && Loose(in1[..10])
    modifies output
    ensures Fe(output[..10]) == Mul(Fe(in2[..10]), Fe(in1[..10])) && Nearly(output[..10])
  {
    FProduct(output, in2, in1);
    Shorten(output, in2[..10], in1[..10]);
  }

  /** z2 = E * (AA + a24 * E). */
  method FMontyZ2(z2: array<limb>, zz: array<limb>, xx: array<limb>)
    requires z2.Length >= 19 && zz.Length >= 10 && xx.Length >= 10 && z2 != zz && z2 != xx
    requires Loose(zz[..10]) && Nearly(xx[..10])
    modifies z2
    ensures Nearly(z2[..10])
    ensures Fe(z2[..10]) == Mul(Fe(zz[..10]), Add(Fe(xx[..10]), Mul(A24, Fe(zz[..10]))))
  {
    var zzz := new limb[19];
    FScalarProduct(zzz, zz, 121665);
    FReduceCoefficients(zzz);
    NearlyFits(zzz[..10], xx[..10]);
    AddComm(Fe(zzz[..10]), Fe(xx[..10]));
    FSum(zzz, xx);
    ProductReduced(z2, zz, zzz);
  }

  /** From A and B to x2 = AA*BB and z2 = E*(AA + a24*E), with E = AA - BB. */
  method FMontyDouble(x2: array<limb>, z2: array<limb>, x: array<limb>, z: array<limb>)
    requires x2.Length >= 19 && z2.Length >= 19 && x.Length >= 10 && z.Length >= 10
    requires x2 != z2 && x2 != x && x2 != z && z2 != x && z2 != z
    requires Loose(x[..10]) && Loose(z[..10])
    modifies x2, z2
    ensures Nearly(x2[..10]) && Nearly(z2[..10])
    ensures var aa, bb := Mul(Fe(x[..10]), Fe(x[..10])), Mul(Fe(z[..10]), Fe(z[..10]));
            Fe(x2[..10]) == Mul(aa, bb) && Fe(z2[..10]) == Mul(Sub(aa, bb), Add(aa, Mul(A24, Sub(aa, bb))))
  {
    var xx, zz := new limb[19], new limb[19];
    FSquare(xx, x);
    FSquare(zz, z);
    NearlyFits(xx[..10], zz[..10]);
    ProductReduced(x2, xx, zz);
    FDifference(zz, xx);
    FMontyZ2(z2, zz, xx);
  }

  /** CB + DA and CB - DA, from the cross products CB = C*B and DA = A*D. */
  method CrossProducts(xxprime: array<limb>, zzprime: array<limb>, x: array<limb>, z: array<limb>,
                       xprime: array<limb>, zprime: array<limb>)
    requires xxprime.Length >= 19 && zzprime.Length >= 19 && xxprime != zzprime
    requires x.Length >= 10 && z.Length >= 10 && xprime.Length >= 10 && zprime.Length >= 10
    requires {xxprime, zzprime} !! {x, z, xprime, zprime}
    requires Loose(x[..10]) && Loose(z[..10]) && Loose(xprime[..10]) && Loose(zprime[..10])
    modifies xxprime, zzprime
    ensures Loose(xxprime[..10]) && Loose(zzprime[..10])
    ensures var cb, da := Mul(Fe(xprime[..10]), Fe(z[..10])), Mul(Fe(x[..10]), Fe(zprime[..10]));
            Fe(xxprime[..10]) == Add(cb, da) && Fe(zzprime[..10]) == Sub(cb, da)
  {
    ProductReduced(xxprime, xprime, z);
    ProductReduced(zzprime, x, zprime);
    NearlyFits(xxprime[..10], zzprime[..10]);
    SumAndDifference(xxprime, zzprime);
  }

  /** x3 = s^2 and z3 = d^2 * q for s = CB + DA and d = CB - DA. */
  method FMontyAdd(x3: array<limb>, z3: array<limb>, xxprime: array<limb>, zzprime: array<limb>, qmqp: array<limb>)
    requires x3.Length >= 10 && z3.Length >= 10 && x3 != z3 && qmqp.Length >= 10
    requires xxprime.Length >= 10 && zzprime.Length >= 19 && {x3, z3, zzprime} !! {qmqp, xxprime}
    requires x3 != zzprime && z3 != zzprime
    requires Loose(xxprime[..10]) && Loose(zzprime[..10]) && Loose(qmqp[..10])
    modifies x3, z3, zzprime
    ensures Nearly(x3[..10]) && Nearly(z3[..10])
    ensures Fe(x3[..10]) == Mul(Fe(xxprime[..10]), Fe(xxprime[..10]))
    ensures Fe(z3[..10]) == Mul(Mul(old(Fe(zzprime[..10])), old(Fe(zzprime[..10]))), Fe(qmqp[..10]))
  {
    var xxxprime, zzzprime := new limb[19], new limb[19];
    FSquare(xxxprime, xxprime);
    FSquare(zzzprime, zzprime);
    NearlyFits(zzzprime[..10], zzzprime[..10]);
    ProductReduced(zzprime, zzzprime, qmqp);
    Store(x3, 0, xxxprime[..10]);
    Store(z3, 0, zzprime[..10]);
    assert x3[..10] == x3[0..10] && z3[..10] == z3[0..10];
  }

  lemma {:induction false} MulCommP(a: int, b: int)
    ensures Mul(a, b) == Mul(b, a)
  {
    MulComm(a, b);
  }

  lemma {:induction false} AddComm(a: int, b: int)
    ensures Add(a, b) == Add(b, a)
  {
  }

  lemma {:induction false} SquareOfDifference(a: int, b: int)
    ensures Mul(Sub(a, b), Sub(a, b)) == Mul(Sub(b, a), Sub(b, a))
  {
    ModMul(a - b, a - b, P);
    ModMul(b - a, b - a, P);
    NegatedSquare(a - b);
  }

  lemma {:induction false} NegatedSquare(d: int)
    ensures d * d == (-d) * (-d)
  {
  }

  /** The two sides of the step differ only by commutativity and the sign under a square. */
  lemma {:induction false} StepMatches(u: int, s: State, a: int, b: int, c: int, d: int)
    requires a == Add(s.x2, s.z2) && b == Sub(s.x2, s.z2) && c == Add(s.x3, s.z3) && d == Sub(s.x3, s.z3)
    ensures var cb, da, aa, bb := Mul(c, b), Mul(a, d), Mul(a, a), Mul(b, b);
            Step(u, s) == State(Mul(aa, bb), Mul(Sub(aa, bb), Add(aa, Mul(A24, Sub(aa, bb)))),
                                Mul(Add(cb, da), Add(cb, da)), Mul(Mul(Sub(cb, da), Sub(cb, da)), u))
  {
    var cb, da := Mul(c, b), Mul(a, d);
    MulCommP(a, d);
    AddComm(da, cb);
    SquareOfDifference(cb, da);
    MulCommP(Mul(Sub(cb, da), Sub(cb, da)), u);
  }

  /** The products of a ladder step, once A, B, C, D are in x, z, xprime, zprime. */
  method FMontyProducts(x2: array<limb>, z2: array<limb>, x3: array<limb>, z3: array<limb>,
                        x: array<limb>, z: array<limb>, xprime: array<limb>, zprime: array<limb>, qmqp: array<limb>)
    requires x2.Length == z2.Length == x3.Length == z3.Length == 19
    requires x.Length == z.Length == xprime.Length == zprime.Length == 19 && qmqp.Length == 10
    requires x2 != z2 && x3 != z3 && {x2, z2} !! {x3, z3} && {x2, z2, x3, z3} !! {x, z, xprime, zprime, qmqp}
    requires Loose(x[..10]) && Loose(z[..10]) && Loose(xprime[..10]) && Loose(zprime[..10]) && Loose(qmqp[..10])
    modifies x2, z2, x3, z3
    ensures Nearly(x2[..10]) && Nearly(z2[..10]) && Nearly(x3[..10]) && Nearly(z3[..10])
    ensures var a, b, c, d := Fe(x[..10]), Fe(z[..10]), Fe(xprime[..10]), Fe(zprime[..10]);
            var cb, da, aa, bb := Mul(c, b), Mul(a, d), Mul(a, a), Mul(b, b);
            Held(x2, z2, x3, z3) ==
            State(Mul(aa, bb), Mul(Sub(aa, bb), Add(aa, Mul(A24, Sub(aa, bb)))),
                  Mul(Add(cb, da), Add(cb, da)), Mul(Mul(Sub(cb, da), Sub(cb, da)), Fe(qmqp[..10])))
  {
    var xxprime, zzprime := new limb[19], new limb[19];
    CrossProducts(xxprime, zzprime, x, z, xprime, zprime);
    FMontyAdd(x3, z3, xxprime, zzprime, qmqp);
    FMontyDouble(x2, z2, x, z);
  }

  /** One step of the ladder; the inputs are destroyed, qmqp is kept. */
  method FMonty(x2: array<limb>, z2: array<limb>, x3: array<limb>, z3: array<limb>,
                x: array<limb>, z: array<limb>, xprime: array<limb>, zprime: array<limb>, qmqp: array<limb>)
    requires x2.Length == z2.Length == x3.Length == z3.Length == 19
    requires x.Length == z.Length == xprime.Length == zprime.Length == 19 && qmqp.Length == 10
    requires x2 != z2 && x3 != z3 && {x2, z2} !! {x3, z3} && {x2, z2, x3, z3} !! {x, z, xprime, zprime, qmqp}
    requires x != z && xprime != zprime && {x, z} !! {xprime, zprime} && qmqp !in {x, z, xprime, zprime}
    requires Fits(x[..10], z[..10]) && Fits(xprime[..10], zprime[..10]) && Loose(qmqp[..10])
    modifies x2, z2, x3, z3, x, z, xprime, zprime
    ensures Held(x2, z2, x3, z3) == Step(Fe(qmqp[..10]), old(Held(x, z, xprime, zprime)))
    ensures Nearly(x2[..10]) && Nearly(z2[..10]) && Nearly(x3[..10]) && Nearly(z3[..10])
  {
    ghost var s := Held(x, z, xprime, zprime);
    SumAndDifference(x, z);
    SumAndDifference(xprime, zprime);
    StepMatches(Fe(qmqp[..10]), s, Fe(x[..10]), Fe(z[..10]), Fe(xprime[..10]), Fe(zprime[..10]));
    FMontyProducts(x2, z2, x3, z3, x, z, xprime, zprime, qmqp);
  }
}
