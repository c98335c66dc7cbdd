/** `cmult` takes 256 ladder steps where section 5 of RFC 7748 takes 255: the extra one, for a leading zero bit, only
    rescales one of the two points. */
module StepCount {
  import opened ModArith
  import opened Powers
  import opened Limbs
  import opened Rfc7748
  import Fermat
  import Certificate

  /** b is m times a, modulo p. */
  ghost predicate Scaled(a: int, b: int, m: int) { b % P == (m * a) % P }

  lemma {:induction false} ScaledAdd(a: int, a': int, b: int, b': int, m: int)
    requires Scaled(a, a', m) && Scaled(b, b', m)
    ensures Scaled(Add(a, b), Add(a', b'), m) && Scaled(Sub(a, b), Sub(a', b'), m)
  {
    ModAdd(a', b', P);
    ModAdd(m * a, m * b, P);
    ModSub(a', b', P);
    ModSub(m * a, m * b, P);
    ModMul(m, a + b, P);
    ModMul(m, a - b, P);
    Spread(m, a, b);
    Spread(m, a, -b);
    ModMod(a' + b', P);
    ModMod(a' - b', P);
    assert m * (-b) == -(m * b);
  }

  lemma {:induction false} ScaledMul(a: int, a': int, m: int, b: int, b': int, n: int)
    requires Scaled(a, a', m) && Scaled(b, b', n)
    ensures Scaled(Mul(a, b), Mul(a', b'), m * n)
  {
    ModMul(a', b', P);
    ModMul(m * a, n * b, P);
    ModMul(m * n, a * b, P);
    MulExchange4(m, a, n, b);
    ModMod(a' * b', P);
  }

  lemma {:induction false} MulExchange4(m: int, a: int, n: int, b: int)
    ensures (m * a) * (n * b) == (m * n) * (a * b)
  {
    MulRegroup(m, a, n, b);
  }

  lemma {:induction false} ScaledConst(c: int, b: int, b': int, n: int)
    requires Scaled(b, b', n)
    ensures Scaled(Mul(c, b), Mul(c, b'), n)
  {
    ScaledMul(c, c, 1, b, b', n);
    assert 1 * n == n;
  }

  /** The first point of t is m times that of s, the second l times. */
  ghost predicate Rescaled(s: State, t: State, m: int, l: int) {
    Scaled(s.x2, t.x2, m) && Scaled(s.z2, t.z2, m) && Scaled(s.x3, t.x3, l) && Scaled(s.z3, t.z3, l)
  }

  /** Doubling. */
  lemma {:induction false} DoubleScaled(x: int, z: int, x': int, z': int, m: int)
    requires Scaled(x, x', m) && Scaled(z, z', m)
    ensures var aa, bb := Mul(Add(x, z), Add(x, z)), Mul(Sub(x, z), Sub(x, z));
            var aa', bb' := Mul(Add(x', z'), Add(x', z')), Mul(Sub(x', z'), Sub(x', z'));
            var e, e' := Sub(aa, bb), Sub(aa', bb');
            && Scaled(Mul(aa, bb), Mul(aa', bb'), (m * m) * (m * m))
            && Scaled(Mul(e, Add(aa, Mul(A24, e))), Mul(e', Add(aa', Mul(A24, e'))), (m * m) * (m * m))
  {
    ScaledAdd(x, x', z, z', m);
    var a, b, a', b' := Add(x, z), Sub(x, z), Add(x', z'), Sub(x', z');
    ScaledMul(a, a', m, a, a', m);
    ScaledMul(b, b', m, b, b', m);
    var aa, bb, aa', bb' := Mul(a, a), Mul(b, b), Mul(a', a'), Mul(b', b');
    ScaledMul(aa, aa', m * m, bb, bb', m * m);
    ScaledAdd(aa, aa', bb, bb', m * m);
    var e, e' := Sub(aa, bb), Sub(aa', bb');
    ScaledConst(A24, e, e', m * m);
    var w, w' := Mul(A24, e), Mul(A24, e');
    ScaledAdd(aa, aa', w, w', m * m);
    ScaledMul(e, e', m * m, Add(aa, w), Add(aa', w'), m * m);
  }

  /** Differential addition. */
  lemma {:induction false} AddScaled(u: int, s: State, t: State, m: int, l: int)
    requires Rescaled(s, t, m, l)
    ensures Scaled(Step(u, s).x3, Step(u, t).x3, (l * m) * (l * m)) && Scaled(Step(u, s).z3, Step(u, t).z3, (l * m) * (l * m))
  {
    ScaledAdd(s.x2, t.x2, s.z2, t.z2, m);
    ScaledAdd(s.x3, t.x3, s.z3, t.z3, l);
    var da, da' := Mul(Sub(s.x3, s.z3), Add(s.x2, s.z2)), Mul(Sub(t.x3, t.z3), Add(t.x2, t.z2));
    var cb, cb' := Mul(Add(s.x3, s.z3), Sub(s.x2, s.z2)), Mul(Add(t.x3, t.z3), Sub(t.x2, t.z2));
    ScaledMul(Sub(s.x3, s.z3), Sub(t.x3, t.z3), l, Add(s.x2, s.z2), Add(t.x2, t.z2), m);
    ScaledMul(Add(s.x3, s.z3), Add(t.x3, t.z3), l, Sub(s.x2, s.z2), Sub(t.x2, t.z2), m);
    ScaledAdd(da, da', cb, cb', l * m);
    var p, p', q, q' := Add(da, cb), Add(da', cb'), Sub(da, cb), Sub(da', cb');
    ScaledMul(p, p', l * m, p, p', l * m);
    ScaledMul(q, q', l * m, q, q', l * m);
    ScaledConst(u, Mul(q, q), Mul(q', q'), (l * m) * (l * m));
  }

  lemma {:induction false} StepRescaled(u: int, s: State, t: State, m: int, l: int)
    requires Rescaled(s, t, m, l)
    ensures Rescaled(Step(u, s), Step(u, t), (m * m) * (m * m), (l * m) * (l * m))
  {
    DoubleScaled(s.x2, s.z2, t.x2, t.z2, m);
    AddScaled(u, s, t, m, l);
  }

  /* ---- the rest of the ladder ---- */

  ghost predicate Unit(m: int) { !Divides(P, m) }

  lemma {:induction false} UnitMul(m: int, n: int)
    requires IsPrime(P) && Unit(m) && Unit(n)
    ensures Unit(m * n)
  {
    if Divides(P, m * n) { PrimeDividesProduct(P, m, n); }
  }

  lemma {:induction false} SwapRescaled(bit: int, s: State, t: State, m: int, l: int)
    requires Rescaled(s, t, m, l)
    ensures if bit == 1 then Rescaled(CSwap(bit, s), CSwap(bit, t), l, m) else Rescaled(CSwap(bit, s), CSwap(bit, t), m, l)
  {
  }

  /** One step with both swaps. */
  lemma {:induction false} RoundRescaled(bit: int, u: int, s: State, t: State, m: int, l: int) returns (m': int, l': int)
    requires IsPrime(P) && Rescaled(s, t, m, l) && Unit(m) && Unit(l)
    ensures Rescaled(CSwap(bit, Step(u, CSwap(bit, s))), CSwap(bit, Step(u, CSwap(bit, t))), m', l') && Unit(m') && Unit(l')
  {
    var a, b := if bit == 1 then l else m, if bit == 1 then m else l;
    SwapRescaled(bit, s, t, m, l);
    StepRescaled(u, CSwap(bit, s), CSwap(bit, t), a, b);
    SwapRescaled(bit, Step(u, CSwap(bit, s)), Step(u, CSwap(bit, t)), (a * a) * (a * a), (b * a) * (b * a));
    UnitMul(a, a);
    UnitMul(a * a, a * a);
    UnitMul(b, a);
    UnitMul(b * a, b * a);
    m', l' := (a * a) * (a * a), (b * a) * (b * a);
    if bit == 1 { m', l' := l', m'; }
  }

  lemma {:induction false} LadderRescaled(bit: nat -> int, u: int, n: nat, s: State, t: State, m: int, l: int) returns (m': int)
    requires IsPrime(P) && Rescaled(s, t, m, l) && Unit(m) && Unit(l)
    ensures Unit(m') && Scaled(Eager(Step, bit, u, n, s).x2, Eager(Step, bit, u, n, t).x2, m')
    ensures Scaled(Eager(Step, bit, u, n, s).z2, Eager(Step, bit, u, n, t).z2, m')
    decreases n
  {
    m' := m;
    if n > 0 {
      var b := bit(n - 1);
      var m1, l1 := RoundRescaled(b, u, s, t, m, l);
      m' := LadderRescaled(bit, u, n - 1, CSwap(b, Step(u, CSwap(b, s))), CSwap(b, Step(u, CSwap(b, t))), m1, l1);
    }
  }

  /** A common factor does not change the quotient. */
  lemma {:induction false} QuotientUnscaled(x: int, z: int, x': int, z': int, m: int)
    requires IsPrime(P) && Unit(m) && Scaled(x, x', m) && Scaled(z, z', m)
    ensures Mul(x', Pow(z', P - 2)) == Mul(x, Pow(z, P - 2))
  {
    var e := P - 2;
    Fermat.FermatLittle(P, m);
    assert Pow(m, P - 1) == m * Pow(m, e);
    PowCong(z', m * z, e, P);
    PowDistributes(m, z, e);
    Unscale(x, Pow(z, e), x', Pow(z', e), m, Pow(m, e));
  }

  lemma {:induction false} Unscale(x: int, y: int, x': int, y': int, m: int, k: int)
    requires x' % P == (m * x) % P && y' % P == (k * y) % P && (m * k) % P == 1
    ensures (x' * y') % P == (x * y) % P
  {
    ModMulCong(x', m * x, y', k * y, P);
    MulRegroup(m, x, k, y);
    ModMul(m * k, x * y, P);
    ModMod(x * y, P);
  }

  /* ---- the extra step ---- */

  lemma {:induction false} One(c: int)
    requires 0 <= c < P
    ensures Mul(c, 1) == c && Mul(1, c) == c && Add(c, 0) == c && Sub(c, 0) == c && Sub(c, c) == 0 && Mul(0, c) == 0
  {
    ModSmall(c, P);
    ModSmall(0, P);
  }

  /** Square of (u-1) + (u+1) and of (u-1) - (u+1). */
  lemma {:induction false} SumAndDifference(u: int)
    ensures var da, cb := Sub(u, 1), Add(u, 1);
            Mul(Add(da, cb), Add(da, cb)) == (4 * u * u) % P && Mul(u, Mul(Sub(da, cb), Sub(da, cb))) == (4 * u) % P
  {
    ModAdd(u - 1, u + 1, P);
    ModSub(u - 1, u + 1, P);
    ModMul(2 * u, 2 * u, P);
    ModMul(-2, -2, P);
    ModMul(u, (-2) * (-2), P);
    assert (2 * u) * (2 * u) == 4 * u * u;
  }

  /** A zero bit at the start leaves the point at infinity alone and rescales the other point. */
  lemma {:induction false} FirstStep(u: int)
    requires 0 <= u < P
    ensures Step(u, Start(u)) == State(1, 0, (4 * u * u) % P, (4 * u) % P)
  {
    One(1);
    One(0);
    var w := Add(1, Mul(A24, 0));
    One(w);
    One(Sub(u, 1));
    One(Add(u, 1));
    SumAndDifference(u);
  }

  lemma {:induction false} StartRescaled(u: int)
    requires 0 <= u < P
    ensures Rescaled(Start(u), Step(u, Start(u)), 1, 4 * u)
  {
    FirstStep(u);
    ModMod(4 * u * u, P);
    ModMod(4 * u, P);
  }

  lemma {:induction false} UnitStart(u: int)
    requires IsPrime(P) && 0 < u < P
    ensures Unit(1) && Unit(4 * u)
  {
    ModSmall(1, P);
    ModSmall(4, P);
    ModSmall(u, P);
    assert Unit(4) && Unit(u);
    UnitMul(4, u);
  }

  /* ---- the point with u = 0 ---- */

  /** Both points have a coordinate that is zero, as far as products can tell. */
  ghost predicate Degenerate(s: State) { Mul(s.x2, s.z2) == 0 && Mul(s.x3, s.z3) == 0 }

  lemma {:induction false} SquaresDiffer(x: int, z: int)
    ensures Sub(Mul(Add(x, z), Add(x, z)), Mul(Sub(x, z), Sub(x, z))) == (4 * (x * z)) % P
  {
    ModMul(x + z, x + z, P);
    ModMul(x - z, x - z, P);
    ModSub((x + z) * (x + z), (x - z) * (x - z), P);
    Binomial(x, z);
  }

  lemma {:induction false} Binomial(x: int, z: int)
    ensures (x + z) * (x + z) - (x - z) * (x - z) == 4 * (x * z)
  {
  }

  lemma {:induction false} MulZero(a: int)
    ensures Mul(0, a) == 0 && Mul(a, 0) == 0
  {
  }

  lemma {:induction false} StepDegenerate(s: State)
    requires Degenerate(s)
    ensures Degenerate(Step(0, s))
  {
    var t := Step(0, s);
    ZeroDouble(s.x2, s.z2);
    var da, cb := Mul(Sub(s.x3, s.z3), Add(s.x2, s.z2)), Mul(Add(s.x3, s.z3), Sub(s.x2, s.z2));
    MulZero(Mul(Sub(da, cb), Sub(da, cb)));
    assert t.z2 == 0 && t.z3 == 0;
    MulZero(t.x2);
    MulZero(t.x3);
  }

  /** Doubling gives Z = 0. */
  lemma {:induction false} ZeroDouble(x: int, z: int)
    requires Mul(x, z) == 0
    ensures var aa, bb := Mul(Add(x, z), Add(x, z)), Mul(Sub(x, z), Sub(x, z));
            var e := Sub(aa, bb);
            Mul(e, Add(aa, Mul(A24, e))) == 0
  {
    SquaresDiffer(x, z);
    ModMul(4, x * z, P);
    var aa := Mul(Add(x, z), Add(x, z));
    MulZero(Add(aa, Mul(A24, 0)));
  }

  lemma {:induction false} LadderDegenerate(bit: nat -> int, n: nat, s: State)
    requires Degenerate(s)
    ensures Degenerate(Eager(Step, bit, 0, n, s))
    decreases n
  {
    if n > 0 {
      var b := bit(n - 1);
      StepDegenerate(CSwap(b, s));
      LadderDegenerate(bit, n - 1, CSwap(b, Step(0, CSwap(b, s))));
    }
  }

  lemma {:induction false} DegenerateQuotient(x: int, z: int, e: nat)
    requires Mul(x, z) == 0 && e >= 1
    ensures Mul(x, Pow(z, e)) == 0
  {
    var w := Pow(z, e - 1);
    assert Pow(z, e) == z * w;
    ZeroFactor(x, z, w);
  }

  lemma {:induction false} ZeroFactor(x: int, z: int, w: int)
    requires (x * z) % P == 0
    ensures (x * (z * w)) % P == 0
  {
    MulAssoc(x, z, w);
    ModMul(x * z, w, P);
  }

  /* ---- the result ---- */

  lemma {:induction false} BitsAreBits(k: nat, n: nat)
    ensures forall i :: 0 <= i < n ==> Scalar(k)(i) == 0 || Scalar(k)(i) == 1
  {
  }

  lemma {:induction false} LeadingZero(k: nat, n: nat, u: int)
    requires k < Pow2(n)
    ensures Eager(Step, Scalar(k), u, n + 1, Start(u)) == Eager(Step, Scalar(k), u, n, Step(u, Start(u)))
  {
    assert Scalar(k)(n) == Bit(k, n);
    assert k / Pow2(n) == 0;
  }

  /** x / z of the first point. */
  function Quotient(s: State): nat { Mul(s.x2, Pow(s.z2, P - 2)) }

  lemma {:induction false} AsEager(k: nat, u: int, n: nat)
    ensures X25519(n, k, u) == Quotient(Eager(Step, Scalar(k), u, n, Start(u)))
  {
    BitsAreBits(k, n);
    LazyIsEager(Step, Scalar(k), u, n, Start(u), 0);
  }

  lemma {:induction false} AtZero(bit: nat -> int, n: nat)
    ensures Quotient(Eager(Step, bit, 0, n, Step(0, Start(0)))) == Quotient(Eager(Step, bit, 0, n, Start(0)))
  {
    var e := P - 2;
    StepDegenerate(Start(0));
    LadderDegenerate(bit, n, Start(0));
    LadderDegenerate(bit, n, Step(0, Start(0)));
    var s, t := Eager(Step, bit, 0, n, Start(0)), Eager(Step, bit, 0, n, Step(0, Start(0)));
    DegenerateQuotient(s.x2, s.z2, e);
    DegenerateQuotient(t.x2, t.z2, e);
  }

  lemma {:induction false} Elsewhere(bit: nat -> int, n: nat, u: int, first: State)
    requires IsPrime(P) && 0 < u < P && first == Step(u, Start(u))
    ensures Quotient(Eager(Step, bit, u, n, first)) == Quotient(Eager(Step, bit, u, n, Start(u)))
  {
    StartRescaled(u);
    UnitStart(u);
    var m := LadderRescaled(bit, u, n, Start(u), first, 1, 4 * u);
    var s, t := Eager(Step, bit, u, n, Start(u)), Eager(Step, bit, u, n, first);
    QuotientUnscaled(s.x2, s.z2, t.x2, t.z2, m);
  }

  /** As an integer modulo p, 256 steps give what 255 steps give, for every scalar below 2^255 and every point. */
  lemma {:induction false} ExtraStep(k: nat, u: int, n: nat)
    requires k < Pow2(n) && 0 <= u < P
    ensures X25519(n + 1, k, u) == X25519(n, k, u)
  {
    Certificate.PrimeP();
    AsEager(k, u, n);
    AsEager(k, u, n + 1);
    LeadingZero(k, n, u);
    if u == 0 { AtZero(Scalar(k), n); } else { Elsewhere(Scalar(k), n, u, Step(u, Start(u))); }
  }
}
