/** Inversion in curve25519-donna.c: `crecip` raises to the power p - 2 by an addition chain. */
module Recip {
  import opened ModArith
  import opened Powers
  import opened Limbs
  import opened Field
  import opened Reduce

  /** z^e in the field. */
  function Power(z: nat, e: nat): nat { Pow(z, e) % P }

  lemma {:induction false} PowerMul(z: nat, d: nat, e: nat)
    ensures Mul(Power(z, d), Power(z, e)) == Power(z, d + e)
  {
    PowAdd(z, d, e);
    ModMul(Pow(z, d), Pow(z, e), P);
  }

  lemma {:induction false} PowerOne(z: nat)
    requires z < P
    ensures Power(z, 1) == z
  {
    assert Pow(z, 1) == z * Pow(z, 0);
    ModSmall(z, P);
  }

  /** 2^n - 1. */
  function Ones(n: nat): int { Pow2(n) - 1 }

  /** Names, which do not expand in proofs, for the field element of a limb array, for the powers of the
      element to be inverted, and for 2^n - 1. */
  datatype Names = Names(rep: seq<limb> -> int, pw: int -> int, ones: nat -> int)

  ghost predicate Name(z: nat, c: Names) {
    && (forall s {:trigger Fe(s)} :: c.rep(s) == Fe(s))
    && (forall e: nat {:trigger Power(z, e)} :: c.pw(e) == Power(z, e))
    && (forall n: nat {:trigger Ones(n)} :: c.ones(n) == Ones(n) && Ones(n) >= 0)
  }

  /** The array holds z^e. */
  ghost predicate Holds(a: array<limb>, c: Names, e: int)
    reads a
  {
    a.Length >= 10 && Loose(a[..10]) && c.rep(a[..10]) == c.pw(e)
  }

  lemma {:induction false} NearlyLoose(s: seq<limb>)
    requires Nearly(s)
    ensures Loose(s)
  {
  }

  lemma {:induction false} ProductNamed(x: seq<limb>, y: seq<limb>, out: seq<limb>, z: nat, c: Names, d: nat, e: nat)
    requires Name(z, c) && c.rep(x) == c.pw(d) && c.rep(y) == c.pw(e) && Fe(out) == Mul(Fe(x), Fe(y))
    ensures c.rep(out) == c.pw(d + e)
  {
    PowerMul(z, d, e);
  }

  method MulPowers(out: array<limb>, a: array<limb>, b: array<limb>, ghost z: nat, ghost c: Names, ghost d: nat,
                   ghost e: nat)
    requires out.Length >= 10 && out != a && out != b && Name(z, c) && Holds(a, c, d) && Holds(b, c, e)
    modifies out
    ensures Holds(out, c, d + e)
  {
    FMul(out, a, b);
    NearlyLoose(out[..10]);
    ProductNamed(a[..10], b[..10], out[..10], z, c, d, e);
  }

  method SquarePower(out: array<limb>, a: array<limb>, ghost z: nat, ghost c: Names, ghost e: nat)
    requires out.Length >= 10 && out != a && Name(z, c) && Holds(a, c, e)
    modifies out
    ensures Holds(out, c, 2 * e)
  {
    FSquare(out, a);
    NearlyLoose(out[..10]);
    ProductNamed(a[..10], a[..10], out[..10], z, c, e, e);
    assert e + e == 2 * e;
  }

  lemma {:induction false} TwiceMore(e: nat, m: nat)
    ensures 4 * (e * (Ones(m) + 1)) == e * (Ones(m + 2) + 1) && Ones(0) == 0
  {
    var p := Pow2(m);
    assert Pow2(m + 2) == 4 * p by { assert Pow2(m + 1) == 2 * p; }
    assert 4 * (e * p) == e * (4 * p);
  }

  lemma {:induction false} TwiceMoreNamed(e: nat, m: nat, z: nat, c: Names)
    requires Name(z, c)
    ensures 4 * (e * (c.ones(m) + 1)) == e * (c.ones(m + 2) + 1) && c.ones(0) == 0
  {
    TwiceMore(e, m);
    assert c.ones(m) == Ones(m) && c.ones(m + 2) == Ones(m + 2) && c.ones(0) == Ones(0);
  }

  /** m squarings, in turn from one array to the other. */
  method SquareTimes(x: array<limb>, u: array<limb>, v: array<limb>, m: nat, ghost z: nat, ghost c: Names, ghost e: nat)
    returns (ghost e2: nat)
    requires m >= 2 && m % 2 == 0 && u.Length >= 10 && v.Length >= 10 && u != v && x != u
    requires Name(z, c) && Holds(x, c, e)
    modifies u, v
    ensures e2 == e * (c.ones(m) + 1) && Holds(v, c, e2)
  {
    SquarePower(u, x, z, c, e);
    SquarePower(v, u, z, c, 2 * e);
    var i := 2;
    e2 := 4 * e;
    TwiceMoreNamed(e, 0, z, c);
    while i < m
      invariant 2 <= i <= m && i % 2 == 0 && e2 == e * (c.ones(i) + 1) && Holds(v, c, e2)
    {
      SquarePower(u, v, z, c, e2);
      SquarePower(v, u, z, c, 2 * e2);
      TwiceMoreNamed(e, i, z, c);
      e2, i := 4 * e2, i + 2;
    }
  }

  lemma {:induction false} OnesAdd(n: nat, m: nat, z: nat, c: Names)
    requires Name(z, c)
    ensures c.ones(n) * (c.ones(m) + 1) + c.ones(m) == c.ones(n + m) && c.ones(n) >= 0 && c.ones(m) >= 0
  {
    assert c.ones(n) == Ones(n) && c.ones(m) == Ones(m) && c.ones(n + m) == Ones(n + m);
    Pow2Add(n, m);
    OnesProduct(Pow2(n), Pow2(m));
  }

  lemma {:induction false} OnesProduct(a: int, b: int)
    ensures (a - 1) * ((b - 1) + 1) + (b - 1) == a * b - 1
  {
  }

  /** From z^(2^n - 1) and z^(2^m - 1) to z^(2^(n+m) - 1). */
  method Extend(out: array<limb>, x: array<limb>, u: array<limb>, v: array<limb>, b: array<limb>, m: nat,
                ghost z: nat, ghost c: Names, ghost n: nat)
    requires m >= 2 && m % 2 == 0 && u.Length >= 10 && v.Length >= 10 && out.Length >= 10
    requires u != v && x != u && b != u && b != v && out != v && out != b
    requires Name(z, c) && Holds(x, c, c.ones(n)) && Holds(b, c, c.ones(m))
    modifies u, v, out
    ensures Holds(out, c, c.ones(n + m))
  {
    OnesAdd(n, m, z, c);
    ghost var e := SquareTimes(x, u, v, m, z, c, c.ones(n));
    MulPowers(out, v, b, z, c, e, c.ones(m));
  }

  /** Five squarings; the result is in u. */
  method FiveSquares(x: array<limb>, u: array<limb>, v: array<limb>, ghost z: nat, ghost c: Names, ghost e: nat)
    requires u.Length >= 10 && v.Length >= 10 && u != v && x != u && Name(z, c) && Holds(x, c, e)
    modifies u, v
    ensures Holds(u, c, 32 * e)
  {
    SquarePower(u, x, z, c, e);
    SquarePower(v, u, z, c, 2 * e);
    SquarePower(u, v, z, c, 4 * e);
    SquarePower(v, u, z, c, 8 * e);
    SquarePower(u, v, z, c, 16 * e);
  }

  /** z^11 and z^31. */
  method FirstPowers(x: array<limb>, z2: array<limb>, z9: array<limb>, z11: array<limb>, z5: array<limb>,
                     t0: array<limb>, t1: array<limb>, ghost z: nat, ghost c: Names)
    requires z2.Length == z9.Length == z11.Length == z5.Length == t0.Length == t1.Length == 10
    requires x != z2 && x != z9 && x != z11 && x != z5 && x != t0 && x != t1
    requires z2 != z9 && z2 != z11 && z2 != z5 && z2 != t0 && z2 != t1 && z9 != z11 && z9 != z5 && z9 != t0 && z9 != t1
    requires z11 != z5 && z11 != t0 && z11 != t1 && z5 != t0 && z5 != t1 && t0 != t1
    requires Name(z, c) && Holds(x, c, 1)
    modifies z2, z9, z11, z5, t0, t1
    ensures Holds(z11, c, 11) && Holds(z5, c, 31)
  {
    SquarePower(z2, x, z, c, 1);
    SquarePower(t1, z2, z, c, 2);
    SquarePower(t0, t1, z, c, 4);
    MulPowers(z9, t0, x, z, c, 8, 1);
    MulPowers(z11, z9, z2, z, c, 9, 2);
    SquarePower(t0, z11, z, c, 11);
    MulPowers(z5, t0, z9, z, c, 22, 9);
  }

  lemma {:induction false} PowerOf255(n: nat)
    requires n == 250
    ensures 32 * Ones(n) + 11 == P - 2
  {
    var k := 10;
    TopWeight(k);
    var five := 5;
    assert Exp(k) == n + five;
    Pow2Add(n, five);
    assert Pow2(5) == 32;
  }

  /** 2^10 - 1 and 2^255 - 21. */
  lemma {:induction false} OnesValues(z: nat, c: Names, n: nat)
    requires n == 250 && Name(z, c)
    ensures c.ones(10) == 32 * 31 + 31 && 32 * c.ones(n) + 11 == P - 2 && c.ones(n) >= 0
  {
    PowerOf255(n);
    assert c.ones(n) == Ones(n);
    assert c.ones(10) == Ones(10);
    assert Pow2(10) == 1024;
  }

  /** z^(2^250 - 1) from z^31. */
  method LongChain(z5: array<limb>, z10: array<limb>, z20: array<limb>, z50: array<limb>, z100: array<limb>,
                   t0: array<limb>, t1: array<limb>, ghost z: nat, ghost c: Names)
    requires z10.Length == z20.Length == z50.Length == z100.Length == t0.Length == t1.Length == 10
    requires z5 != z10 && z5 != t0 && z5 != t1
    requires z10 != z20 && z10 != z50 && z10 != z100 && z10 != t0 && z10 != t1
    requires z20 != z50 && z20 != z100 && z20 != t0 && z20 != t1
    requires z50 != z100 && z50 != t0 && z50 != t1 && z100 != t0 && z100 != t1 && t0 != t1
    requires Name(z, c) && Holds(z5, c, 31) && c.ones(10) == 32 * 31 + 31
    modifies z10, z20, z50, z100, t0, t1
    ensures Holds(t0, c, c.ones(250))
  {
    FiveSquares(z5, t0, t1, z, c, 31);
    MulPowers(z10, t0, z5, z, c, 32 * 31, 31);
    Extend(z20, z10, t0, t1, z10, 10, z, c, 10);
    Extend(t0, z20, t0, t1, z20, 20, z, c, 20);
    Extend(z50, t0, t1, t0, z10, 10, z, c, 40);
    Extend(z100, z50, t0, t1, z50, 50, z, c, 50);
    Extend(t1, z100, t1, t0, z100, 100, z, c, 100);
    Extend(t0, t1, t0, t1, z50, 50, z, c, 200);
  }

  /** The powers in the first half of the chain, with its own temporaries. */
  method Head(x: array<limb>, z11: array<limb>, z5: array<limb>, t0: array<limb>, t1: array<limb>, ghost z: nat,
              ghost c: Names)
    requires z11.Length == z5.Length == t0.Length == t1.Length == 10
    requires x != z11 && x != z5 && x != t0 && x != t1
    requires z11 != z5 && z11 != t0 && z11 != t1 && z5 != t0 && z5 != t1 && t0 != t1
    requires Name(z, c) && Holds(x, c, 1)
    modifies z11, z5, t0, t1
    ensures Holds(z11, c, 11) && Holds(z5, c, 31)
  {
    var z2, z9 := new limb[10], new limb[10];
    FirstPowers(x, z2, z9, z11, z5, t0, t1, z, c);
  }

  /** The powers in the second half. */
  method Tail(z5: array<limb>, t0: array<limb>, t1: array<limb>, ghost z: nat, ghost c: Names)
    requires t0.Length == t1.Length == 10 && z5 != t0 && z5 != t1 && t0 != t1
    requires Name(z, c) && Holds(z5, c, 31) && c.ones(10) == 32 * 31 + 31
    modifies t0, t1
    ensures Holds(t0, c, c.ones(250))
  {
    var z10, z20, z50, z100 := new limb[10], new limb[10], new limb[10], new limb[10];
    LongChain(z5, z10, z20, z50, z100, t0, t1, z, c);
  }

  method CRecipNamed(out: array<limb>, x: array<limb>, ghost z: nat, ghost c: Names)
    requires out.Length >= 10 && out != x && Name(z, c) && Holds(x, c, 1)
    modifies out
    ensures Holds(out, c, P - 2)
  {
    var z11, z5, t0, t1 := new limb[10], new limb[10], new limb[10], new limb[10];
    ghost var n := 250;
    OnesValues(z, c, n);
    Head(x, z11, z5, t0, t1, z, c);
    Tail(z5, t0, t1, z, c);
    FiveSquares(t0, t1, t0, z, c, c.ones(n));
    MulPowers(out, t1, z11, z, c, 32 * c.ones(n), 11);
  }

  ghost function Themselves(z: nat): Names {
    Names((s: seq<limb>) => Fe(s) as int, e => if e >= 0 then Power(z, e) else 0, (n: nat) => Ones(n))
  }

  lemma {:induction false} NamesThemselves(z: nat)
    ensures Name(z, Themselves(z))
  {
    forall n: nat ensures Ones(n) >= 0 { Pow2Positive(n); }
  }

  /** out = z^(p - 2). */
  method CRecip(out: array<limb>, x: array<limb>)
    requires out.Length >= 10 && x.Length >= 10 && out != x && Loose(x[..10])
    modifies out
    ensures Loose(out[..10]) && Fe(out[..10]) == Power(Fe(x[..10]), P - 2)
  {
    ghost var z := Fe(x[..10]);
    NamesThemselves(z);
    PowerOne(z);
    CRecipNamed(out, x, z, Themselves(z));
  }
}
