/** Lagrange's theorem on roots: a polynomial of degree n with n + 1 roots modulo a prime has
    leading coefficient zero. Coefficients are listed from the constant term up. */
module Lagrange {
  import opened ModArith

  function Eval(c: seq<int>, x: int): int
    decreases |c|
  {
    if |c| == 0 then 0 else c[0] + x * Eval(c[1..], x)
  }

  /** a + r*b, for a `b` that is no longer than `a`. */
  function AddScaled(a: seq<int>, r: int, b: seq<int>): (s: seq<int>)
    requires |b| <= |a|
    ensures |s| == |a|
    decreases |a|
  {
    if |b| == 0 then a else [a[0] + r * b[0]] + AddScaled(a[1..], r, b[1..])
  }

  lemma {:induction false} EvalAddScaled(a: seq<int>, r: int, b: seq<int>, x: int)
    requires |b| <= |a|
    ensures Eval(AddScaled(a, r, b), x) == Eval(a, x) + r * Eval(b, x)
    decreases |a|
  {
    if |b| > 0 {
      EvalAddScaled(a[1..], r, b[1..], x);
      var u, v := Eval(a[1..], x), Eval(b[1..], x);
      var s := AddScaled(a, r, b);
      assert s[1..] == AddScaled(a[1..], r, b[1..]);
      Expand(a[0], b[0], r, x, u, v);
    }
  }

  lemma {:induction false} Expand(a: int, b: int, r: int, x: int, u: int, v: int)
    ensures (a + r * b) + x * (u + r * v) == (a + x * u) + r * (b + x * v)
  {
    assert x * (r * v) == r * (x * v);
  }

  lemma {:induction false} AddScaledLast(a: seq<int>, r: int, b: seq<int>)
    requires |b| < |a|
    ensures AddScaled(a, r, b)[|a| - 1] == a[|a| - 1]
    decreases |a|
  {
    if |b| > 0 { AddScaledLast(a[1..], r, b[1..]); }
  }

  /** Synthetic division by x - r. */
  function Quotient(c: seq<int>, r: int): (g: seq<int>)
    ensures |g| == if |c| == 0 then 0 else |c| - 1
    decreases |c|
  {
    if |c| <= 1 then [] else AddScaled(c[1..], r, Quotient(c[1..], r))
  }

  lemma {:induction false} FactorOut(c: seq<int>, r: int, x: int)
    ensures Eval(c, x) - Eval(c, r) == (x - r) * Eval(Quotient(c, r), x)
    decreases |c|
  {
    if |c| == 1 {
      assert c[1..] == [];
      assert Eval(c, x) == c[0] && Eval(c, r) == c[0];
    } else if |c| > 1 {
      var d := c[1..];
      var g := Quotient(d, r);
      FactorOut(d, r, x);
      EvalAddScaled(d, r, g, x);
      Rearrange(x, r, Eval(d, x), Eval(d, r), Eval(g, x));
      assert Eval(c, x) == c[0] + x * Eval(d, x) && Eval(c, r) == c[0] + r * Eval(d, r);
    }
  }

  lemma {:induction false} Rearrange(x: int, r: int, dx: int, dr: int, g: int)
    requires dx - dr == (x - r) * g
    ensures x * dx - r * dr == (x - r) * (dx + r * g)
  {
    assert r * ((x - r) * g) == (x - r) * (r * g);
  }

  lemma {:induction false} QuotientLast(c: seq<int>, r: int)
    requires |c| >= 2
    ensures Quotient(c, r)[|c| - 2] == c[|c| - 1]
  {
    AddScaledLast(c[1..], r, Quotient(c[1..], r));
  }

  lemma {:induction false} RootOfFactor(p: int, a: int, b: int, u: int, v: int)
    requires IsPrime(p) && 0 < u < p && a % p == 0 && b % p == 0 && a - b == u * v
    ensures v % p == 0
  {
    CongDiff(a, b, p);
    PrimeDividesProduct(p, u, v);
    ModSmall(u, p);
  }

  lemma {:induction false} RootOfQuotient(p: int, c: seq<int>, r: int, x: int)
    requires IsPrime(p) && 0 < x - r < p
    requires Eval(c, r) % p == 0 && Eval(c, x) % p == 0
    ensures Eval(Quotient(c, r), x) % p == 0
  {
    FactorOut(c, r, x);
    RootOfFactor(p, Eval(c, x), Eval(c, r), x - r, Eval(Quotient(c, r), x));
  }

  /** Roots at lo, lo+1, ..., lo+n for a polynomial of degree at most n < p. */
  lemma {:induction false} LeadingVanishes(p: int, c: seq<int>, lo: int)
    requires IsPrime(p) && 1 <= |c| <= p
    requires forall x :: lo <= x < lo + |c| ==> Eval(c, x) % p == 0
    ensures c[|c| - 1] % p == 0
    decreases |c|
  {
    if |c| == 1 {
      assert c[1..] == [];
      assert Eval(c, lo) == c[0];
    } else {
      var g := Quotient(c, lo);
      forall x | lo + 1 <= x < lo + 1 + |g| ensures Eval(g, x) % p == 0 {
        RootOfQuotient(p, c, lo, x);
      }
      LeadingVanishes(p, g, lo + 1);
      QuotientLast(c, lo);
    }
  }

  /** x^d - 1. */
  function UnityPoly(d: nat): (c: seq<int>)
    requires d >= 1
    ensures |c| == d + 1 && c[d] == 1
  {
    [-1] + Monomial(d - 1)
  }

  function Monomial(d: nat): (c: seq<int>)
    ensures |c| == d + 1 && c[d] == 1
  {
    if d == 0 then [1] else [0] + Monomial(d - 1)
  }

  lemma {:induction false} EvalMonomial(d: nat, x: int)
    ensures Eval(Monomial(d), x) == Pow(x, d)
    decreases d
  {
    if d == 0 {
      assert Monomial(0)[1..] == [];
    } else {
      EvalMonomial(d - 1, x);
      assert Monomial(d)[1..] == Monomial(d - 1);
    }
  }

  /** Not every one of 1, ..., d+1 is a d-th root of unity modulo p. */
  lemma {:induction false} SomeNonRoot(p: int, d: nat)
    requires IsPrime(p) && 1 <= d < p
    ensures exists x :: 1 <= x <= d + 1 && Pow(x, d) % p != 1
  {
    var c := UnityPoly(d);
    if forall x :: 1 <= x <= d + 1 ==> Pow(x, d) % p == 1 {
      forall x | 1 <= x < 1 + |c| ensures Eval(c, x) % p == 0 {
        EvalMonomial(d - 1, x);
        assert c[1..] == Monomial(d - 1);
        CongDiff(Pow(x, d), 1, p);
        ModSmall(1, p);
      }
      LeadingVanishes(p, c, 1);
      ModSmall(1, p);
    }
  }
}
