/** Pocklington's test: a number is prime if a large enough part of its predecessor has known prime factors and
    a base of high order is known for each of them. */
module Primality {
  import opened ModArith
  import opened Fermat

  /* ---- the smallest divisor ---- */

  lemma {:induction false} SmallestDivisor(n: nat, d: nat, e: nat) returns (r: nat)
    requires 1 < d <= e < n && Divides(e, n)
    requires forall k {:trigger Divides(k, n)} :: 1 < k < d ==> !Divides(k, n)
    ensures 1 < r <= e && Divides(r, n)
    ensures forall k {:trigger Divides(k, n)} :: 1 < k < r ==> !Divides(k, n)
    decreases e - d
  {
    if Divides(d, n) { r := d; } else { r := SmallestDivisor(n, d + 1, e); }
  }

  lemma {:induction false} DividesTrans(a: nat, b: nat, c: nat)
    requires a > 0 && b > 0 && Divides(a, b) && Divides(b, c)
    ensures Divides(a, c)
  {
    var i, j := b / a, c / b;
    assert b == i * a && c == j * b;
    assert j * (i * a) == (j * i) * a;
    DividesWitness(a, c, j * i);
  }

  /** It is prime, and its square is not beyond the number. */
  lemma {:induction false} SmallestIsPrime(n: nat, r: nat)
    requires 1 < r < n && Divides(r, n)
    requires forall k {:trigger Divides(k, n)} :: 1 < k < r ==> !Divides(k, n)
    ensures IsPrime(r) && r * r <= n
  {
    forall k {:trigger Divides(k, r)} | 1 < k < r ensures !Divides(k, r) {
      if Divides(k, r) { DividesTrans(k, r, n); }
    }
    var t := n / r;
    assert n == t * r;
    Cofactor(n, r, t);
    DividesWitness(t, n, r);
    SquareAtMost(r, t);
  }

  lemma {:induction false} Cofactor(n: nat, r: nat, t: int)
    requires n == t * r && 1 < r < n
    ensures t > 1 && n == r * t
  {
  }

  lemma {:induction false} SquareAtMost(r: nat, t: int)
    ensures t >= r ==> r * r <= t * r
  {
  }

  /* ---- orders ---- */

  lemma {:induction false} ModDown(x: int, n: nat, r: nat)
    requires 1 < r && 1 < n && Divides(r, n) && x % n == 1
    ensures x % r == 1
  {
    var t, k := n / r, x / n;
    assert n == t * r && x == k * n + 1;
    assert k * (t * r) == (k * t) * r;
    ModShift(x, 1, k * t, r);
    ModSmall(1, r);
  }

  /** If b^q = 1 for a prime q that does not divide r - 1, then b = 1. */
  lemma {:induction false} OnlyOne(r: nat, q: nat, b: nat)
    requires IsPrime(r) && IsPrime(q) && Pow(b, q) % r == 1 && !Divides(q, r - 1)
    ensures b % r == 1
  {
    if Divides(r, b) { PowOfMultiple(r, b, q); }
    FermatLittle(r, b);
    if r == 2 {
      assert Pow(b, 1) == b * Pow(b, 0);
    } else {
      var x := InverseBelow(q, r - 1);
      ModSmall(1, r - 1);
      ModSmall(1, r);
      PowPeriod(b, r - 1, q * x, 1, r);
      PowMul(b, q, x);
      PowCong(Pow(b, q), 1, x, r);
      PowOne(x);
      assert Pow(b, 1) == b * Pow(b, 0);
    }
  }

  /** A prime is invertible modulo what it does not divide. */
  lemma {:induction false} InverseBelow(q: nat, m: nat) returns (x: nat)
    requires IsPrime(q) && m > 1 && !Divides(q, m)
    ensures (q * x) % m == 1
  {
    var g, u, v := Bezout(q, m);
    DividesLe(g, q);
    assert g == 1;
    x := u % m;
    InverseFromBezout(q, u, m, v);
  }

  lemma {:induction false} NotOne(b: int, w: int, r: nat)
    requires r > 1 && ((b - 1) * w) % r == 1
    ensures b % r != 1
  {
    if b % r == 1 {
      ModSmall(1, r);
      CongDiff(b, 1, r);
      ModMul(b - 1, w, r);
    }
  }

  /** A base of high order: every prime divisor of n is 1 modulo q. */
  lemma {:induction false} OrderDivides(r: nat, n: nat, q: nat, m: nat, a: nat, w: int)
    requires IsPrime(r) && n > 1 && Divides(r, n) && IsPrime(q) && n - 1 == m * q
    requires Pow(a, n - 1) % n == 1 && ((Pow(a, m) - 1) * w) % n == 1
    ensures Divides(q, r - 1)
  {
    PowMul(a, m, q);
    ModDown(Pow(a, n - 1), n, r);
    ModDown((Pow(a, m) - 1) * w, n, r);
    NotOne(Pow(a, m), w, r);
    PowNat(a, m);
    if !Divides(q, r - 1) { OnlyOne(r, q, Pow(a, m)); }
  }

  lemma {:induction false} PowNat(a: nat, e: nat)
    ensures Pow(a, e) >= 0
    decreases e
  {
    if e > 0 { PowNat(a, e - 1); }
  }

  /* ---- the test ---- */

  /** Every prime divisor of n is 1 modulo f. */
  ghost predicate Sieved(n: nat, f: nat)
    requires f > 0
  {
    forall r: nat {:trigger Divides(r, n)} :: r > 1 && IsPrime(r) && Divides(r, n) ==> Divides(f, r - 1)
  }

  lemma {:induction false} SievedTwo(n: nat)
    requires n % 2 == 1
    ensures Sieved(n, 2)
  {
    forall r: nat {:trigger Divides(r, n)} | r > 1 && IsPrime(r) && Divides(r, n) ensures Divides(2, r - 1) {
      OddDivisor(n, r);
    }
  }

  lemma {:induction false} OddDivisor(n: nat, r: nat)
    requires n % 2 == 1 && r > 1 && Divides(r, n)
    ensures (r - 1) % 2 == 0
  {
    if r % 2 == 0 { DividesTrans(2, r, n); }
  }

  lemma {:induction false} BothDivide(f: nat, q: nat, x: nat)
    requires f > 0 && IsPrime(q) && !Divides(q, f) && Divides(f, x) && Divides(q, x)
    ensures Divides(f * q, x)
  {
    var t := x / f;
    assert x == f * t;
    PrimeDividesProduct(q, f, t);
    var u := t / q;
    assert t == u * q;
    assert f * (u * q) == u * (f * q);
    DividesWitness(f * q, x, u);
  }

  lemma {:induction false} SievedMore(n: nat, f: nat, q: nat, m: nat, a: nat, w: int)
    requires n > 1 && f > 0 && Sieved(n, f) && IsPrime(q) && !Divides(q, f) && n - 1 == m * q
    requires Pow(a, n - 1) % n == 1 && ((Pow(a, m) - 1) * w) % n == 1
    ensures f * q > 0 && Sieved(n, f * q)
  {
    forall r: nat {:trigger Divides(r, n)} | r > 1 && IsPrime(r) && Divides(r, n) ensures Divides(f * q, r - 1) {
      OrderDivides(r, n, q, m, a, w);
      BothDivide(f, q, r - 1);
    }
  }

  /** Pocklington: if the factored part is large enough, n is prime. */
  lemma {:induction false} SievedPrime(n: nat, f: nat)
    requires n > 1 && f > 0 && Sieved(n, f) && f * f > n
    ensures IsPrime(n)
  {
    forall d {:trigger Divides(d, n)} | 1 < d < n ensures !Divides(d, n) {
      if Divides(d, n) {
        var r := SmallestDivisor(n, 2, d);
        SmallestIsPrime(n, r);
        DividesLe(f, r - 1);
        SquareGrows(f, r);
      }
    }
  }

  lemma {:induction false} SquareGrows(f: nat, r: nat)
    requires f < r
    ensures f * f < r * r
  {
  }

  /** Trial division up to the square root. */
  lemma {:induction false} Trial(n: nat, s: nat)
    requires n > 1 && (s + 1) * (s + 1) > n && forall k {:trigger Divides(k, n)} :: 1 < k <= s ==> !Divides(k, n)
    ensures IsPrime(n)
  {
    forall d {:trigger Divides(d, n)} | 1 < d < n ensures !Divides(d, n) {
      if Divides(d, n) {
        var r := SmallestDivisor(n, 2, d);
        SmallestIsPrime(n, r);
        if r > s + 1 { SquareGrows(s + 1, r); }
      }
    }
  }

  /* ---- computing powers ---- */

  /** A modulus, a base, and a name for the powers of the base that does not expand in proofs. */
  datatype Base = Base(n: nat, a: nat, pw: nat -> int)

  ghost predicate Named(c: Base) {
    c.n > 1 && forall e: nat {:trigger Pow(c.a, e)} :: c.pw(e) == Pow(c.a, e) % c.n
  }

  ghost function TheBase(n: nat, a: nat): Base
    requires n > 1
  {
    Base(n, a, (e: nat) => Pow(a, e) % n)
  }

  lemma {:induction false} TheBaseNamed(n: nat, a: nat)
    requires n > 1 && a < n
    ensures Named(TheBase(n, a)) && TheBase(n, a).pw(1) == a
  {
    assert Pow(a, 1) == a * Pow(a, 0);
    ModSmall(a, n);
  }

  /** The product of two powers; k is the quotient of the reduction. */
  lemma {:induction false} Times(c: Base, e: nat, v: int, f: nat, u: int, r: int, k: int)
    requires Named(c) && c.pw(e) == v && c.pw(f) == u && v * u == k * c.n + r && 0 <= r < c.n
    ensures c.pw(e + f) == r
  {
    assert c.pw(e) == Pow(c.a, e) % c.n && c.pw(f) == Pow(c.a, f) % c.n && c.pw(e + f) == Pow(c.a, e + f) % c.n;
    PowAdd(c.a, e, f);
    ModMul(Pow(c.a, e), Pow(c.a, f), c.n);
    DivModUnique(v * u, c.n, k, r);
  }

  /** One binary digit of the exponent more: a zero. */
  lemma {:induction false} Zero(c: Base, e: nat, v: int, v2: int, k: int) returns (e2: nat, r: int)
    requires Named(c) && c.pw(e) == v && v * v == k * c.n + v2 && 0 <= v2 < c.n
    ensures e2 == 2 * e && r == v2 && c.pw(e2) == v2
  {
    e2, r := 2 * e, v2;
    Times(c, e, v, e, v, v2, k);
    assert e + e == e2;
  }

  /** A one. */
  lemma {:induction false} One(c: Base, e: nat, v: int, v2: int, k: int) returns (e2: nat, r: int)
    requires Named(c) && c.pw(e) == v && c.a * (v * v) == k * c.n + v2 && 0 <= v2 < c.n
    ensures e2 == 2 * e + 1 && r == v2 && c.pw(e2) == v2
  {
    var n, w := c.n, (v * v) % c.n;
    assert v * v == ((v * v) / n) * n + w;
    var f, u := Zero(c, e, v, w, (v * v) / n);
    e2, r := f + 1, v2;
    assert c.pw(f) == Pow(c.a, f) % n && c.pw(e2) == Pow(c.a, e2) % n;
    assert Pow(c.a, e2) == c.a * Pow(c.a, f);
    ModMul(c.a, Pow(c.a, f), n);
    ModMul(c.a, v * v, n);
    DivModUnique(c.a * (v * v), n, k, v2);
  }

  /** One more prime factor of n - 1, with a^((n-1)/q) = v and w an inverse of v - 1. */
  lemma {:induction false} Factor(c: Base, f: nat, q: nat, m: nat, v: int, w: int, k: int)
    requires Named(c) && f > 0 && Sieved(c.n, f) && IsPrime(q) && !Divides(q, f) && c.n - 1 == m * q
    requires c.pw(c.n - 1) == 1 && c.pw(m) == v && (v - 1) * w == k * c.n + 1
    ensures f * q > 0 && Sieved(c.n, f * q)
  {
    var x := Pow(c.a, m);
    assert c.pw(m) == x % c.n && c.pw(c.n - 1) == Pow(c.a, c.n - 1) % c.n;
    DivModUnique((v - 1) * w, c.n, k, 1);
    SubtractOne(x, v, w, c.n);
    SievedMore(c.n, f, q, m, c.a, w);
  }

  lemma {:induction false} SubtractOne(x: int, v: int, w: int, n: nat)
    requires n > 1 && v == x % n
    ensures ((x - 1) * w) % n == ((v - 1) * w) % n
  {
    var t := x / n;
    assert x == t * n + v;
    ModShift(x - 1, v - 1, t, n);
    ModMulCong(x - 1, v - 1, w, w, n);
  }
}
