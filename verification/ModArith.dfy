/** Number theory used by the field arithmetic and the signature schemes: remainders, powers,
    greatest common divisors, inverses, and Fermat's little theorem. */
module ModArith {

  /* ---- remainders ---- */

  lemma {:induction false} MultipleGrows(k: int, m: int)
    requires m > 0
    ensures k >= 1 ==> k * m >= m
    ensures k <= -1 ==> k * m <= -m
  {
  }

  lemma {:induction false} SmallMultiple(k: int, m: int)
    requires m > 0 && -m < k * m < m
    ensures k == 0
  {
    MultipleGrows(k, m);
  }

  lemma {:induction false} DivModUnique(a: int, m: int, q: int, r: int)
    requires 0 <= r < m && a == q * m + r
    ensures a / m == q && a % m == r
  {
    var k := q - a / m;
    assert a == (a / m) * m + a % m;
    assert k * m == q * m - (a / m) * m;
    SmallMultiple(k, m);
  }

  /** Adding a multiple of the modulus changes nothing. */
  lemma {:induction false} ModShift(a: int, b: int, k: int, m: int)
    requires m > 0 && a == b + k * m
    ensures a % m == b % m
  {
    assert b == (b / m) * m + b % m;
    assert a == (b / m + k) * m + b % m;
    DivModUnique(a, m, b / m + k, b % m);
  }

  lemma {:induction false} ModSmall(a: int, m: int)
    requires 0 <= a < m
    ensures a % m == a
  {
  }

  lemma {:induction false} ModMod(a: int, m: int)
    requires m > 0
    ensures a % m % m == a % m
  {
  }

  lemma {:induction false} ModAdd(a: int, b: int, m: int)
    requires m > 0
    ensures (a % m + b % m) % m == (a + b) % m
    ensures (a + b % m) % m == (a + b) % m
    ensures (a % m + b) % m == (a + b) % m
  {
    var x, y := a / m, b / m;
    assert a == x * m + a % m && b == y * m + b % m;
    assert a + b == (a % m + b % m) + (x + y) * m;
    ModShift(a + b, a % m + b % m, x + y, m);
    ModShift(a + b, a + b % m, y, m);
    ModShift(a + b, a % m + b, x, m);
  }

  lemma {:induction false} ModSub(a: int, b: int, m: int)
    requires m > 0
    ensures (a % m - b % m) % m == (a - b) % m
  {
    var x, y := a / m, b / m;
    assert a == x * m + a % m && b == y * m + b % m;
    assert a - b == (a % m - b % m) + (x - y) * m;
    ModShift(a - b, a % m - b % m, x - y, m);
  }

  lemma {:induction false} MulComm(a: int, b: int)
    ensures a * b == b * a
  {
  }

  lemma {:induction false} MulRegroup(a: int, b: int, x: int, y: int)
    ensures (a * b) * (x * y) == (a * x) * (b * y)
  {
  }

  lemma {:induction false} MulExchange(a: int, b: int, c: int)
    ensures (a * b) * c == (a * c) * b
  {
  }

  lemma {:induction false} ModMulLeft(a: int, b: int, m: int)
    requires m > 0
    ensures (a % m * b) % m == (a * b) % m
  {
    var x := a / m;
    assert a == x * m + a % m;
    assert a * b == a % m * b + (x * b) * m;
    ModShift(a * b, a % m * b, x * b, m);
  }

  lemma {:induction false} ModMul(a: int, b: int, m: int)
    requires m > 0
    ensures (a % m * (b % m)) % m == (a * b) % m
    ensures (a * (b % m)) % m == (a * b) % m
    ensures (a % m * b) % m == (a * b) % m
  {
    var r, t := a % m, b % m;
    ModMulLeft(a, b, m);
    ModMulLeft(b, a, m);
    ModMulLeft(b, r, m);
    MulComm(b, a);
    MulComm(b, r);
    MulComm(t, a);
    MulComm(t, r);
  }

  /** Congruent factors may be exchanged. */
  lemma {:induction false} ModMulCong(a: int, a': int, b: int, b': int, m: int)
    requires m > 0 && a % m == a' % m && b % m == b' % m
    ensures (a * b) % m == (a' * b') % m
  {
    ModMul(a, b, m);
    ModMul(a', b', m);
  }

  /** `a` and `b` are congruent exactly when `m` divides their difference. */
  lemma {:induction false} CongDiff(a: int, b: int, m: int)
    requires m > 0
    ensures a % m == b % m <==> (a - b) % m == 0
  {
    ModSub(a, b, m);
    if (a - b) % m == 0 {
      var k := (a - b) / m;
      assert a - b == k * m;
      ModShift(a, b, k, m);
    }
  }

  /* ---- powers ---- */

  function Pow(b: int, e: nat): int
    decreases e
  {
    if e == 0 then 1 else b * Pow(b, e - 1)
  }

  lemma {:induction false} PowAdd(b: int, m: nat, n: nat)
    ensures Pow(b, m + n) == Pow(b, m) * Pow(b, n)
    decreases m
  {
    if m > 0 {
      PowAdd(b, m - 1, n);
      assert b * (Pow(b, m - 1) * Pow(b, n)) == (b * Pow(b, m - 1)) * Pow(b, n);
    }
  }

  lemma {:induction false} PowMul(b: int, m: nat, n: nat)
    ensures m * n >= 0 && Pow(Pow(b, m), n) == Pow(b, m * n)
    decreases n
  {
    if n > 0 {
      PowMul(b, m, n - 1);
      assert m * n == m + m * (n - 1);
      PowAdd(b, m, m * (n - 1));
    } else {
      assert m * n == 0;
    }
  }

  lemma {:induction false} PowDistributes(a: int, b: int, e: nat)
    ensures Pow(a * b, e) == Pow(a, e) * Pow(b, e)
    decreases e
  {
    if e > 0 {
      PowDistributes(a, b, e - 1);
      MulRegroup(a, b, Pow(a, e - 1), Pow(b, e - 1));
    }
  }

  lemma {:induction false} PowOne(e: nat)
    ensures Pow(1, e) == 1
    decreases e
  {
    if e > 0 { PowOne(e - 1); }
  }

  lemma {:induction false} PowCong(a: int, b: int, e: nat, m: int)
    requires m > 0 && a % m == b % m
    ensures Pow(a, e) % m == Pow(b, e) % m
    decreases e
  {
    if e > 0 {
      PowCong(a, b, e - 1, m);
      ModMulCong(a, b, Pow(a, e - 1), Pow(b, e - 1), m);
    }
  }

  lemma {:induction false} ModPow(b: int, e: nat, m: int)
    requires m > 0
    ensures Pow(b % m, e) % m == Pow(b, e) % m
  {
    ModMod(b, m);
    PowCong(b % m, b, e, m);
  }

  /** If b^n = 1 then exponents count modulo n. */
  lemma {:induction false} PowPeriod(b: int, n: nat, e: nat, f: nat, m: int)
    requires m > 0 && n > 0 && Pow(b, n) % m == 1 % m && e % n == f % n
    ensures Pow(b, e) % m == Pow(b, f) % m
  {
    PowReduce(b, n, e, m);
    PowReduce(b, n, f, m);
  }

  lemma {:induction false} PowReduce(b: int, n: nat, e: nat, m: int)
    requires m > 0 && n > 0 && Pow(b, n) % m == 1 % m
    ensures Pow(b, e) % m == Pow(b, e % n) % m
  {
    var q, r := e / n, e % n;
    assert e == n * q + r;
    PowMul(b, n, q);
    PowAdd(b, n * q, r);
    PowCong(Pow(b, n), 1, q, m);
    PowOne(q);
    ModMulCong(Pow(b, n * q), 1, Pow(b, r), Pow(b, r), m);
  }

  /* ---- divisors ---- */

  ghost predicate Divides(d: int, a: int)
    requires d > 0
  {
    a % d == 0
  }

  lemma {:induction false} DividesWitness(d: int, a: int, k: int)
    requires d > 0 && a == k * d
    ensures Divides(d, a)
  {
    DivModUnique(a, d, k, 0);
  }

  lemma {:induction false} DividesCombine(d: int, a: int, x: int, b: int, y: int)
    requires d > 0 && Divides(d, a) && Divides(d, b)
    ensures Divides(d, a * x + b * y)
  {
    var k, l := a / d, b / d;
    assert a == k * d && b == l * d;
    assert a * x + b * y == (k * x + l * y) * d;
    DividesWitness(d, a * x + b * y, k * x + l * y);
  }

  lemma {:induction false} DividesLe(d: int, a: int)
    requires d > 0 && a > 0 && Divides(d, a)
    ensures d <= a
  {
    assert a == (a / d) * d;
  }

  lemma {:induction false} PowOfMultiple(p: int, h: int, d: nat)
    requires p > 0 && d >= 1 && Divides(p, h)
    ensures Pow(h, d) % p == 0
  {
    ModMulCong(h, 0, Pow(h, d - 1), Pow(h, d - 1), p);
  }

  ghost predicate IsPrime(p: int) {
    p > 1 && forall d {:trigger Divides(d, p)} :: 1 < d < p ==> !Divides(d, p)
  }

  /** Extended Euclid: a common divisor that is a combination of both numbers. */
  lemma {:induction false} Bezout(a: nat, b: nat) returns (g: nat, x: int, y: int)
    requires a > 0 || b > 0
    ensures g > 0 && Divides(g, a) && Divides(g, b) && g == a * x + b * y
    decreases b
  {
    if b == 0 {
      g, x, y := a, 1, 0;
      DividesWitness(a, a, 1);
      DividesWitness(a, 0, 0);
    } else {
      var q, r := a / b, a % b;
      assert a == q * b + r;
      var x', y';
      g, x', y' := Bezout(b, r);
      x, y := y', x' - q * y';
      DividesCombine(g, b, q, r, 1);
      assert a * y' == (q * b) * y' + r * y' == b * (q * y') + r * y';
      assert b * (x' - q * y') == b * x' - b * (q * y');
    }
  }

  lemma {:induction false} InverseFromBezout(a: int, u: int, p: int, v: int)
    requires p > 1 && a * u + p * v == 1
    ensures (a * (u % p)) % p == 1
  {
    NegatedProduct(v, p);
    ModShift(a * u, 1, -v, p);
    ModSmall(1, p);
    ModMul(a, u, p);
  }

  lemma {:induction false} NegatedProduct(v: int, p: int)
    ensures (-v) * p == -(p * v)
  {
  }

  /** A number a prime does not divide has an inverse modulo it. */
  lemma {:induction false} PrimeInverse(p: int, a: nat) returns (x: nat)
    requires IsPrime(p) && !Divides(p, a)
    ensures x < p && (a * x) % p == 1
  {
    var g, u, v := Bezout(a, p);
    DividesLe(g, p);
    assert g == 1;
    x := u % p;
    InverseFromBezout(a, u, p, v);
  }

  /** Euclid's lemma. */
  lemma {:induction false} PrimeDividesProduct(p: int, a: int, b: int)
    requires IsPrime(p) && Divides(p, a * b)
    ensures Divides(p, a) || Divides(p, b)
  {
    if !Divides(p, a) {
      var a' := a % p;
      ModMod(a, p);
      var x := PrimeInverse(p, a');
      ModMul(a, x, p);
      CancelUnit(a, b, x, p);
    }
  }

  lemma {:induction false} CancelUnit(a: int, b: int, x: int, p: int)
    requires p > 1 && (a * x) % p == 1 && (a * b) % p == 0
    ensures b % p == 0
  {
    MulExchangeLast(a, x, b);
    CancelNamed(a * x, b, a * b, x, p);
  }

  lemma {:induction false} CancelNamed(u: int, b: int, v: int, x: int, p: int)
    requires p > 1 && u % p == 1 && v % p == 0 && u * b == v * x
    ensures b % p == 0
  {
    ModMulLeft(u, b, p);
    ModMulLeft(v, x, p);
    assert 1 * b == b && 0 * x == 0;
  }

  lemma {:induction false} MulExchangeLast(a: int, x: int, b: int)
    ensures (a * x) * b == (a * b) * x
  {
  }

  lemma {:induction false} PrimeCancel(p: int, c: int, a: int, b: int)
    requires IsPrime(p) && !Divides(p, c) && (c * a) % p == (c * b) % p
    ensures a % p == b % p
  {
    CongDiff(c * a, c * b, p);
    assert c * a - c * b == c * (a - b);
    PrimeDividesProduct(p, c, a - b);
    CongDiff(a, b, p);
  }
}
