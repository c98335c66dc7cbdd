/** RSA key generation (components/dropbear/genrsa.c). The primes that `mp_prime_next_prime`
    produces from random buffers are an input list; running out of them is `None`. */
module GenRsa {
  import opened ModArith
  import opened Bytes
  import opened Bignum
  import opened Rsa
  import Mpint

  const RSA_E: nat := 65537

  /** Skips primes p with gcd(p-1, e) != 1. */
  method GetRsaPrime(primes: seq<nat>, e: nat, start: nat) returns (next: nat)
    requires start <= |primes| && e > 0 && AllPrime(primes)
    ensures start <= next <= |primes|
    ensures next < |primes| ==> Gcd(primes[next] - 1, e) == 1
    ensures forall i :: start <= i < next ==> Gcd(primes[i] - 1, e) != 1
  {
    next := start;
    while next < |primes| && Gcd(primes[next] - 1, e) != 1
      invariant start <= next <= |primes|
      invariant forall i :: start <= i < next ==> Gcd(primes[i] - 1, e) != 1
    {
      next := next + 1;
    }
  }

  /* ---- which primes are taken ---- */

  /** The primes p with gcd(p-1, e) = 1, in order. */
  function Eligible(primes: seq<nat>, e: nat): seq<nat>
    requires e > 0 && AllPrime(primes)
  {
    if |primes| == 0 then []
    else
      var rest := Eligible(primes[1..], e);
      if Gcd(primes[0] - 1, e) == 1 then [primes[0]] + rest else rest
  }

  /** The first two whose product has the size asked for, taking two at a time. */
  function FirstPair(es: seq<nat>, size: nat): Option<(nat, nat)> {
    if |es| < 2 then None
    else if Mpint.CountBits(es[0] * es[1]) == size then Some((es[0], es[1]))
    else FirstPair(es[2..], size)
  }

  lemma {:induction false} PairStep(es: seq<nat>, a: nat, b: nat, rest: seq<nat>, size: nat)
    requires es == [a, b] + rest
    ensures FirstPair(es, size) == if Mpint.CountBits(a * b) == size then Some((a, b)) else FirstPair(rest, size)
  {
    assert es[2..] == rest;
  }

  predicate SizeOk(size: nat) { 512 <= size <= 4096 && size % 8 == 0 }

  ghost predicate AllPrime(primes: seq<nat>) {
    forall i :: 0 <= i < |primes| ==> primes[i] > 1 && IsPrime(primes[i])
  }

  lemma {:induction false} EligibleFrom(primes: seq<nat>, e: nat, start: nat, next: nat)
    requires e > 0 && AllPrime(primes) && start <= next <= |primes|
    requires forall i :: start <= i < next ==> Gcd(primes[i] - 1, e) != 1
    requires next < |primes| ==> Gcd(primes[next] - 1, e) == 1
    ensures Eligible(primes[start..], e) ==
            if next < |primes| then [primes[next]] + Eligible(primes[next + 1..], e) else []
    decreases next - start
  {
    var s := primes[start..];
    if start < next {
      assert s[1..] == primes[start + 1..] && s[0] == primes[start];
      EligibleFrom(primes, e, start + 1, next);
    } else if next < |primes| {
      assert s[1..] == primes[next + 1..] && s[0] == primes[next];
    }
  }

  /** The key for two primes: d is the inverse of e modulo lcm(p-1, q-1). */
  method KeyFor(p: nat, q: nat, size: nat) returns (key: RsaKey)
    requires p > 1 && q > 1 && IsPrime(p) && IsPrime(q) && SizeOk(size) && Mpint.CountBits(p * q) == size
    requires Gcd(p - 1, RSA_E) == 1 && Gcd(q - 1, RSA_E) == 1
    ensures KeyFrom(key, p, q) && key.e == RSA_E
  {
    var lcm := Lcm(p - 1, q - 1);
    LcmIsMultiple(p - 1, q - 1);
    var d := InvMod(RSA_E, lcm);
    ExponentInvertible(RSA_E, p - 1, q - 1);
    LcmAboveOne(p, q, p * q, size);
    ExponentPositive(RSA_E, d.value, lcm);
    key := RsaKey(p * q, RSA_E, d.value);
  }

  /** Succeeds exactly if there is such a pair, and takes the first. */
  method GenRsaPrivKey(primes: seq<nat>, size: nat) returns (key: Option<RsaKey>, p: nat, q: nat)
    requires AllPrime(primes)
    ensures key.Some? <==> SizeOk(size) && FirstPair(Eligible(primes, RSA_E), size).Some?
    ensures key.Some? ==> FirstPair(Eligible(primes, RSA_E), size) == Some((p, q)) && Mpint.CountBits(key.value.n) == size
    ensures key.Some? ==> KeyFrom(key.value, p, q) && key.value.e == RSA_E
  {
    key, p, q := None, 0, 0;
    if size < 512 || size > 4096 || size % 8 != 0 { return; }
    var pair := FindPair(primes, RSA_E, size);
    if pair.Some? {
      p, q := pair.value.0, pair.value.1;
      var k := KeyFor(p, q, size);
      key := Some(k);
    }
  }

  /** The loop over pairs. */
  method FindPair(primes: seq<nat>, e: nat, size: nat) returns (pair: Option<(nat, nat)>)
    requires e > 0 && AllPrime(primes)
    ensures pair == FirstPair(Eligible(primes, e), size)
    ensures pair.Some? ==>
              var (p, q) := pair.value;
              && p in primes && q in primes && Gcd(p - 1, e) == 1 && Gcd(q - 1, e) == 1
              && Mpint.CountBits(p * q) == size
  {
    var next := 0;
    assert primes[0..] == primes;
    while true
      invariant 0 <= next <= |primes|
      invariant FirstPair(Eligible(primes[next..], e), size) == FirstPair(Eligible(primes, e), size)
      decreases |primes| - next
    {
      var i, j := NextPair(primes, e, next);
      if j >= |primes| { return None; }
      var p, q := primes[i], primes[j];
      PairStep(Eligible(primes[next..], e), p, q, Eligible(primes[j + 1..], e), size);
      if Mpint.CountBits(p * q) == size { return Some((p, q)); }
      next := j + 1;
    }
  }

  /** Two calls of `getrsaprime`. */
  method NextPair(primes: seq<nat>, e: nat, next: nat) returns (i: nat, j: nat)
    requires e > 0 && AllPrime(primes) && next <= |primes|
    ensures j < |primes| ==> next <= i < j && Gcd(primes[i] - 1, e) == 1 && Gcd(primes[j] - 1, e) == 1
    ensures var es := Eligible(primes[next..], e);
            if j < |primes| then es == [primes[i], primes[j]] + Eligible(primes[j + 1..], e) else |es| < 2
  {
    i := GetRsaPrime(primes, e, next);
    EligibleFrom(primes, e, next, i);
    j := i;
    if i < |primes| {
      j := GetRsaPrime(primes, e, i + 1);
      EligibleFrom(primes, e, i + 1, j);
    }
  }

  /** The same prime twice in a row is taken for both p and q. */
  lemma {:induction false} SamePrimeTwice(r: nat, size: nat)
    requires r > 1 && IsPrime(r) && Gcd(r - 1, RSA_E) == 1 && Mpint.CountBits(r * r) == size
    ensures AllPrime([r, r]) && FirstPair(Eligible([r, r], RSA_E), size) == Some((r, r))
  {
    var one := [r];
    assert [r, r][1..] == one && one[1..] == [];
    assert Eligible(one, RSA_E) == [r] + [];
    assert Eligible([r, r], RSA_E) == [r] + [r];
  }

  /** So key generation can return a key with p = q, and such a key does not recover every message. */
  lemma {:induction false} EqualPrimesFail(key: RsaKey, r: nat)
    requires KeyFrom(key, r, r) && key.e == RSA_E && key.n > 0
    ensures !RecoversAll(key)
  {
    AtLeastE(key.d);
    CorrectIffDistinct(key, r, r);
  }

  lemma {:induction false} AtLeastE(d: nat)
    ensures RSA_E * d >= 1 ==> RSA_E * d >= 2
  {
  }

  method EqualPrimes(r: nat, size: nat) returns (key: Option<RsaKey>)
    requires r > 1 && IsPrime(r) && Gcd(r - 1, RSA_E) == 1 && SizeOk(size) && Mpint.CountBits(r * r) == size
    ensures key.Some? && KeyFrom(key.value, r, r) && key.value.n == r * r > 0 && !RecoversAll(key.value)
  {
    SamePrimeTwice(r, size);
    var p, q;
    key, p, q := GenRsaPrivKey([r, r], size);
    EqualPrimesFail(key.value, r);
  }

  /* ---- e has an inverse modulo lcm(p-1, q-1) ---- */

  lemma {:induction false} GcdGreatest(d: nat, a: nat, b: nat)
    requires (a > 0 || b > 0) && d > 0 && Divides(d, a) && Divides(d, b)
    ensures Divides(d, Gcd(a, b))
    decreases b
  {
    if b > 0 {
      var k := a / b;
      assert a % b == a * 1 + b * (-k);
      DividesCombine(d, a, 1, b, -k);
      GcdGreatest(d, b, a % b);
    }
  }

  lemma {:induction false} CoprimeInverse(e: nat, a: nat) returns (x: int, y: int)
    requires e > 0 && a > 0 && Gcd(a, e) == 1
    ensures a * y + e * x == 1
  {
    var g, u, v := Bezout(a, e);
    GcdGreatest(g, a, e);
    DividesLe(g, 1);
    x, y := v, u;
  }

  /** (1 - e*x)(1 - e*x') is a multiple of a*b. */
  lemma {:induction false} InverseOfProduct(e: int, a: int, b: int, x: int, y: int, x': int, y': int)
    requires a * y + e * x == 1 && b * y' + e * x' == 1
    ensures e * (x + x' - e * x * x') == 1 + (-(y * y')) * (a * b)
  {
    var s, t := e * x, e * x';
    assert e * (x + x' - e * x * x') == s + t - s * t by { Spread(e, x, x'); }
    assert (1 - s) * (1 - t) == (y * y') * (a * b) by { MulRegroup(a, y, b, y'); }
    assert (1 - s) * (1 - t) == 1 - s - t + s * t;
  }

  lemma {:induction false} Spread(e: int, x: int, x': int)
    ensures e * (x + x' - e * x * x') == e * x + e * x' - (e * x) * (e * x')
  {
    assert e * (e * x * x') == (e * x) * (e * x');
    assert e * (x + x' - e * x * x') == e * x + e * x' - e * (e * x * x');
  }

  lemma {:induction false} InverseModDivisor(f: int, l: int, k: int, m: int)
    requires l > 0 && Divides(l, m) && f == 1 + k * m
    ensures f % l == 1 % l
  {
    var j := m / l;
    assert m == j * l;
    assert k * (j * l) == (k * j) * l;
    ModShift(f, 1, k * j, l);
  }

  lemma {:induction false} ExponentInvertible(e: nat, a: nat, b: nat)
    requires e > 0 && a > 0 && b > 0 && Gcd(a, e) == 1 && Gcd(b, e) == 1
    requires Lcm(a, b) > 0
    ensures InvMod(e, Lcm(a, b)).Some?
  {
    var l := Lcm(a, b);
    LcmIsMultiple(a, b);
    var x, y := CoprimeInverse(e, a);
    var x', y' := CoprimeInverse(e, b);
    InverseOfProduct(e, a, b, x, y, x', y');
    var z := x + x' - e * x * x';
    InverseModDivisor(e * z, l, -(y * y'), a * b);
    ModMul(e, z, l);
    assert 0 <= z % l < l && (e * (z % l)) % l == 1 % l;
  }

  lemma {:induction false} FourHasThreeBits()
    ensures Mpint.CountBits(2 * 2) == 3
  {
  }

  lemma {:induction false} LcmAboveOne(p: nat, q: nat, n: nat, size: nat)
    requires p > 1 && q > 1 && n == p * q && Mpint.CountBits(n) == size >= 512
    ensures Lcm(p - 1, q - 1) > 1
  {
    var l := Lcm(p - 1, q - 1);
    LcmIsMultiple(p - 1, q - 1);
    if l == 1 {
      DividesLe(p - 1, l);
      DividesLe(q - 1, l);
      FourHasThreeBits();
    }
  }

  lemma {:induction false} ExponentPositive(e: nat, d: nat, l: nat)
    requires e > 0 && l > 1 && (e * d) % l == 1 % l
    ensures e * d >= 1
  {
    if d == 0 {
      assert e * d == 0;
      ModSmall(0, l);
      ModSmall(1, l);
    }
  }
}
