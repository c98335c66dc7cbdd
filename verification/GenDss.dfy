/** DSA key generation (components/dropbear/gendss.c). Random buffers are an input; running out
    of them is `None`. The probabilistic prime test is a parameter assumed sound. */
module GenDss {
  import opened ModArith
  import opened Lagrange
  import opened Bytes
  import opened Bignum
  import opened Dss

  ghost predicate Sound(test: nat -> bool) {
    forall n: nat :: test(n) ==> IsPrime(n)
  }

  function SetTopBit(buf: seq<byte>): (r: seq<byte>)
    requires |buf| > 0
    ensures |r| == |buf|
  {
    buf[0 := if buf[0] < 128 then buf[0] + 128 else buf[0]]
  }

  /** X - (X mod 2q) + 1 for a random X with its top bit set. */
  function Candidate(buf: seq<byte>, q: nat): nat
    requires |buf| > 0 && q > 0
  {
    var x := FromBE(SetTopBit(buf));
    RoundedDown(x, q);
    x - x % (2 * q) + 1
  }

  /** Takes the first candidate that passes the test. */
  method GetP(q: nat, rand: seq<seq<byte>>, test: nat -> bool) returns (p: Option<nat>)
    requires q > 0 && Sound(test) && forall i :: 0 <= i < |rand| ==> |rand[i]| > 0
    ensures p.Some? ==> IsPrime(p.value) && (p.value - 1) % (2 * q) == 0 && (p.value - 1) % q == 0
    ensures p.Some? <==> exists i :: 0 <= i < |rand| && test(Candidate(rand[i], q))
  {
    var temp2q := 2 * q;
    for i := 0 to |rand|
      invariant forall k :: 0 <= k < i ==> !test(Candidate(rand[k], q))
    {
      var tempX := FromBE(SetTopBit(rand[i]));
      var tempC := tempX % temp2q;
      var tempP := tempX - tempC + 1;
      RoundedDown(tempX, q);
      assert tempP == Candidate(rand[i], q);
      if test(tempP) { return Some(tempP); }
    }
    return None;
  }

  lemma {:induction false} RoundedDown(x: nat, q: nat)
    requires q > 0
    ensures x - x % (2 * q) >= 0
    ensures Divides(2 * q, x - x % (2 * q)) && Divides(q, x - x % (2 * q))
  {
    var y := MultipleBelow(x, 2 * q);
    HalfDivides(y, q);
  }

  lemma {:induction false} MultipleBelow(x: nat, m: nat) returns (y: nat)
    requires m > 0
    ensures y == x - x % m && Divides(m, y)
  {
    var k, r := x / m, x % m;
    assert x == k * m + r;
    y := x - r;
    DividesWitness(m, y, k);
  }

  lemma {:induction false} HalfDivides(y: int, q: nat)
    requires q > 0 && Divides(2 * q, y)
    ensures Divides(q, y)
  {
    var k := y / (2 * q);
    TwiceMultiple(k, q);
    DividesWitness(q, y, 2 * k);
  }

  lemma {:induction false} TwiceMultiple(k: int, q: int)
    ensures k * (2 * q) == (2 * k) * q
  {
  }

  /** A power of something a prime does not divide is not divisible by it. */
  lemma {:induction false} PowerNonzero(p: int, h: int, d: nat)
    requires IsPrime(p) && 1 <= h < p
    ensures Pow(h, d) % p != 0
    decreases d
  {
    ModSmall(1, p);
    if d > 0 {
      PowerNonzero(p, h, d - 1);
      ModSmall(h, p);
      if Divides(p, h * Pow(h, d - 1)) { PrimeDividesProduct(p, h, Pow(h, d - 1)); }
    }
  }

  lemma {:induction false} CofactorSmall(p: int, q: int)
    requires p > 2 && q > 1 && (p - 1) % q == 0
    ensures 1 <= (p - 1) / q && (p - 1) / q + 1 < p
  {
    CofactorPositive(p, q);
    AtLeastDouble((p - 1) / q, q);
  }

  lemma {:induction false} AtLeastDouble(d: int, q: int)
    requires d >= 1 && q >= 2
    ensures d * q >= 2 * d
  {
  }

  /** h = 1, 2, 3, ... until g = h^((p-1)/q) mod p exceeds one. It stops with h <= (p-1)/q + 1,
      because x^d = 1 has at most d solutions. */
  method GetG(p: nat, q: nat) returns (g: nat, ghost root: nat)
    requires IsPrime(p) && p > 2 && q > 1 && (p - 1) % q == 0
    ensures g == Pow(root, (p - 1) / q) % p && g > 1
    ensures 2 <= root <= (p - 1) / q + 1
  {
    var div := (p - 1) / q;
    CofactorSmall(p, q);
    SomeNonRoot(p, div);
    var h := 1;
    g := 0;
    root := 0;
    while true
      invariant 1 <= h <= div + 1 < p
      invariant forall x :: 1 <= x < h ==> Pow(x, div) % p == 1
      decreases div + 1 - h
    {
      g := ExptMod(h, div, p);
      PowerNonzero(p, h, div);
      root := h;
      if g > 1 {
        PowOne(div);
        ModSmall(1, p);
        return;
      }
      h := h + 1;
    }
  }

  /** `x` is the random private exponent, 0 < x < q. */
  method GenDssPrivKey(q: nat, rand: seq<seq<byte>>, test: nat -> bool, x: nat)
    returns (key: Option<Key>, ghost h: nat)
    requires IsPrime(q) && Sound(test) && forall i :: 0 <= i < |rand| ==> |rand[i]| > 0
    requires 0 < x < q
    ensures key.Some? ==> KeyFrom(key.value, h) && key.value.pub.q == q && key.value.x == x
    ensures key.Some? <==> exists i :: 0 <= i < |rand| && test(Candidate(rand[i], q))
  {
    h := 0;
    var p := GetP(q, rand, test);
    if p.None? { return None, h; }
    ModulusLarge(p.value, q);
    var g;
    g, h := GetG(p.value, q);
    var y := ExptMod(g, x, p.value);
    key := Some(Key(PublicKey(p.value, q, g, y), x));
  }

  lemma {:induction false} ModulusLarge(p: int, q: int)
    requires p > 1 && q > 1 && (p - 1) % (2 * q) == 0
    ensures p > 2
  {
    DividesLe(2 * q, p - 1);
  }
}
