/** `curve25519_donna`: X25519 of section 5 of RFC 7748. */
module Donna {
  import opened ModArith
  import opened Powers
  import opened Bytes
  import opened Limbs
  import opened Field
  import opened Reduce
  import opened Rfc7748
  import opened Ladder
  import opened CMult
  import opened Recip
  import opened Expand
  import opened Contract
  import StepCount

  /** e[0] &= 248; e[31] &= 127; e[31] |= 64. */
  function Clamped(secret: seq<byte>): (e: seq<byte>)
    requires |secret| == 32
    ensures |e| == 32
  {
    secret[0 := secret[0] / 8 * 8][31 := ClampTop(secret[31])]
  }

  /** Bit 7 cleared, bit 6 set. */
  function ClampTop(b: byte): byte { b % 64 + 64 }

  lemma {:induction false} LastByte(low: seq<byte>, d: byte)
    ensures FromLE(low + [d]) == FromLE(low) + Pow2(8 * |low|) * d && FromLE(low) < Pow2(8 * |low|)
  {
    FromLEConcat(low, [d]);
    Contract.OneByte(d);
    FromLEBound(low);
  }

  /** A scalar with a multiple of 8 as its first byte and bit 6, but not bit 7, set in its last. */
  lemma {:induction false} ScalarRange(low: seq<byte>, d: byte, n: nat)
    requires |low| > 0 && low[0] % 8 == 0 && 64 <= d < 128 && n == 8 * |low| + 7
    ensures var k := FromLE(low + [d]); k % 8 == 0 && k < Pow2(n) <= 2 * k
  {
    var m := 8 * |low|;
    LastByte(low, d);
    ClampedTop(m, n, FromLE(low), d);
    MultipleOfEight(low);
    PowerOfEight(m);
    EightMore(FromLE(low), Pow2(m), d);
  }

  lemma {:induction false} PowerOfEight(m: nat)
    requires m >= 3
    ensures Pow2(m) % 8 == 0
  {
    var j := m - 3;
    Pow2Add(3, j);
    assert Pow2(3) == 8;
  }

  /** A clamped scalar has 255 bits, the top one set, and is a multiple of the cofactor 8. */
  lemma {:induction false} ClampedScalar(secret: seq<byte>, n: nat)
    requires |secret| == 32 && n == 255
    ensures var k := FromLE(Clamped(secret)); k % 8 == 0 && k < Pow2(n) <= 2 * k
  {
    var e := Clamped(secret);
    assert e[..31] + [e[31]] == e;
    ScalarRange(e[..31], e[31], n);
  }

  lemma {:induction false} ClampedTop(m: nat, n: nat, low: nat, top: nat)
    requires n == m + 7 && low < Pow2(m) && 64 <= top < 128
    ensures low + Pow2(m) * top < Pow2(n) <= 2 * (low + Pow2(m) * top)
  {
    var seven := 7;
    Pow2Add(m, seven);
    assert Pow2(7) == 128;
    TopBounds(Pow2(m), top);
  }

  lemma {:induction false} TopBounds(p: nat, top: nat)
    requires 64 <= top < 128
    ensures p * 64 <= p * top && p * top + p <= p * 128
  {
  }

  lemma {:induction false} MultipleOfEight(b: seq<byte>)
    requires |b| > 0 && b[0] % 8 == 0
    ensures FromLE(b) % 8 == 0
  {
  }

  lemma {:induction false} EightMore(a: nat, p: nat, t: nat)
    requires a % 8 == 0 && p % 8 == 0
    ensures (a + p * t) % 8 == 0
  {
    var x, y := a / 8, p / 8;
    assert a == x * 8 && p == y * 8;
    assert a + p * t == (x + y * t) * 8 by { assert (y * 8) * t == (y * t) * 8; }
    DivModUnique(a + p * t, 8, x + y * t, 0);
  }

  /** The 256 steps of the code and the 255 of RFC 7748 agree on every clamped scalar. */
  lemma {:induction false} SameAsRfc(secret: seq<byte>, u: int, n: nat)
    requires |secret| == 32 && n == 255 && 0 <= u < P
    ensures X25519(8 * |secret|, FromLE(Clamped(secret)), u) == X25519(n, FromLE(Clamped(secret)), u)
  {
    ClampedScalar(secret, n);
    StepCount.ExtraStep(FromLE(Clamped(secret)), u, n);
    assert 8 * |secret| == n + 1;
  }

  /** The result as a field element: X / Z after the ladder. */
  lemma {:induction false} ResultIsX25519(bits: nat, k: nat, u: int, x: int, z: int, s: State)
    requires s == Loop(Step, Scalar(k), u, bits, Rfc7748.Start(u), 0) && x == s.x2 && z == s.z2 && z >= 0
    ensures Mul(x, Power(z, P - 2)) == X25519(bits, k, u)
  {
    ModMul(x, Pow(z, P - 2), P);
  }

  lemma {:induction false} StrictWithin(s: seq<limb>)
    requires Nearly(s)
    ensures forall k :: 0 <= k < 10 ==> Within(s[k], 0x4000_0000_0000_0000)
  {
  }

  /** The ladder and the division. */
  method Multiply(z: array<limb>, e: seq<byte>, bp: array<limb>)
    requires z.Length == 11 && bp.Length == 10 && z != bp && Point(bp[..10])
    modifies z
    ensures Nearly(z[..10]) && Fe(z[..10]) == X25519(8 * |e|, FromLE(e), Fe(bp[..10]))
  {
    var x, zmone := new limb[10], new limb[10];
    CMult.CMult(x, z, e, bp);
    FitsLoose(x[..10], z[..10]);
    ghost var u, zv := Fe(bp[..10]), Fe(z[..10]);
    ghost var s := Loop(Step, Scalar(FromLE(e)), u, 8 * |e|, Rfc7748.Start(u), 0);
    CRecip(zmone, z);
    FMul(z, x, zmone);
    ResultIsX25519(8 * |e|, FromLE(e), u, Fe(x[..10]), zv, s);
  }

  lemma {:induction false} FitsLoose(x: seq<limb>, z: seq<limb>)
    requires Fits(x, z)
    ensures Loose(x) && Loose(z)
  {
    forall i | 0 <= i < 10 ensures Within(x[i], LooseBound(i)) && Within(z[i], LooseBound(i)) {
      assert Abs(x[i]) + Abs(z[i]) <= LooseBound(i);
    }
  }

  method Encode(mypublic: array<byte>, z: array<limb>)
    requires mypublic.Length == 32 && z.Length == 11 && Nearly(z[..10])
    modifies mypublic, z
    ensures FromLE(mypublic[..32]) < P + 19 && FromLE(mypublic[..32]) % P == Fe(old(z[..10]))
  {
    StrictWithin(z[..10]);
    FReduceCoefficients(z);
    FContract(mypublic, z);
  }

  method Decode(bp: array<limb>, basepoint: seq<byte>)
    requires bp.Length == 10 && |basepoint| == 32
    modifies bp
    ensures Point(bp[..10]) && Fe(bp[..10]) == FromLE(basepoint) % P
  {
    FExpand(bp, basepoint);
  }

  /** The output is below 2^255 and congruent modulo p to X25519 of the clamped secret, with the 255 ladder steps of
      RFC 7748, at the point whose 256 bits are all taken from the input. */
  method Curve25519Donna(mypublic: array<byte>, secret: seq<byte>, basepoint: seq<byte>)
    requires mypublic.Length == 32 && |secret| == 32 && |basepoint| == 32
    modifies mypublic
    ensures FromLE(mypublic[..32]) < P + 19
    ensures FromLE(mypublic[..32]) % P == X25519(8 * |secret| - 1, FromLE(Clamped(secret)), FromLE(basepoint) % P)
  {
    var bp, z := new limb[10], new limb[11];
    var e := Clamped(secret);
    Decode(bp, basepoint);
    Multiply(z, e, bp);
    SameAsRfc(secret, FromLE(basepoint) % P, 8 * |secret| - 1);
    Encode(mypublic, z);
  }
}
