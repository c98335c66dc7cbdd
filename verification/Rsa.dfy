/** RSA signatures (components/dropbear/rsa.c) and key generation (components/dropbear/genrsa.c). */
module Rsa {
  import opened ModArith
  import opened Fermat
  import opened Bytes
  import opened Bignum

  const BUF_MAX_SIZE: nat := 1_000_000_000
  const ASN1_MAGIC: seq<byte> :=
    [0x00, 0x30, 0x21, 0x30, 0x09, 0x06, 0x05, 0x2b, 0x0e, 0x03, 0x02, 0x1a, 0x05, 0x00, 0x04, 0x14]

  /* ---- the padded message ---- */

  /** EM = 01 | FF* | 00 | prefix | hash, one byte shorter than the modulus. */
  function PaddedMessage(nsize: nat, msghash: seq<byte>): (em: seq<byte>)
    requires nsize >= 38 && |msghash| == SHA1_HASH_SIZE
    ensures |em| == nsize - 1
  {
    [1] + seq(nsize - 38, i => 0xff) + ASN1_MAGIC + msghash
  }

  method RsaPadEm(n: nat, msghash: seq<byte>) returns (em: Option<nat>)
    requires |msghash| == SHA1_HASH_SIZE
    ensures em.Some? <==> 38 <= |ToBE(n)| <= BUF_MAX_SIZE + 1
    ensures em.Some? ==> em.value == FromBE(PaddedMessage(|ToBE(n)|, msghash)) && em.value < n
  {
    var nsize := |ToBE(n)|;
    if nsize == 0 || nsize - 1 > BUF_MAX_SIZE { return None; }
    var size := nsize - 1;
    if size == 0 { return None; }
    var buf: seq<byte> := [0x01];
    var stop := (size - |ASN1_MAGIC| - SHA1_HASH_SIZE) % 0x1_0000_0000;
    while |buf| != stop
      invariant 1 <= |buf| <= size
      invariant buf[0] == 1 && forall i :: 1 <= i < |buf| ==> buf[i] == 0xff
      invariant size >= 37 ==> |buf| <= stop
      decreases size - |buf|
    {
      if |buf| >= size { return None; }
      buf := buf + [0xff];
    }
    assert buf == [1] + seq(nsize - 38, i => 0xff);
    buf := buf + ASN1_MAGIC + msghash;
    assert buf == PaddedMessage(nsize, msghash);
    FromBEBound(buf);
    ToBELength(n, nsize - 1);
    return Some(FromBE(buf));
  }

  /* ---- keys ---- */

  datatype RsaKey = RsaKey(n: nat, e: nat, d: nat)

  function Gcd(a: nat, b: nat): (g: nat)
    requires a > 0 || b > 0
    ensures g > 0 && Divides(g, a) && Divides(g, b)
    decreases b
  {
    if b == 0 then DividesWitness(a, a, 1); DividesWitness(a, 0, 0); a
    else
      var g := Gcd(b, a % b);
      GcdStep(g, a, b);
      g
  }

  lemma {:induction false} GcdStep(g: nat, a: nat, b: nat)
    requires g > 0 && b > 0 && Divides(g, b) && Divides(g, a % b)
    ensures Divides(g, a)
  {
    assert a == b * (a / b) + a % b;
    DividesCombine(g, b, a / b, a % b, 1);
  }

  /** `mp_lcm`. */
  function Lcm(a: nat, b: nat): (l: nat)
    requires a > 0 && b > 0
  {
    a / Gcd(a, b) * b
  }

  lemma {:induction false} LcmIsMultiple(a: nat, b: nat)
    requires a > 0 && b > 0
    ensures Lcm(a, b) > 0 && Divides(a, Lcm(a, b)) && Divides(b, Lcm(a, b))
    ensures Divides(Lcm(a, b), a * b)
  {
    var g := Gcd(a, b);
    var u, v := a / g, b / g;
    assert a == u * g && b == v * g;
    LcmParts(u, v, g);
    DividesWitness(a, u * b, v);
    DividesWitness(b, u * b, u);
    DividesWitness(u * b, a * b, g);
  }

  lemma {:induction false} LcmParts(u: int, v: int, g: int)
    ensures u * (v * g) == v * (u * g)
    ensures (u * g) * (v * g) == g * (u * (v * g))
    ensures u > 0 && v * g > 0 ==> u * (v * g) > 0
  {
  }

  /** What `gen_rsa_priv_key` establishes, apart from p != q, which it does not check. */
  ghost predicate KeyFrom(key: RsaKey, p: nat, q: nat) {
    && IsPrime(p) && IsPrime(q) && key.n == p * q
    && (key.e * key.d) % Lcm(p - 1, q - 1) == 1 % Lcm(p - 1, q - 1)
    && key.e * key.d >= 1
  }

  /* ---- m^(e*d) = m modulo n ---- */

  lemma {:induction false} ExponentOverPrime(p: int, l: nat, f: nat)
    requires IsPrime(p) && l > 0 && Divides(p - 1, l) && f >= 1 && f % l == 1 % l
    ensures Divides(p - 1, f - 1)
  {
    CongDiff(f, 1, l);
    var k, j := (f - 1) / l, l / (p - 1);
    assert f - 1 == k * l && l == j * (p - 1);
    assert k * (j * (p - 1)) == (k * j) * (p - 1);
    DividesWitness(p - 1, f - 1, k * j);
  }

  lemma {:induction false} PowDividesOne(p: int, m: nat, a: nat, b: nat)
    requires p > 1 && a > 0 && Divides(a, b) && Pow(m, a) % p == 1
    ensures Pow(m, b) % p == 1 % p
  {
    ModSmall(1, p);
    ModSmall(0, a);
    PowPeriod(m, a, b, 0, p);
  }

  lemma {:induction false} FixedModPrime(p: int, f: nat, m: nat)
    requires IsPrime(p) && f >= 1 && Divides(p - 1, f - 1)
    ensures Pow(m, f) % p == m % p
  {
    if Divides(p, m) {
      PowOfMultiple(p, m, f);
    } else {
      FermatLittle(p, m);
      PowDividesOne(p, m, p - 1, f - 1);
      ModMulCong(m, m, Pow(m, f - 1), 1, p);
    }
  }

  lemma {:induction false} DistinctPrimes(p: int, q: int, x: int)
    requires IsPrime(p) && IsPrime(q) && p != q && Divides(p, x) && Divides(q, x)
    ensures Divides(p * q, x)
  {
    var t := x / p;
    assert x == p * t;
    PrimeDividesProduct(q, p, t);
    if Divides(q, p) {
      DividesLe(q, p);
    }
    var u := t / q;
    assert t == q * u;
    assert p * (q * u) == u * (p * q);
    DividesWitness(p * q, x, u);
  }

  /** For distinct primes, raising to e and then d (or d and then e) is the identity below n. */
  lemma {:induction false} FixedModN(key: RsaKey, p: nat, q: nat, m: nat)
    requires KeyFrom(key, p, q) && p != q && m < key.n
    ensures Pow(m, key.e * key.d) % key.n == m
  {
    var f, l := key.e * key.d, Lcm(p - 1, q - 1);
    LcmIsMultiple(p - 1, q - 1);
    ExponentOverPrime(p, l, f);
    ExponentOverPrime(q, l, f);
    FixedModPrime(p, f, m);
    FixedModPrime(q, f, m);
    CongDiff(Pow(m, f), m, p);
    CongDiff(Pow(m, f), m, q);
    DistinctPrimes(p, q, Pow(m, f) - m);
    CongDiff(Pow(m, f), m, key.n);
    ModSmall(m, key.n);
  }

  lemma {:induction false} SquareVanishes(p: nat, f: nat)
    requires p > 1 && f >= 2
    ensures Pow(p, f) % (p * p) == 0
  {
    PowAdd(p, 2, f - 2);
    assert Pow(p, 2) == p * Pow(p, 1) == p * p;
    MulComm(p * p, Pow(p, f - 2));
    DividesWitness(p * p, Pow(p, f), Pow(p, f - 2));
  }

  ghost predicate RecoversAll(key: RsaKey)
    requires key.n > 0
  {
    forall m: nat :: m < key.n ==> Pow(m, key.e * key.d) % key.n == m
  }

  /** The generator never compares p with q; the scheme is correct exactly when they differ. */
  lemma {:induction false} CorrectIffDistinct(key: RsaKey, p: nat, q: nat)
    requires KeyFrom(key, p, q) && key.e * key.d >= 2 && key.n > 0
    ensures RecoversAll(key) <==> p != q
  {
    if p != q {
      forall m: nat | m < key.n ensures Pow(m, key.e * key.d) % key.n == m {
        FixedModN(key, p, q, m);
      }
    } else {
      SquareVanishes(p, key.e * key.d);
      assert p < p * p;
    }
  }

  /* ---- signing and verifying ---- */

  function Ident(): seq<byte> {
    Store32(7) + [115, 115, 104, 45, 114, 115, 97]
  }

  /** The signature number in as many bytes as the modulus. */
  function Padded(nsize: nat, s: nat): (b: seq<byte>)
    requires |ToBE(s)| <= nsize
    ensures |b| == nsize
  {
    Zeros(nsize - |ToBE(s)|) + ToBE(s)
  }

  ghost predicate IsBlob(out: seq<byte>, n: nat, s: nat) {
    && |ToBE(s)| <= |ToBE(n)| < 0x1_0000_0000
    && out == Ident() + (Store32(|ToBE(n)|) + Padded(|ToBE(n)|, s))
  }

  /** s*r = (em * r^e)^d: the signature still carries its blinding factor. */
  ghost predicate Blinded(key: RsaKey, em: nat, r: nat, s: nat)
    requires key.n > 0
  {
    s < key.n && (s * r) % key.n == Pow(em * Pow(r, key.e), key.d) % key.n
  }

  /** `r` is the random blinding value, 0 < r < n. */
  method BufPutRsaSign(key: RsaKey, msghash: seq<byte>, r: nat) returns (out: Option<seq<byte>>, ghost em: nat, ghost s: nat)
    requires |msghash| == SHA1_HASH_SIZE && 0 < r < key.n
    ensures out.Some? ==> InvMod(r, key.n).Some?
    ensures out.Some? ==> 38 <= |ToBE(key.n)| && em == FromBE(PaddedMessage(|ToBE(key.n)|, msghash)) < key.n
    ensures out.Some? ==> Blinded(key, em, r, s) && IsBlob(out.value, key.n, s)
    ensures InvMod(r, key.n).Some? && 38 <= |ToBE(key.n)| <= BUF_MAX_SIZE ==> out.Some?
  {
    em, s := 0, 0;
    var n := key.n;
    var pad := RsaPadEm(n, msghash);
    if pad.None? { return None, em, s; }
    var tmp1 := pad.value;
    em := tmp1;
    var tmp2 := r;
    var rsas := ExptMod(tmp2, key.e, n);
    var inv := InvMod(tmp2, n);
    if inv.None? { return None, em, s; }
    var tmp3 := inv.value;
    tmp2 := (tmp1 * rsas) % n;
    tmp1 := ExptMod(tmp2, key.d, n);
    rsas := (tmp1 * tmp3) % n;
    s := rsas;
    BlindingStep(key, em, r, tmp3, s);
    var blob := PutSignature(n, rsas);
    out := Some(blob);
  }

  lemma {:induction false} BlindingStep(key: RsaKey, em: nat, r: nat, rinv: nat, s: nat)
    requires key.n > 0 && (r * rinv) % key.n == 1 % key.n
    requires s == (ExptMod((em * ExptMod(r, key.e, key.n)) % key.n, key.d, key.n) * rinv) % key.n
    ensures Blinded(key, em, r, s)
  {
    var n := key.n;
    var x := Pow(r, key.e);
    ModMul(em, x, n);
    ModPow(em * x, key.d, n);
    UndoInverse(Pow(em * x, key.d), r, rinv, n);
  }

  lemma {:induction false} UndoInverse(y: int, r: int, rinv: int, n: int)
    requires n > 0 && (r * rinv) % n == 1 % n
    ensures ((y % n * rinv) % n * r) % n == y % n
  {
    ModMul(y, rinv, n);
    ModMul(y * rinv, r, n);
    assert (y * rinv) * r == y * (r * rinv);
    ModMulCong(y, y, r * rinv, 1, n);
  }

  /** Name, length, zeros up to the size of the modulus, then s. */
  method PutSignature(n: nat, s: nat) returns (buf: seq<byte>)
    requires s < n && |ToBE(n)| < 0x1_0000_0000
    ensures IsBlob(buf, n, s)
  {
    buf := Ident();
    var nsize := |ToBE(n)|;
    buf := buf + Store32(nsize);
    var ssize := |ToBE(s)|;
    ToBELength(n, nsize);
    ToBELength(s, nsize);
    ghost var start := buf;
    for i := 0 to nsize - ssize
      invariant buf == start + Zeros(i)
    {
      buf := buf + [0x00];
      assert Zeros(i + 1) == Zeros(i) + [0];
    }
    buf := buf + ToBE(s);
    assert buf == Ident() + (Store32(nsize) + (Zeros(nsize - ssize) + ToBE(s)));
  }

  /** The verification equation s^e = EM. */
  ghost predicate Valid(n: nat, e: nat, msghash: seq<byte>, s: nat)
    requires |msghash| == SHA1_HASH_SIZE
  {
    && 38 <= |ToBE(n)| <= BUF_MAX_SIZE + 1 && s < n
    && Pow(s, e) % n == FromBE(PaddedMessage(|ToBE(n)|, msghash))
  }

  /** `buf` is what follows the algorithm name; note that all of it is read as the number. */
  method BufRsaVerify(n: nat, e: nat, buf: seq<byte>, msghash: seq<byte>) returns (v: Verdict)
    requires |msghash| == SHA1_HASH_SIZE
    ensures v == Accept <==> |buf| >= 4 && Load32(buf) == |ToBE(n)| && Valid(n, e, msghash, FromBE(buf[4..]))
  {
    if |buf| < 4 { return Halt; }
    var slen := Load32(buf);
    if slen != |ToBE(n)| { return Reject; }
    var s := FromBE(buf[4..]);
    if s >= n { return Reject; }
    var em := RsaPadEm(n, msghash);
    if em.None? { return Halt; }
    var mdash := ExptMod(s, e, n);
    v := if em.value == mdash then Accept else Reject;
  }

  /** Blinding drops out: the result is em^d. */
  lemma {:induction false} BlindedIsPlain(key: RsaKey, p: nat, q: nat, em: nat, r: nat, rinv: nat, s: nat)
    requires KeyFrom(key, p, q) && p != q && r < key.n && (r * rinv) % key.n == 1 % key.n
    requires Blinded(key, em, r, s)
    ensures s == Pow(em, key.d) % key.n
  {
    var n := key.n;
    var a, b := Pow(em, key.d), Pow(r, key.e);
    PowDistributes(em, b, key.d);
    PowMul(r, key.e, key.d);
    FixedModN(key, p, q, r);
    ModSmall(r, n);
    ModMulCong(a, a, Pow(b, key.d), r, n);
    assert (s * r) % n == (a * r) % n;
    Unblind(s, a, r, rinv, n);
    ModSmall(s, n);
  }

  lemma {:induction false} Unblind(s: int, a: int, r: int, rinv: int, n: int)
    requires n > 0 && (s * r) % n == (a * r) % n && (r * rinv) % n == 1 % n
    ensures s % n == a % n
  {
    ModMulCong(s * r, a * r, rinv, rinv, n);
    assert (s * r) * rinv == s * (r * rinv) && (a * r) * rinv == a * (r * rinv);
    ModMulCong(s, s, r * rinv, 1, n);
    ModMulCong(a, a, r * rinv, 1, n);
  }

  /** Every signature the signer produces with a proper key is accepted. */
  lemma {:induction false} SignedBlobVerifies(key: RsaKey, p: nat, q: nat, msghash: seq<byte>, r: nat, rinv: nat,
                                              em: nat, s: nat, out: seq<byte>)
    requires KeyFrom(key, p, q) && p != q && r < key.n && (r * rinv) % key.n == 1 % key.n
    requires |msghash| == SHA1_HASH_SIZE && 38 <= |ToBE(key.n)| <= BUF_MAX_SIZE
    requires em == FromBE(PaddedMessage(|ToBE(key.n)|, msghash)) < key.n
    requires Blinded(key, em, r, s) && IsBlob(out, key.n, s)
    ensures |out| >= 15 && Load32(out[11..]) == |ToBE(key.n)|
    ensures FromBE(out[11..][4..]) == Pow(em, key.d) % key.n
    ensures Valid(key.n, key.e, msghash, FromBE(out[11..][4..]))
  {
    var nsize := |ToBE(key.n)|;
    var tail := Store32(nsize) + Padded(nsize, s);
    assert |Ident()| == 11 && out[11..] == tail;
    LoadStore32(nsize, Padded(nsize, s));
    assert tail[4..] == Padded(nsize, s);
    FromBEPadded(nsize - |ToBE(s)|, ToBE(s));
    FromToBE(s);
    BlindedIsPlain(key, p, q, em, r, rinv, s);
    PlainVerifies(key, p, q, em);
  }

  lemma {:induction false} PlainVerifies(key: RsaKey, p: nat, q: nat, em: nat)
    requires KeyFrom(key, p, q) && p != q && em < key.n
    ensures Pow(Pow(em, key.d) % key.n, key.e) % key.n == em
  {
    ModPow(Pow(em, key.d), key.e, key.n);
    PowMul(em, key.d, key.e);
    MulComm(key.d, key.e);
    FixedModN(key, p, q, em);
  }
}
