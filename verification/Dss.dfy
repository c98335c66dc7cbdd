/** DSA signatures (components/dropbear/dss.c) and the key generation that makes them work
    (components/dropbear/gendss.c). The `mp_` calls stand for their mathematical meaning. */
module Dss {
  import opened ModArith
  import opened Fermat
  import opened Bytes
  import opened Bignum

  const MAX_STRING_LEN: nat := 9000

  datatype PublicKey = PublicKey(p: nat, q: nat, g: nat, y: nat)
  datatype Key = Key(pub: PublicKey, x: nat)

  /* ---- what a signature is (FIPS 186) ---- */

  /** `s` solves the signing equation s*k = H + x*r for the nonce `k`. */
  ghost predicate Signs(key: Key, hash: nat, k: nat, r: nat, s: nat)
    requires key.pub.p > 0 && key.pub.q > 0
  {
    && r == ExptMod(key.pub.g, k, key.pub.p) % key.pub.q
    && s < key.pub.q
    && (s * k) % key.pub.q == (hash + key.x * r) % key.pub.q
  }

  /** The verification equation, for some inverse `w` of `s`. */
  ghost predicate ValidWith(pub: PublicKey, hash: nat, r: nat, s: nat, w: nat)
    requires pub.p > 0 && pub.q > 0
  {
    && (s * w) % pub.q == 1 % pub.q
    && (Pow(pub.g, (hash * w) % pub.q) * Pow(pub.y, (r * w) % pub.q)) % pub.p % pub.q == r
  }

  ghost predicate Valid(pub: PublicKey, hash: nat, r: nat, s: nat)
    requires pub.p > 0 && pub.q > 0
  {
    r < pub.q && s < pub.q && exists w :: 0 <= w < pub.q && ValidWith(pub, hash, r, s, w)
  }

  /** "ssh-dss", the blob length, then r and s in 20 bytes each. */
  function Ident(): seq<byte> {
    Store32(7) + [115, 115, 104, 45, 100, 115, 115]
  }

  function Padded(n: nat): (b: seq<byte>)
    requires |ToBE(n)| <= SHA1_HASH_SIZE
    ensures |b| == SHA1_HASH_SIZE
  {
    Zeros(SHA1_HASH_SIZE - |ToBE(n)|) + ToBE(n)
  }

  /* ---- the code ---- */

  /** Writes `n` with leading zeros: the two padding loops of the signer. */
  method PutPadded(buf: seq<byte>, n: nat) returns (out: Option<seq<byte>>)
    ensures out.None? <==> n >= Pow256(SHA1_HASH_SIZE)
    ensures out.Some? ==> |ToBE(n)| <= SHA1_HASH_SIZE && out.value == buf + Padded(n)
  {
    ToBELength(n, SHA1_HASH_SIZE);
    var bytes := ToBE(n);
    var writelen := |bytes|;
    if writelen > SHA1_HASH_SIZE { return None; }
    var b := buf;
    for i := 0 to SHA1_HASH_SIZE - writelen
      invariant b == buf + Zeros(i)
    {
      b := b + [0];
      assert Zeros(i + 1) == Zeros(i) + [0];
    }
    b := b + bytes;
    return Some(b);
  }

  method BufPutDssSign(key: Key, msghash: seq<byte>, k: nat) returns (out: Option<seq<byte>>)
    requires |msghash| == SHA1_HASH_SIZE
    requires 0 < k < key.pub.q
    ensures out.Some? ==> key.pub.p > 0 && exists r, s :: IsSignature(key, FromBE(msghash), k, out.value, r, s)
    ensures key.pub.p > 0 && IsPrime(key.pub.q) && key.pub.q <= Pow256(SHA1_HASH_SIZE) ==> out.Some?
  {
    var q := key.pub.q;
    var m := FromBE(msghash);
    if key.pub.p == 0 { return None; }
    var temp1 := ExptMod(key.pub.g, k, key.pub.p);
    var r := temp1 % q;
    temp1 := (r * key.x) % q;
    var temp2 := (m + temp1) % q;
    var inv := InvMod(k, q);
    NonceInvertible(q, k);
    if inv.None? { return None; }
    temp1 := inv.value;
    var s := (temp1 * temp2) % q;
    SigningEquation(key, m, k, r, temp1, s);

    var buf := Ident();
    buf := buf + Store32(2 * SHA1_HASH_SIZE);
    var b1 := PutPadded(buf, r);
    if b1.None? { return None; }
    out := PutPadded(b1.value, s);
    assert out.Some? ==> out.value == Ident() + (Store32(2 * SHA1_HASH_SIZE) + Padded(r) + Padded(s));
    assert out.Some? ==> IsSignature(key, m, k, out.value, r, s);
  }

  ghost predicate IsSignature(key: Key, hash: nat, k: nat, out: seq<byte>, r: nat, s: nat)
    requires key.pub.p > 0 && key.pub.q > 0
  {
    && Signs(key, hash, k, r, s)
    && |ToBE(r)| <= SHA1_HASH_SIZE && |ToBE(s)| <= SHA1_HASH_SIZE
    && out == Ident() + (Store32(2 * SHA1_HASH_SIZE) + Padded(r) + Padded(s))
  }

  lemma {:induction false} NonceInvertible(q: int, k: nat)
    requires 0 < k < q
    ensures IsPrime(q) ==> InvMod(k, q).Some?
  {
    if IsPrime(q) {
      ModSmall(k, q);
      var x := PrimeInverse(q, k);
    }
  }

  lemma {:induction false} SigningEquation(key: Key, m: nat, k: nat, r: nat, kinv: nat, s: nat)
    requires key.pub.p > 0 && key.pub.q > 0
    requires r == ExptMod(key.pub.g, k, key.pub.p) % key.pub.q
    requires (k * kinv) % key.pub.q == 1 % key.pub.q
    requires s == (kinv * ((m + (r * key.x) % key.pub.q) % key.pub.q)) % key.pub.q
    ensures Signs(key, m, k, r, s)
  {
    var q, t := key.pub.q, m + key.x * r;
    MulComm(r, key.x);
    ModAdd(m, r * key.x, q);
    ModMul(kinv, t, q);
    ModMul(kinv * t, k, q);
    MulExchange(kinv, t, k);
    MulComm(kinv, k);
    ModMulCong(k * kinv, 1, t, t, q);
  }

  /** `buf` is what follows the algorithm name. */
  method BufDssVerify(pub: PublicKey, buf: seq<byte>, msghash: seq<byte>) returns (v: Verdict)
    requires |msghash| == SHA1_HASH_SIZE
    requires pub.p > 0 && pub.q > 0
    ensures v == Accept <==> 44 <= |buf| && Load32(buf) == 40 &&
                             Valid(pub, FromBE(msghash), FromBE(buf[4..24]), FromBE(buf[24..44]))
  {
    if |buf| < 4 { return Halt; }
    var stringlen := Load32(buf);
    if stringlen > MAX_STRING_LEN || |buf| < 4 + stringlen { return Halt; }
    var str := buf[4..4 + stringlen];
    if stringlen != 2 * SHA1_HASH_SIZE { return Reject; }
    assert str[..20] == buf[4..24] && str[20..] == buf[24..44];
    ghost var r, s, m := FromBE(buf[4..24]), FromBE(buf[24..44]), FromBE(msghash);

    var val1 := FromBE(str[SHA1_HASH_SIZE..]);
    if val1 >= pub.q { return Reject; }
    var inv := InvMod(val1, pub.q);
    if inv.None? { return Reject; }
    var val2 := inv.value;
    ghost var w := val2;
    val1 := FromBE(msghash);
    var val3 := (val1 * val2) % pub.q;
    val1 := FromBE(str[..SHA1_HASH_SIZE]);
    if val1 >= pub.q { return Reject; }
    var val4 := (val1 * val2) % pub.q;
    val2 := ExptMod(pub.g, val3, pub.p);
    val3 := ExptMod(pub.y, val4, pub.p);
    val4 := (val2 * val3) % pub.p;
    val2 := val4 % pub.q;
    ModMul(Pow(pub.g, (m * w) % pub.q), Pow(pub.y, (r * w) % pub.q), pub.p);
    assert val2 == val1 <==> ValidWith(pub, m, r, s, w);
    InverseUnique(pub, m, r, s, w);
    v := if val2 == val1 then Accept else Reject;
  }

  /** The inverse is unique, so the equation does not depend on the choice. */
  lemma {:induction false} InverseUnique(pub: PublicKey, m: nat, r: nat, s: nat, w: nat)
    requires pub.p > 0 && pub.q > 0 && w < pub.q && (s * w) % pub.q == 1 % pub.q
    ensures forall u :: 0 <= u < pub.q && ValidWith(pub, m, r, s, u) ==> u == w
  {
    forall u | 0 <= u < pub.q && ValidWith(pub, m, r, s, u) ensures u == w {
      SameInverse(s, u, w, pub.q);
    }
  }

  lemma {:induction false} SameInverse(s: int, u: int, w: int, q: int)
    requires 0 <= u < q && 0 <= w < q && (s * u) % q == 1 % q && (s * w) % q == 1 % q
    ensures u == w
  {
    ModMulCong(s * u, 1, w, w, q);
    ModMulCong(s * w, 1, u, u, q);
    MulExchange(s, u, w);
    ModSmall(u, q);
    ModSmall(w, q);
  }

  /* ---- a signature verifies exactly when s is not zero ---- */

  /** The keys `gendss.c` builds. */
  ghost predicate KeyFrom(key: Key, h: nat) {
    var PublicKey(p, q, g, y) := key.pub;
    && IsPrime(p) && IsPrime(q) && (p - 1) % q == 0
    && g == Pow(h, (p - 1) / q) % p && g > 1
    && y == Pow(g, key.x) % p
  }

  lemma {:induction false} CofactorPositive(p: int, q: int)
    requires p > 1 && q > 1 && (p - 1) % q == 0
    ensures (p - 1) / q >= 1 && p - 1 == ((p - 1) / q) * q
  {
    assert p - 1 == ((p - 1) / q) * q;
  }

  /** g has order q: by Fermat, g^q = h^(p-1) = 1. */
  lemma {:induction false} GeneratorOrder(key: Key, h: nat)
    requires KeyFrom(key, h)
    ensures Pow(key.pub.g, key.pub.q) % key.pub.p == 1
  {
    var p, q := key.pub.p, key.pub.q;
    var d := (p - 1) / q;
    CofactorPositive(p, q);
    if Divides(p, h) {
      PowOfMultiple(p, h, d);
    }
    FermatLittle(p, h);
    PowMul(h, d, q);
    ModPow(Pow(h, d), q, p);
  }

  /** u1 + x*u2 = k modulo q. */
  lemma {:induction false} ExponentSum(q: int, m: nat, x: nat, r: nat, k: nat, s: nat, w: nat)
    requires q > 0 && (s * k) % q == (m + x * r) % q && (s * w) % q == 1 % q
    ensures ((m * w) % q + x * ((r * w) % q)) % q == k % q
  {
    var t := m + x * r;
    ReduceParts(q, m * w, x, r * w);
    Factor(m, x, r, w);
    ModMulCong(t, s * k, w, w, q);
    MulExchange(s, k, w);
    ModMulCong(s * w, 1, k, k, q);
  }

  lemma {:induction false} ReduceParts(q: int, a: int, x: int, b: int)
    requires q > 0
    ensures (a % q + x * (b % q)) % q == (a + x * b) % q
  {
    ModMul(x, b, q);
    ModAdd(a, x * (b % q), q);
    ModAdd(a, x * b, q);
  }

  lemma {:induction false} Factor(m: int, x: int, r: int, w: int)
    ensures m * w + x * (r * w) == (m + x * r) * w
  {
  }

  lemma {:induction false} PowerOfPublic(p: int, g: nat, x: nat, y: nat, u: nat)
    requires p > 0 && y == Pow(g, x) % p
    ensures x * u >= 0 && Pow(y, u) % p == Pow(g, x * u) % p
  {
    PowMul(g, x, u);
    ModPow(Pow(g, x), u, p);
  }

  /** g^u1 * y^u2 = g^(u1 + x*u2) = g^k modulo p. */
  lemma {:induction false} CombinedPower(p: int, q: nat, g: nat, x: nat, y: nat, u1: nat, u2: nat, k: nat)
    requires p > 0 && q > 0 && Pow(g, q) % p == 1 % p && y == Pow(g, x) % p
    requires (u1 + x * u2) % q == k % q
    ensures (Pow(g, u1) * Pow(y, u2)) % p == Pow(g, k) % p
  {
    PowerOfPublic(p, g, x, y, u2);
    var f := x * u2;
    PowAdd(g, u1, f);
    ModMulCong(Pow(g, u1), Pow(g, u1), Pow(y, u2), Pow(g, f), p);
    PowPeriod(g, q, u1 + f, k, p);
  }

  lemma {:induction false} EquationScalar(p: int, q: nat, g: nat, x: nat, y: nat,
                                          m: nat, k: nat, r: nat, s: nat, w: nat)
    requires p > 0 && q > 0 && Pow(g, q) % p == 1 % p && y == Pow(g, x) % p
    requires (s * k) % q == (m + x * r) % q && (s * w) % q == 1 % q
    ensures (Pow(g, (m * w) % q) * Pow(y, (r * w) % q)) % p == Pow(g, k) % p
  {
    ExponentSum(q, m, x, r, k, s, w);
    CombinedPower(p, q, g, x, y, (m * w) % q, (r * w) % q, k);
  }

  lemma {:induction false} EquationHolds(key: Key, h: nat, m: nat, k: nat, r: nat, s: nat, w: nat)
    requires KeyFrom(key, h) && Signs(key, m, k, r, s)
    requires (s * w) % key.pub.q == 1 % key.pub.q
    ensures ValidWith(key.pub, m, r, s, w)
  {
    var PublicKey(p, q, g, y) := key.pub;
    ModSmall(1, p);
    GeneratorOrder(key, h);
    EquationScalar(p, q, g, key.x, y, m, k, r, s, w);
  }

  lemma {:induction false} ZeroHasNoInverse(w: nat, q: nat)
    requires q > 1
    ensures (0 * w) % q != 1 % q
  {
    ModSmall(1, q);
  }

  /** H + x*r modulo q, which the signer multiplies by the inverse of the nonce; all of it is known before. */
  function Numerator(key: Key, hash: nat, k: nat): nat
    requires key.pub.p > 0 && key.pub.q > 0
  {
    (hash + key.x * (ExptMod(key.pub.g, k, key.pub.p) % key.pub.q)) % key.pub.q
  }

  lemma {:induction false} ZeroProduct(q: int, k: nat, s: nat, t: int)
    requires IsPrime(q) && 0 < k < q && s < q && (s * k) % q == t
    ensures s == 0 <==> t == 0
  {
    ModSmall(k, q);
    ModSmall(s, q);
    if t == 0 { PrimeDividesProduct(q, s, k); } else { assert s != 0; }
  }

  /** s comes out as zero exactly for the hashes with H = -x*r modulo q. */
  lemma {:induction false} ZeroExactly(key: Key, m: nat, k: nat, r: nat, s: nat)
    requires key.pub.p > 0 && IsPrime(key.pub.q) && 0 < k < key.pub.q && Signs(key, m, k, r, s)
    ensures s == 0 <==> Numerator(key, m, k) == 0
  {
    ZeroProduct(key.pub.q, k, s, Numerator(key, m, k));
  }

  /** A signature verifies exactly when s is not zero. */
  lemma {:induction false} NonzeroVerifies(key: Key, h: nat, m: nat, k: nat, r: nat, s: nat)
    requires KeyFrom(key, h) && Signs(key, m, k, r, s)
    ensures Valid(key.pub, m, r, s) <==> s != 0
  {
    var q := key.pub.q;
    if s != 0 {
      ModSmall(s, q);
      var w := PrimeInverse(q, s);
      ModSmall(1, q);
      EquationHolds(key, h, m, k, r, s, w);
    } else {
      forall w: nat ensures (s * w) % q != 1 % q { ZeroHasNoInverse(w, q); }
    }
  }

  /** What the signer writes, the verifier accepts, for every key, hash and nonce but those with H + x*r = 0. */
  lemma {:induction false} SignatureVerifies(key: Key, h: nat, m: nat, k: nat, r: nat, s: nat)
    requires KeyFrom(key, h) && 0 < k < key.pub.q && Signs(key, m, k, r, s)
    ensures Valid(key.pub, m, r, s) <==> Numerator(key, m, k) != 0
  {
    NonzeroVerifies(key, h, m, k, r, s);
    ZeroExactly(key, m, k, r, s);
  }

  /** The same on the wire: the bytes after the name are those of r and s. */
  lemma {:induction false} SignedBlobVerifies(key: Key, h: nat, m: nat, k: nat, out: seq<byte>, r: nat, s: nat)
    requires KeyFrom(key, h) && 0 < k < key.pub.q && IsSignature(key, m, k, out, r, s)
    ensures |out| == 55 && Load32(out[11..]) == 40
    ensures FromBE(out[11..][4..24]) == r && FromBE(out[11..][24..44]) == s
    ensures Valid(key.pub, m, FromBE(out[11..][4..24]), FromBE(out[11..][24..44])) <==> Numerator(key, m, k) != 0
  {
    var tail := Store32(2 * SHA1_HASH_SIZE) + Padded(r) + Padded(s);
    assert |Ident()| == 11 && out[11..] == tail;
    LoadStore32(2 * SHA1_HASH_SIZE, Padded(r) + Padded(s));
    assert tail == Store32(2 * SHA1_HASH_SIZE) + (Padded(r) + Padded(s));
    assert tail[4..24] == Padded(r) && tail[24..44] == Padded(s);
    FromBEPadded(SHA1_HASH_SIZE - |ToBE(r)|, ToBE(r));
    FromBEPadded(SHA1_HASH_SIZE - |ToBE(s)|, ToBE(s));
    FromToBE(r);
    FromToBE(s);
    SignatureVerifies(key, h, m, k, r, s);
  }

  lemma {:induction false} Negative(a: int, q: int)
    requires q > 0
    ensures 0 <= (-a) % q < q && ((-a) % q + a) % q == 0
  {
    ModAdd(-a, a, q);
    ModSmall(0, q);
  }

  /** The hash, as a number below q. */
  lemma {:induction false} RefusedNumber(key: Key, k: nat) returns (m: nat, r: nat)
    requires key.pub.p > 0 && key.pub.q > 0
    ensures m < key.pub.q && r < key.pub.q && Numerator(key, m, k) == 0 && Signs(key, m, k, r, 0)
  {
    var q := key.pub.q;
    r := ExptMod(key.pub.g, k, key.pub.p) % q;
    var t := key.x * r;
    Negative(t, q);
    m := (-t) % q;
    ModSmall(0, q);
  }

  lemma {:induction false} FitsHash(n: nat)
    requires n < Pow256(SHA1_HASH_SIZE)
    ensures |ToBE(n)| <= SHA1_HASH_SIZE && FromBE(Padded(n)) == n
  {
    ToBELength(n, SHA1_HASH_SIZE);
    FromBEPadded(SHA1_HASH_SIZE - |ToBE(n)|, ToBE(n));
    FromToBE(n);
  }

  /** Every key and every nonce have a 20-byte hash for which the blob the signer writes is refused. */
  lemma {:induction false} RefusedHash(key: Key, h: nat, k: nat) returns (msghash: seq<byte>, out: seq<byte>, r: nat)
    requires KeyFrom(key, h) && 0 < k < key.pub.q <= Pow256(SHA1_HASH_SIZE)
    ensures |msghash| == SHA1_HASH_SIZE && Numerator(key, FromBE(msghash), k) == 0
    ensures IsSignature(key, FromBE(msghash), k, out, r, 0)
    ensures |out| == 55 && !Valid(key.pub, FromBE(msghash), FromBE(out[11..][4..24]), FromBE(out[11..][24..44]))
  {
    var m;
    m, r := RefusedNumber(key, k);
    FitsHash(m);
    FitsHash(r);
    FitsHash(0);
    msghash := Padded(m);
    out := Ident() + (Store32(2 * SHA1_HASH_SIZE) + Padded(r) + Padded(0));
    assert IsSignature(key, m, k, out, r, 0);
    SignedBlobVerifies(key, h, m, k, out, r, 0);
  }
}
