/** A Diffie-Hellman exchange of common-kex.c from KEXINIT to the new keys: the hash buffer of `recv_msg_kexinit`,
    `kexdh_comb_key`, `finish_kexhashbuf` and `gen_new_keys` on both sides, section 8 of RFC 4253. */
module Exchange {
  import opened ModArith
  import opened Bytes
  import opened Bignum
  import opened Mpint
  import opened KeyDerivation

  const KEXHASHBUF_MAX_INTS: nat := 2090

  /* ---- what the RFC hashes ---- */

  /** V_C, V_S, I_C, I_S: both identification strings and both KEXINIT payloads. */
  datatype Hello = Hello(vC: seq<byte>, vS: seq<byte>, iC: seq<byte>, iS: seq<byte>)

  ghost predicate Sensible(h: Hello) {
    |h.vC| < 0x1000_0000 && |h.vS| < 0x1000_0000 && |h.iC| < 0x1000_0000 && |h.iS| < 0x1000_0000
  }

  function HelloBytes(h: Hello): seq<byte>
    requires |h.vC| < 0x1_0000_0000 && |h.vS| < 0x1_0000_0000 && |h.iC| < 0x1_0000_0000 && |h.iS| < 0x1_0000_0000
  {
    Str(h.vC) + Str(h.vS) + Str(h.iC) + Str(h.iS)
  }

  function MpintBytes(n: nat): seq<byte>
    requires |Body(n)| < 0x1_0000_0000
  {
    Store32(|Body(n)|) + Body(n)
  }

  /** K_S, e, f, K. */
  function ValueBytes(ks: seq<byte>, e: nat, f: nat, k: nat): seq<byte>
    requires |ks| < 0x1_0000_0000 && |Body(e)| < 0x1_0000_0000 && |Body(f)| < 0x1_0000_0000 && |Body(k)| < 0x1_0000_0000
  {
    Str(ks) + MpintBytes(e) + MpintBytes(f) + MpintBytes(k)
  }

  /* ---- the hash buffer ---- */

  /** A buffer of fixed size; None once something did not fit, which ends the session. */
  datatype HashBuf = HashBuf(size: nat, data: Option<seq<byte>>)

  function Put(b: HashBuf, s: seq<byte>): HashBuf {
    if b.data.Some? && |b.data.value| + |s| <= b.size then b.(data := Some(b.data.value + s)) else b.(data := None)
  }

  /** The part of `recv_msg_kexinit` that fills the buffer: each side has its own ident and KEXINIT and the peer's, whose
      KEXINIT starts at `beginning` in the received payload. It always fits. */
  method FillKexinit(client: bool, localIdent: seq<byte>, remoteIdent: seq<byte>, ours: seq<byte>, payload: seq<byte>,
                     beginning: nat, ghost h: Hello) returns (b: HashBuf)
    requires beginning <= |payload| < 0x1000_0000 && Sensible(h)
    requires h == if client then Hello(localIdent, remoteIdent, ours, payload[beginning..])
                  else Hello(remoteIdent, localIdent, payload[beginning..], ours)
    ensures b.data == Some(HelloBytes(h))
    ensures b.size == |localIdent| + |remoteIdent| + |ours| + |payload| + KEXHASHBUF_MAX_INTS
  {
    b := HashBuf(|localIdent| + |remoteIdent| + |ours| + |payload| + KEXHASHBUF_MAX_INTS, Some([]));
    var theirs := payload[beginning..];
    if client {
      b := Put(b, Str(localIdent));
      b := Put(b, Str(remoteIdent));
      b := Put(b, Str(ours));
      b := Put(b, Str(theirs));
    } else {
      b := Put(b, Str(remoteIdent));
      b := Put(b, Str(localIdent));
      b := Put(b, Str(theirs));
      b := Put(b, Str(ours));
    }
    assert [] + Str(h.vC) == Str(h.vC);
  }

  /* ---- the shared secret ---- */

  /** K, H and the session id of one side. */
  datatype Secret = Secret(k: nat, hash: seq<byte>, session: seq<byte>)

  /** Values in the range that is accepted. */
  predicate InRange(v: nat, p: nat) { 1 < v < p - 1 }

  lemma {:induction false} PutFour(b: HashBuf, s: seq<byte>, t: seq<byte>, u: seq<byte>, v: seq<byte>)
    requires b.data.Some?
    ensures Put(Put(Put(Put(b, s), t), u), v).data ==
            if |b.data.value| + |s + t + u + v| <= b.size then Some(b.data.value + (s + t + u + v)) else None
  {
    assert b.data.value + s + t + u + v == b.data.value + (s + t + u + v);
  }

  method PutValues(b: HashBuf, ks: seq<byte>, e: nat, f: nat, k: nat) returns (b2: HashBuf)
    requires b.data.Some? && |ks| < 0x1000_0000 && |Body(e)| < 0x1000_0000 && |Body(f)| < 0x1000_0000 && |Body(k)| < 0x1000_0000
    requires CountBits(e) < 0x8000_0000 && CountBits(f) < 0x8000_0000 && CountBits(k) < 0x8000_0000
    ensures b2.data == if |b.data.value| + 16 + |ks| + |Body(e)| + |Body(f)| + |Body(k)| <= b.size
                       then Some(b.data.value + ValueBytes(ks, e, f, k)) else None
  {
    var me := PutMpint(e);
    var mf := PutMpint(f);
    var mk := PutMpint(k);
    PutFour(b, Str(ks), me, mf, mk);
    b2 := Put(Put(Put(Put(b, Str(ks)), me), mf), mk);
  }

  /** `kexdh_comb_key` and `finish_kexhashbuf`: the peer's value is refused exactly if it is out of range, and the session
      ends if the values do not fit the hash buffer. */
  method CombKey(client: bool, b: HashBuf, p: nat, us: nat, priv: nat, them: nat, ks: seq<byte>, hash: seq<byte> -> seq<byte>,
                 session: Option<seq<byte>>) returns (r: Option<Secret>)
    requires p > 0 && b.data.Some? && |ks| < 0x1000_0000
    requires CountBits(p) < 0x1000_0000 && us < p
    ensures r.Some? ==> InRange(them, p) && r.value.k == ExptMod(them, priv, p)
    ensures r.Some? ==>
              var e, f := if client then us else them, if client then them else us;
              && |Body(e)| < 0x1_0000_0000 && |Body(f)| < 0x1_0000_0000 && |Body(r.value.k)| < 0x1_0000_0000
              && r.value.hash == hash(b.data.value + ValueBytes(ks, e, f, r.value.k))
              && r.value.session == if session.Some? then session.value else r.value.hash
    ensures r.None? <==> !InRange(them, p) || !RoomFor(client, b, p, us, priv, them, ks)
  {
    if them >= p - 1 || them <= 1 { return None; }
    var k := ExptMod(them, priv, p);
    var e, f := if client then us else them, if client then them else us;
    SmallBody(e, p);
    SmallBody(f, p);
    SmallBody(k, p);
    var b2 := PutValues(b, ks, e, f, k);
    if b2.data.None? { return None; }
    var hh := hash(b2.data.value);
    r := Some(Secret(k, hh, if session.Some? then session.value else hh));
  }

  ghost predicate RoomFor(client: bool, b: HashBuf, p: nat, us: nat, priv: nat, them: nat, ks: seq<byte>)
    requires p > 0 && b.data.Some?
  {
    |b.data.value| + 16 + |ks| + |Body(us)| + |Body(them)| + |Body(ExptMod(them, priv, p))| <= b.size
  }

  lemma {:induction false} BitsMonotone(n: nat, p: nat)
    requires n <= p
    ensures CountBits(n) <= CountBits(p)
    decreases n
  {
    if n > 0 { BitsMonotone(n / 2, p / 2); }
  }

  lemma {:induction false} SmallBody(n: nat, p: nat)
    requires n <= p && CountBits(p) < 0x1000_0000
    ensures CountBits(n) < 0x1000_0000 && |Body(n)| < 0x1000_0000
  {
    BitsMonotone(n, p);
    BodyIsMinimal(n);
  }

  /** (g^y)^x = (g^x)^y modulo p. */
  lemma {:induction false} SameSecret(g: nat, x: nat, y: nat, p: nat)
    requires p > 0
    ensures ExptMod(ExptMod(g, y, p), x, p) == ExptMod(ExptMod(g, x, p), y, p)
  {
    ModPow(Pow(g, y), x, p);
    ModPow(Pow(g, x), y, p);
    PowMul(g, y, x);
    PowMul(g, x, y);
    MulComm(x, y);
  }

  /* ---- both sides ---- */

  /** `gen_new_keys` from the shared secret: the common part of all hashes is K as an mpint, then H. */
  method NewKeys(client: bool, s: Secret, hash: seq<byte> -> seq<byte>, size: nat, transMac: nat, recvMac: nat)
    returns (keys: KeyContext)
    requires HashOf(hash, size) && |Body(s.k)| < 0x1_0000_0000 && CountBits(s.k) < 0x8000_0000
    ensures keys == KeysOf(client, hash, MpintBytes(s.k) + s.hash, s.session, transMac, recvMac)
  {
    var m := PutMpint(s.k);
    keys := GenNewKeys(client, hash, size, m + s.hash, s.session, transMac, recvMac);
  }

  /** An honest exchange: the two sides send g^x and g^y. If both accept, they have the same K and H, the same session id
      if they had the same before, and each transmits with what the other receives with. */
  method HonestExchange(h: Hello, offC: nat, offS: nat, pad: seq<byte>, p: nat, g: nat, x: nat, y: nat, ks: seq<byte>,
                        hash: seq<byte> -> seq<byte>, size: nat, session: Option<seq<byte>>, c2sMac: nat, s2cMac: nat)
    returns (c: Option<Secret>, s: Option<Secret>, kc: Option<KeyContext>, ksv: Option<KeyContext>)
    requires Sensible(h) && offC <= |pad| && offS <= |pad| && |pad| + |h.iC| < 0x1000_0000 && |pad| + |h.iS| < 0x1000_0000
    requires p > 0 && CountBits(p) < 0x1000_0000 && |ks| < 0x1000_0000 && HashOf(hash, size)
    ensures c.Some? ==> InRange(ExptMod(g, y, p), p)
    ensures s.Some? ==> InRange(ExptMod(g, x, p), p)
    ensures c.Some? && s.Some? ==>
              && c.value == s.value && c.value.k == ExptMod(g, x * y, p)
              && kc.Some? && ksv.Some? && kc.value.trans == ksv.value.recv && kc.value.recv == ksv.value.trans
  {
    kc, ksv := None, None;
    var e, f := ExptMod(g, x, p), ExptMod(g, y, p);
    c := Side(true, h, pad[..offC], p, e, x, f, ks, hash, session);
    s := Side(false, h, pad[..offS], p, f, y, e, ks, hash, session);
    SameSecret(g, x, y, p);
    PowerOfPower(g, x, y, p);
    if c.Some? && s.Some? {
      SmallBody(c.value.k, p);
      kc := WithKeys(true, c.value, hash, size, c2sMac, s2cMac);
      ksv := WithKeys(false, s.value, hash, size, s2cMac, c2sMac);
      SameLetters(hash, MpintBytes(c.value.k) + c.value.hash, c.value.session, c2sMac, s2cMac);
    }
  }

  method WithKeys(client: bool, s: Secret, hash: seq<byte> -> seq<byte>, size: nat, transMac: nat, recvMac: nat)
    returns (keys: Option<KeyContext>)
    requires HashOf(hash, size) && |Body(s.k)| < 0x1_0000_0000 && CountBits(s.k) < 0x8000_0000
    ensures keys == Some(KeysOf(client, hash, MpintBytes(s.k) + s.hash, s.session, transMac, recvMac))
  {
    var k := NewKeys(client, s, hash, size, transMac, recvMac);
    keys := Some(k);
  }

  lemma {:induction false} PowerOfPower(g: nat, x: nat, y: nat, p: nat)
    requires p > 0
    ensures x * y >= 0 && ExptMod(ExptMod(g, y, p), x, p) == ExptMod(g, x * y, p)
  {
    ModPow(Pow(g, y), x, p);
    PowMul(g, y, x);
    MulComm(x, y);
  }

  /** One side: its value is `us`, the peer's `them`; the peer's KEXINIT has `before` in front of it in its packet. */
  method Side(client: bool, h: Hello, before: seq<byte>, p: nat, us: nat, priv: nat, them: nat, ks: seq<byte>,
              hash: seq<byte> -> seq<byte>, session: Option<seq<byte>>) returns (r: Option<Secret>)
    requires Sensible(h) && |before| + |h.iC| < 0x1000_0000 && |before| + |h.iS| < 0x1000_0000
    requires p > 0 && CountBits(p) < 0x1000_0000 && us < p && |ks| < 0x1000_0000
    ensures r.Some? ==> InRange(them, p) && r.value.k == ExptMod(them, priv, p)
    ensures r.Some? ==>
              var e, f := if client then us else them, if client then them else us;
              && |Body(e)| < 0x1_0000_0000 && |Body(f)| < 0x1_0000_0000 && |Body(r.value.k)| < 0x1_0000_0000
              && r.value.hash == hash(HelloBytes(h) + ValueBytes(ks, e, f, r.value.k))
              && r.value.session == if session.Some? then session.value else r.value.hash
  {
    var payload := before + (if client then h.iS else h.iC);
    assert payload[|before|..] == if client then h.iS else h.iC;
    var b;
    if client {
      b := FillKexinit(true, h.vC, h.vS, h.iC, payload, |before|, h);
    } else {
      b := FillKexinit(false, h.vS, h.vC, h.iS, payload, |before|, h);
    }
    r := CombKey(client, b, p, us, priv, them, ks, hash, session);
  }
}
