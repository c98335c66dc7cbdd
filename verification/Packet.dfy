/** Binary packets of section 6 of RFC 4253: `encrypt_packet`, `read_packet`, `read_packet_init`, `decrypt_packet`
    and `checkmac` of packet.c, without compression. */
module Packet {
  import opened Bytes
  import opened ModArith

  const MIN_PACKET_LEN: nat := 16
  const RECV_MAX_PAYLOAD_LEN: nat := 32768
  const RECV_MAX_PACKET_LEN: nat := 35000

  /* ---- padding ---- */

  /** The padding length for a packet of `len` bytes with header and payload. */
  function PadLen(block: nat, len: nat): (n: nat)
    requires 8 <= block
  {
    var n := block - len % block;
    var n := if n < 4 then n + block else n;
    if len + n < MIN_PACKET_LEN then n + block else n
  }

  /** Multiples of the block size, counted down. */
  ghost predicate Whole(block: nat, n: nat)
    requires block > 0
  {
    n == 0 || (n >= block && Whole(block, n - block))
  }

  lemma {:induction false} WholeMod(block: nat, n: nat)
    requires block > 0
    ensures Whole(block, n) <==> n % block == 0
    decreases n
  {
    if n >= block {
      WholeMod(block, n - block);
      ModShift(n, n - block, 1, block);
    } else {
      ModSmall(n, block);
    }
  }

  lemma {:induction false} PadToBlock(block: nat, len: nat)
    requires block > 0
    ensures 0 < block - len % block <= block && (len + (block - len % block)) % block == 0
  {
    var q, r := len / block, len % block;
    assert len == q * block + r;
    DivModUnique(len + (block - r), block, q + 1, 0);
  }

  /** At least four bytes of padding, up to a whole number of blocks and at least the minimum length. */
  lemma {:induction false} PaddingFits(block: nat, len: nat)
    requires (block == 8 || block == 16) && len >= 6
    ensures var n := PadLen(block, len);
            4 <= n < block + 4 && (len + n) % block == 0 && len + n >= MIN_PACKET_LEN
  {
    PadToBlock(block, len);
    var n := block - len % block;
    ModShift(len + n + block, len + n, 1, block);
    assert (len + n) % 8 == 0 by { if block == 16 { assert (len + n) % 16 == 0; } }
  }

  /* ---- cipher and MAC ---- */

  /** A block cipher in some mode, with the state it keeps from block to block, and a MAC. CBC, where the state is
      the last ciphertext block, CTR, where it is a counter, and no cipher at all are instances. */
  datatype Suite<!S> = Suite(block: nat, macsize: nat, enc: (S, seq<byte>) -> seq<byte>, dec: (S, seq<byte>) -> seq<byte>,
                             next: (S, seq<byte>) -> S, mac: (nat, seq<byte>) -> seq<byte>)

  ghost predicate GoodSuite<S(!new)>(u: Suite<S>) {
    && (u.block == 8 || u.block == 16) && u.macsize <= 64
    && (forall s, b :: |b| == u.block ==> |u.enc(s, b)| == u.block && u.dec(s, u.enc(s, b)) == b)
    && (forall n, t :: |u.mac(n, t)| == u.macsize)
  }

  /** No cipher and no MAC, as at the start of a session. */
  function NoCipher(): Suite<()> {
    Suite(8, 0, (s: (), b: seq<byte>) => b, (s: (), b: seq<byte>) => b, (s: (), b: seq<byte>) => s, (n: nat, t: seq<byte>) => [])
  }

  lemma {:induction false} NoCipherIsGood()
    ensures GoodSuite(NoCipher())
  {
  }

  function Encrypt<S>(u: Suite<S>, s: S, text: seq<byte>): seq<byte>
    requires u.block > 0
    decreases |text|
  {
    if |text| < u.block then []
    else var e := u.enc(s, text[..u.block]); e + Encrypt(u, u.next(s, e), text[u.block..])
  }

  function Decrypt<S>(u: Suite<S>, s: S, text: seq<byte>): seq<byte>
    requires u.block > 0
    decreases |text|
  {
    if |text| < u.block then []
    else u.dec(s, text[..u.block]) + Decrypt(u, u.next(s, text[..u.block]), text[u.block..])
  }

  /** The state after some blocks of ciphertext. */
  function StateAfter<S>(u: Suite<S>, s: S, text: seq<byte>): S
    requires u.block > 0
    decreases |text|
  {
    if |text| < u.block then s else StateAfter(u, u.next(s, text[..u.block]), text[u.block..])
  }

  lemma {:induction false} EncryptLength<S(!new)>(u: Suite<S>, s: S, text: seq<byte>)
    requires GoodSuite(u) && Whole(u.block, |text|)
    ensures |Encrypt(u, s, text)| == |text|
    decreases |text|
  {
    if |text| > 0 {
      EncryptLength(u, u.next(s, u.enc(s, text[..u.block])), text[u.block..]);
    }
  }

  lemma {:induction false} DecryptEncrypt<S(!new)>(u: Suite<S>, s: S, text: seq<byte>)
    requires GoodSuite(u) && Whole(u.block, |text|)
    ensures Decrypt(u, s, Encrypt(u, s, text)) == text
    decreases |text|
  {
    if |text| > 0 {
      var e := u.enc(s, text[..u.block]);
      var rest := text[u.block..];
      DecryptEncrypt(u, u.next(s, e), rest);
      var c := e + Encrypt(u, u.next(s, e), rest);
      assert c[..u.block] == e && c[u.block..] == Encrypt(u, u.next(s, e), rest);
      assert text[..u.block] + rest == text;
    }
  }

  /* ---- packets ---- */

  /** A payload and its random padding. */
  datatype Pk = Pk(payload: seq<byte>, pad: seq<byte>)

  ghost predicate GoodPk(block: nat, k: Pk)
    requires 8 <= block
  {
    1 <= |k.payload| <= RECV_MAX_PAYLOAD_LEN && |k.pad| == PadLen(block, 5 + |k.payload|)
  }

  /** packet_length, padding_length, payload, padding. */
  function Clear(k: Pk): (c: seq<byte>)
    requires |k.payload| + |k.pad| + 1 < 0x1_0000_0000 && |k.pad| < 256
    ensures |c| == 5 + |k.payload| + |k.pad|
  {
    Store32(1 + |k.payload| + |k.pad|) + [|k.pad|] + k.payload + k.pad
  }

  lemma {:induction false} ClearFields(k: Pk)
    requires |k.payload| + |k.pad| + 1 < 0x1_0000_0000 && |k.pad| < 256
    ensures var c := Clear(k);
            Load32(c) == |c| - 4 && c[4] as nat == |k.pad| && c[5..|c| - |k.pad|] == k.payload
  {
    var n := 1 + |k.payload| + |k.pad|;
    LoadStore32(n, [|k.pad|] + k.payload + k.pad);
    assert Clear(k) == Store32(n) + ([|k.pad|] + k.payload + k.pad);
  }

  lemma {:induction false} ClearWhole(block: nat, k: Pk)
    requires (block == 8 || block == 16) && GoodPk(block, k)
    ensures 4 <= |k.pad| < 20 && Whole(block, |Clear(k)|) && |Clear(k)| >= MIN_PACKET_LEN && |Clear(k)| % block == 0
    ensures |Clear(k)| <= RECV_MAX_PAYLOAD_LEN + 24
  {
    PaddingFits(block, 5 + |k.payload|);
    WholeMod(block, 5 + |k.payload| + |k.pad|);
  }

  /** What goes on the wire for one packet. */
  ghost function Encode<S(!new)>(u: Suite<S>, s: S, seqno: nat, k: Pk): seq<byte>
    requires GoodSuite(u) && GoodPk(u.block, k)
  {
    ClearWhole(u.block, k);
    Encrypt(u, s, Clear(k)) + u.mac(seqno, Clear(k))
  }

  function NextSeq(seqno: nat): nat { (seqno + 1) % 0x1_0000_0000 }

  /** The cipher state after one packet. */
  ghost function StateOn<S(!new)>(u: Suite<S>, s: S, k: Pk): S
    requires GoodSuite(u) && GoodPk(u.block, k)
  {
    ClearWhole(u.block, k);
    StateAfter(u, s, Encrypt(u, s, Clear(k)))
  }

  /* ---- changing keys ---- */

  const NEWKEYS: byte := 21

  /** The keys of one direction: a suite and its first cipher state for every generation. */
  datatype Keys<!S> = Keys(suite: nat -> Suite<S>, first: nat -> S)

  ghost predicate GoodKeys<S(!new)>(keys: Keys<S>) {
    forall g :: GoodSuite(keys.suite(g))
  }

  /** Where one side is: the generation, and the state of its cipher. */
  datatype At<S> = At(gen: nat, state: S)

  /** NEWKEYS is the last packet of its generation. */
  function GenOn(gen: nat, k: Pk): nat
    requires |k.payload| > 0
  {
    if k.payload[0] == NEWKEYS then gen + 1 else gen
  }

  ghost function AtOn<S(!new)>(keys: Keys<S>, at: At<S>, k: Pk): At<S>
    requires GoodKeys(keys) && GoodPk(keys.suite(at.gen).block, k)
  {
    if k.payload[0] == NEWKEYS then At(at.gen + 1, keys.first(at.gen + 1))
    else At(at.gen, StateOn(keys.suite(at.gen), at.state, k))
  }

  ghost predicate GoodPks<S(!new)>(keys: Keys<S>, gen: nat, ks: seq<Pk>)
    requires GoodKeys(keys)
    decreases |ks|
  {
    |ks| > 0 ==> GoodPk(keys.suite(gen).block, ks[0]) && GoodPks(keys, GenOn(gen, ks[0]), ks[1..])
  }

  /** What goes on the wire for a sequence of packets. */
  ghost function Wire<S(!new)>(keys: Keys<S>, at: At<S>, seqno: nat, ks: seq<Pk>): seq<byte>
    requires GoodKeys(keys) && GoodPks(keys, at.gen, ks)
    decreases |ks|
  {
    if |ks| == 0 then []
    else Encode(keys.suite(at.gen), at.state, seqno, ks[0]) + Wire(keys, AtOn(keys, at, ks[0]), NextSeq(seqno), ks[1..])
  }

  /** Where they lead. */
  ghost function End<S(!new)>(keys: Keys<S>, at: At<S>, ks: seq<Pk>): At<S>
    requires GoodKeys(keys) && GoodPks(keys, at.gen, ks)
    decreases |ks|
  {
    if |ks| == 0 then at else End(keys, AtOn(keys, at, ks[0]), ks[1..])
  }

  ghost function EndSeq(seqno: nat, ks: seq<Pk>): nat
    decreases |ks|
  {
    if |ks| == 0 then seqno else EndSeq(NextSeq(seqno), ks[1..])
  }

  lemma {:induction false} EncodeLength<S(!new)>(u: Suite<S>, s: S, seqno: nat, k: Pk)
    requires GoodSuite(u) && GoodPk(u.block, k)
    ensures |k.pad| < 20 && |Clear(k)| >= MIN_PACKET_LEN && |Encode(u, s, seqno, k)| == |Clear(k)| + u.macsize
  {
    ClearWhole(u.block, k);
    EncryptLength(u, s, Clear(k));
  }

  /** The first block decrypts to the first block of the packet, and the rest to the rest. */
  lemma {:induction false} EncodeParts<S(!new)>(u: Suite<S>, s: S, seqno: nat, k: Pk)
    requires GoodSuite(u) && GoodPk(u.block, k)
    ensures 4 <= |k.pad| < 20
    ensures var c, e, b := Clear(k), Encode(u, s, seqno, k), u.block;
            && |c| >= MIN_PACKET_LEN && |e| == |c| + u.macsize && |c| <= RECV_MAX_PAYLOAD_LEN + 24 && |c| % b == 0
            && u.dec(s, e[..b]) == c[..b]
            && Decrypt(u, u.next(s, e[..b]), e[b..|c|]) == c[b..]
            && e[|c|..] == u.mac(seqno, c)
            && StateOn(u, s, k) == StateAfter(u, u.next(s, e[..b]), e[b..|c|])
  {
    ClearWhole(u.block, k);
    var c, b := Clear(k), u.block;
    EncryptLength(u, s, c);
    var x := u.enc(s, c[..b]);
    var s1 := u.next(s, x);
    DecryptEncrypt(u, s1, c[b..]);
    EncryptLength(u, s1, c[b..]);
    var y := Encrypt(u, s1, c[b..]);
    var e := Encode(u, s, seqno, k);
    assert e == (x + y) + u.mac(seqno, c);
    assert e[..b] == x && e[b..|c|] == y && e[|c|..] == u.mac(seqno, c);
    assert (x + y)[..b] == x && (x + y)[b..] == y;
  }
}
