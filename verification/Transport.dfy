/** A sender and a receiver joined by a byte stream. */
module Transport {
  import opened Bytes
  import opened Packet
  import opened WriteQueue
  import opened PacketIO

  /* ---- a whole sequence of packets ---- */

  lemma {:induction false} WireOn<S(!new)>(keys: Keys<S>, at: At<S>, seqno: nat, ks: seq<Pk>, k: Pk)
    requires GoodKeys(keys) && GoodPks(keys, at.gen, ks)
    requires var end := End(keys, at, ks); GoodPk(keys.suite(end.gen).block, k)
    ensures GoodPks(keys, at.gen, ks + [k])
    ensures var end := End(keys, at, ks);
            && Wire(keys, at, seqno, ks + [k])
               == Wire(keys, at, seqno, ks) + Encode(keys.suite(end.gen), end.state, EndSeq(seqno, ks), k)
            && End(keys, at, ks + [k]) == AtOn(keys, end, k)
    ensures EndSeq(seqno, ks + [k]) == NextSeq(EndSeq(seqno, ks))
    ensures Payloads(ks + [k]) == Payloads(ks) + [k.payload]
    decreases |ks|
  {
    var end := End(keys, at, ks);
    if |ks| == 0 {
      assert ks + [k] == [k] && [k][1..] == [];
      Right(Encode(keys.suite(at.gen), at.state, seqno, k));
    } else {
      var at1, n1 := AtOn(keys, at, ks[0]), NextSeq(seqno);
      WireOn(keys, at1, n1, ks[1..], k);
      assert (ks + [k])[1..] == ks[1..] + [k];
      Assoc(Encode(keys.suite(at.gen), at.state, seqno, ks[0]), Wire(keys, at1, n1, ks[1..]),
            Encode(keys.suite(end.gen), end.state, EndSeq(seqno, ks), k));
    }
  }

  lemma {:induction false} Right(a: seq<byte>)
    ensures a + [] == a && [] + a == a
  {
  }

  /* ---- sending ---- */

  class Sender<S(!new)> {
    const keys: Keys<S>
    const writer: Writer
    var gen: nat
    var suite: Suite<S>               // ses.keys->trans
    var state: S
    var transseq: nat

    ghost predicate Valid()
      reads this, writer
    {
      GoodKeys(keys) && suite == keys.suite(gen) && writer.Valid()
    }

    ghost function Here(): At<S>
      reads this
    {
      At(gen, state)
    }

    constructor (ks: Keys<S>)
      requires GoodKeys(ks)
      ensures Valid() && fresh(writer) && writer.queue == [] && keys == ks && Here() == At(0, ks.first(0)) && transseq == 0
    {
      keys, gen, suite, state, transseq := ks, 0, ks.suite(0), ks.first(0), 0;
      writer := new Writer();
    }

    /** `encrypt_packet`, given enough random bytes: the packet is framed, padded, encrypted, authenticated and
        queued, and the buffer allocated for it is big enough. */
    method EncryptPacket(payload: seq<byte>, random: seq<byte>) returns (ghost k: Pk)
      requires Valid() && 1 <= |payload| <= RECV_MAX_PAYLOAD_LEN && |random| >= 32
      modifies this`state, this`transseq, writer
      ensures Valid() && k.payload == payload && GoodPk(suite.block, k)
      ensures Unsent(writer.queue) == old(Unsent(writer.queue)) + Encode(suite, old(state), old(transseq), k)
      ensures state == StateOn(suite, old(state), k) && transseq == NextSeq(old(transseq))
    {
      var len := 5 + |payload|;
      var padlen := suite.block - len % suite.block;
      if padlen < 4 { padlen := padlen + suite.block; }
      if len + padlen < MIN_PACKET_LEN { padlen := padlen + suite.block; }
      PaddingFits(suite.block, len);
      var pk := Pk(payload, random[..padlen]);
      k := pk;
      ClearWhole(suite.block, pk);
      EncodeParts(suite, state, transseq, pk);
      var clear := Clear(pk);
      var cipher := Encrypt(suite, state, clear);
      var packet := cipher + suite.mac(transseq, clear);
      var encryptBufSize := len + (if suite.block > MIN_PACKET_LEN then suite.block else MIN_PACKET_LEN) + 3 + suite.macsize + 1;
      assert |packet| + 1 <= encryptBufSize;
      Queue(packet, payload[0]);
      state := StateAfter(suite, state, cipher);
      transseq := NextSeq(transseq);
    }

    /** `encrypt_packet`; after NEWKEYS, `send_msg_newkeys` goes on to the next keys. The sequence number goes on too. */
    method SendPacket(payload: seq<byte>, random: seq<byte>) returns (ghost k: Pk)
      requires Valid() && 1 <= |payload| <= RECV_MAX_PAYLOAD_LEN && |random| >= 32
      modifies this`state, this`transseq, this`gen, this`suite, writer
      ensures Valid() && k.payload == payload && GoodPk(old(suite.block), k)
      ensures Unsent(writer.queue) == old(Unsent(writer.queue)) + Encode(old(suite), old(state), old(transseq), k)
      ensures Here() == AtOn(keys, old(Here()), k) && transseq == NextSeq(old(transseq))
    {
      k := EncryptPacket(payload, random);
      if payload[0] == NEWKEYS {
        gen := gen + 1;
        suite, state := keys.suite(gen), keys.first(gen);
      }
    }

    method Queue(packet: seq<byte>, typ: byte)
      requires writer.Valid() && |packet| > 0
      modifies writer
      ensures writer.Valid() && Unsent(writer.queue) == old(Unsent(writer.queue)) + packet
    {
      ghost var was := Unsent(writer.queue);
      writer.Enqueue(packet, typ);
      Cancel(writer.sent, Unsent(writer.queue), was + packet, writer.all);
    }
  }

  lemma {:induction false} Cancel(a: seq<byte>, b: seq<byte>, c: seq<byte>, all: seq<byte>)
    requires a + b == all && a + c == all
    ensures b == c
  {
    assert b == (a + b)[|a|..] && c == (a + c)[|a|..];
  }

  /* ---- both ends ---- */

  /** What can happen: a payload is sent, the socket takes some bytes, the receiver reads some. */
  datatype Event = Send(payload: seq<byte>, random: seq<byte>) | Write(n: nat) | Read(n1: nat, n2: nat)

  ghost predicate Plausible(e: Event) {
    e.Send? ==> 1 <= |e.payload| <= RECV_MAX_PAYLOAD_LEN && |e.random| >= 32
  }

  class Link<S(!new)> {
    const sender: Sender<S>
    const reader: Reader<S>
    var tcp: seq<byte>                // on the way
    ghost var handed: seq<seq<byte>>  // payloads given to encrypt_packet

    ghost predicate Valid()
      reads this, sender, sender.writer, reader
    {
      && sender.Valid() && reader.Valid() && reader.Quiet() && sender.keys == reader.keys
      && tcp + Unsent(sender.writer.queue) == reader.Unread()
      && sender.Here() == End(reader.keys, reader.Here(), reader.todo)
      && sender.transseq == EndSeq(reader.recvseq, reader.todo)
      && reader.payloads + Payloads(reader.todo) == handed
    }

    constructor (ks: Keys<S>)
      requires GoodKeys(ks)
      ensures Valid() && handed == [] && fresh(sender) && fresh(sender.writer) && fresh(reader)
    {
      sender := new Sender(ks);
      reader := new Reader(ks);
      tcp, handed := [], [];
    }

    method SendPayload(payload: seq<byte>, random: seq<byte>)
      requires Valid() && 1 <= |payload| <= RECV_MAX_PAYLOAD_LEN && |random| >= 32
      modifies this`handed, sender, sender.writer, reader
      ensures Valid() && handed == old(handed) + [payload]
    {
      ghost var keys, at, n, ks, r := reader.keys, reader.Here(), reader.recvseq, reader.todo, |reader.readbuf|;
      ghost var end := End(keys, at, ks);
      reader.UnreadIsWire();
      ghost var was := Unsent(sender.writer.queue);
      ghost var k := sender.SendPacket(payload, random);
      WireOn(keys, at, n, ks, k);
      ghost var e := Encode(keys.suite(end.gen), end.state, EndSeq(n, ks), k);
      DropJoin(Wire(keys, at, n, ks), e, r, tcp, was);
      reader.Announce(k);
      reader.UnreadIsWire();
      Assoc(reader.payloads, Payloads(ks), [payload]);
      handed := handed + [payload];
    }

    method WriteSome(n: nat)
      requires Valid()
      modifies this`tcp, sender.writer
      ensures Valid() && handed == old(handed)
    {
      if |sender.writer.queue| > 0 {
        var before := |sender.writer.sent|;
        ghost var was := Unsent(sender.writer.queue);
        var written := sender.writer.WritePacket(n);
        var bytes := sender.writer.sent[before..];
        MovedOn(tcp, bytes, was, written);
        tcp := tcp + bytes;
      }
    }

    method ReadSome(n1: nat, n2: nat)
      requires Valid()
      modifies this`tcp, reader
      ensures Valid() && handed == old(handed)
    {
      ReadOff(tcp, Unsent(sender.writer.queue), 0);
      var used := reader.ReadPacket(tcp, n1, n2);
      ReadOff(tcp, Unsent(sender.writer.queue), used);
      tcp := tcp[used..];
    }

    /** Once everything has arrived, exactly the payloads sent have been received, in order. */
    lemma {:induction false} AllArrived()
      requires Valid() && tcp == [] && sender.writer.queue == []
      ensures reader.payloads == handed
    {
      reader.NothingUnread();
    }

    /** However reads and writes are split, and however often the keys change on the way: what has been received is
        the beginning of what was sent. */
    method Run(events: seq<Event>)
      requires Valid() && forall i :: 0 <= i < |events| ==> Plausible(events[i])
      modifies this`tcp, this`handed, sender, sender.writer, reader
      ensures Valid() && reader.payloads <= handed
      ensures tcp == [] && sender.writer.queue == [] ==> reader.payloads == handed
    {
      for i := 0 to |events|
        invariant Valid()
      {
        match events[i] {
          case Send(payload, random) => SendPayload(payload, random);
          case Write(n) => WriteSome(n);
          case Read(n1, n2) => ReadSome(n1, n2);
        }
      }
      if tcp == [] && sender.writer.queue == [] { AllArrived(); }
    }
  }

  lemma {:induction false} MovedOn(tcp: seq<byte>, bytes: seq<byte>, was: seq<byte>, n: nat)
    requires n <= |was| && bytes == was[..n]
    ensures (tcp + bytes) + was[n..] == tcp + was
  {
    assert bytes + was[n..] == was;
    Assoc(tcp, bytes, was[n..]);
  }

  lemma {:induction false} ReadOff(tcp: seq<byte>, rest: seq<byte>, n: nat)
    requires n <= |tcp|
    ensures tcp <= tcp + rest && (tcp + rest)[n..] == tcp[n..] + rest
  {
  }

  lemma {:induction false} DropJoin(w: seq<byte>, e: seq<byte>, r: nat, tcp: seq<byte>, was: seq<byte>)
    requires r <= |w| && tcp + was == w[r..]
    ensures tcp + (was + e) == (w + e)[r..]
  {
    assert (w + e)[r..] == w[r..] + e;
    Assoc(tcp, was, e);
  }

}
