/** Sending and reassembling packets, however the reads and writes are split. */
module PacketIO {
  import opened Bytes
  import opened Packet
  import opened WriteQueue

  /* ---- receiving ---- */

  class Reader<S(!new)> {
    const keys: Keys<S>
    var gen: nat
    var suite: Suite<S>               // ses.keys->recv
    var readbuf: seq<byte>            // what has arrived of the current packet; first block decrypted once complete
    var total: nat                    // its length with MAC, 0 while unknown
    var state: S
    var recvseq: nat
    var payloads: seq<seq<byte>>      // handed to process_packet
    ghost var start: S                // the cipher state at the beginning of the current packet
    ghost var todo: seq<Pk>           // the packets the sender has sent and that are not complete here

    ghost predicate Ready()
      reads this
    {
      GoodKeys(keys) && suite == keys.suite(gen) && GoodPks(keys, gen, todo)
    }

    ghost function Here(): At<S>
      reads this
    {
      At(gen, start)
    }

    /** The bytes of the packets after the current one. */
    ghost function After(): seq<byte>
      requires Ready() && |todo| > 0
      reads this
    {
      Wire(keys, AtOn(keys, Here(), todo[0]), NextSeq(recvseq), todo[1..])
    }

    /** The bytes of the current packet as sent. */
    ghost function Current(): seq<byte>
      requires Ready() && |todo| > 0
      reads this
    {
      Encode(suite, start, recvseq, todo[0])
    }

    ghost predicate Valid()
      reads this
    {
      && Ready()
      && (if total == 0 then |readbuf| < suite.block && state == start else suite.block <= |readbuf| <= total)
      && (if |todo| == 0 then readbuf == [] && total == 0
          else
            && Arrived(suite.block, Clear(todo[0]), Current(), readbuf, total)
            && (total > 0 ==> state == suite.next(start, Current()[..suite.block])))
    }

    /** Between calls of `read_packet`, no complete packet is waiting. */
    ghost predicate Quiet()
      reads this
    {
      total > 0 ==> |readbuf| < total
    }

    /** What the sender has sent and has not arrived. */
    ghost function Unread(): seq<byte>
      requires Ready() && (|todo| > 0 ==> |readbuf| <= |Current()|)
      reads this
    {
      if |todo| == 0 then []
      else Current()[|readbuf|..] + After()
    }

    /** What the sender has come to in the end, and all the payloads it has sent. */
    ghost function Account(): (At<S>, nat, seq<seq<byte>>)
      requires Ready()
      reads this
    {
      (End(keys, Here(), todo), EndSeq(recvseq, todo), payloads + Payloads(todo))
    }

    lemma {:induction false} UnreadIsWire()
      requires Ready()
      requires (|todo| > 0 ==> |readbuf| <= |Current()|) && (|todo| == 0 ==> readbuf == [])
      ensures var w := Wire(keys, Here(), recvseq, todo); |readbuf| <= |w| && Unread() == w[|readbuf|..]
    {
    }

    lemma {:induction false} NothingUnread()
      requires Valid() && Quiet() && Unread() == []
      ensures todo == []
    {
      if |todo| > 0 { EncodeLength(suite, start, recvseq, todo[0]); }
    }

    constructor (ks: Keys<S>)
      requires GoodKeys(ks)
      ensures Valid() && Quiet() && keys == ks && todo == [] && payloads == [] && recvseq == 0 && readbuf == []
      ensures Here() == At(0, ks.first(0))
    {
      keys, gen, suite := ks, 0, ks.suite(0);
      readbuf, total, state, recvseq, payloads, start, todo := [], 0, ks.first(0), 0, [], ks.first(0), [];
    }

    /** The sender sends one more packet. */
    ghost method Announce(k: Pk)
      requires Valid() && Quiet() && GoodPks(keys, gen, todo + [k]) && (|todo| == 0 ==> GoodPk(suite.block, k))
      modifies this`todo
      ensures Valid() && Quiet() && todo == old(todo) + [k]
    {
      if |todo| == 0 { EncodeLength(suite, start, recvseq, k); }
      todo := todo + [k];
    }

    /** Some bytes of the first block arrive. */
    method TakeFirst(avail: seq<byte>, n: nat)
      requires Valid() && total == 0 && |todo| > 0 && n <= |avail| && avail <= Unread() && |readbuf| + n <= suite.block
      modifies this`readbuf
      ensures readbuf == old(readbuf) + avail[..n] && |readbuf| <= |Current()| && readbuf == Current()[..|readbuf|]
      ensures |readbuf| < suite.block ==> Valid()
      ensures Unread() == old(Unread())[n..]
    {
      ghost var later := After();
      EncodeLength(suite, start, recvseq, todo[0]);
      TakePrefix(Current(), |readbuf|, n, later, avail);
      readbuf := readbuf + avail[..n];
    }

    /** Some bytes of the rest of the packet arrive. */
    method TakeRest(avail: seq<byte>, n: nat)
      requires Valid() && total > 0 && n <= |avail| && avail <= Unread() && |readbuf| + n <= total
      modifies this`readbuf
      ensures Valid() && |readbuf| == |old(readbuf)| + n && Unread() == old(Unread())[n..]
    {
      RestArrives(suite.block, Clear(todo[0]), Current(), readbuf, total, After(), avail, n);
      readbuf := readbuf + avail[..n];
    }

    /** The first block is complete: the length is known, and the checks on it pass. */
    method ReadInit()
      requires Ready() && |todo| > 0 && total == 0 && state == start
      requires |readbuf| == suite.block <= |Current()| && readbuf == Current()[..suite.block]
      modifies this`readbuf, this`total, this`state
      ensures Valid() && total > 0 && |readbuf| == suite.block && Unread() == old(Unread())
    {
      EncodeParts(suite, start, recvseq, todo[0]);
      ClearFields(todo[0]);
      var first := suite.dec(state, readbuf);
      state := suite.next(state, readbuf);
      FirstBytes(Clear(todo[0]), suite.block);
      var len := Load32(first) + 4 + suite.macsize;
      assert !(len > RECV_MAX_PACKET_LEN || len < MIN_PACKET_LEN + suite.macsize || (len - suite.macsize) % suite.block != 0);
      readbuf, total := first, len;
    }

    /** The packet is complete: it decrypts, its MAC is right, and its payload is the one that was sent. */
    method Unwrap() returns (payload: seq<byte>, after: S)
      requires Valid() && total > 0 && |readbuf| == total
      ensures payload == todo[0].payload && after == StateOn(suite, start, todo[0])
    {
      Reassembled(suite, start, recvseq, todo[0], readbuf, state);
      var end := total - suite.macsize;
      var clear := readbuf[..suite.block] + Decrypt(suite, state, readbuf[suite.block..end]);
      assert readbuf[end..] == suite.mac(recvseq, clear);
      payload := clear[5..end - clear[4] as nat];
      assert 1 <= |payload| <= RECV_MAX_PAYLOAD_LEN;
      after := StateAfter(suite, state, readbuf[suite.block..end]);
    }

    method DecryptPacket()
      requires Valid() && total > 0 && |readbuf| == total
      modifies this
      ensures Valid() && total == 0 && payloads == old(payloads) + [old(todo[0].payload)] && todo == old(todo[1..])
      ensures Unread() == old(Unread()) && Here() == old(AtOn(keys, Here(), todo[0])) && recvseq == NextSeq(old(recvseq))
    {
      var payload, after := Unwrap();
      NextPacket();
      payloads := payloads + [payload];
      Proceed(payload[0] == NEWKEYS, after);
      AllUnread();
    }

    /** The next packet, under the next keys if the last one was NEWKEYS; `recv_msg_newkeys` comes before it is read. */
    method Proceed(newkeys: bool, after: S)
      requires Ready() && |todo| > 0 && newkeys == (todo[0].payload[0] == NEWKEYS)
      requires after == StateOn(suite, start, todo[0])
      modifies this`gen, this`suite, this`state, this`start, this`readbuf, this`total, this`recvseq, this`todo
      ensures Ready() && readbuf == [] && total == 0 && state == start && todo == old(todo[1..])
      ensures Here() == old(AtOn(keys, Here(), todo[0])) && recvseq == NextSeq(old(recvseq))
    {
      state := after;
      readbuf, total := [], 0;
      recvseq := NextSeq(recvseq);
      if newkeys {
        gen := gen + 1;
        suite, state := keys.suite(gen), keys.first(gen);
      }
      start := state;
      todo := todo[1..];
    }

    /** Before anything of a packet has arrived, all of it is unread. */
    lemma {:induction false} AllUnread()
      requires Ready() && readbuf == []
      ensures Unread() == Wire(keys, Here(), recvseq, todo)
      ensures |todo| > 0 ==> suite.block <= |Clear(todo[0])|
    {
      if |todo| > 0 {
        EncodeLength(suite, start, recvseq, todo[0]);
        assert Current()[0..] == Current();
      }
    }

    /** Once a packet has arrived, what is unread starts with the next one. */
    lemma {:induction false} NextPacket()
      requires Ready() && |todo| > 0 && |readbuf| == |Current()|
      ensures Unread() == After()
    {
      assert Current()[|readbuf|..] == [];
    }

    /** `read_packet`, when at most n1 and n2 bytes can be read without waiting. */
    method ReadPacket(avail: seq<byte>, n1: nat, n2: nat) returns (used: nat)
      requires Valid() && Quiet() && avail <= Unread()
      modifies this
      ensures Valid() && Quiet() && used <= |avail| && Unread() == old(Unread())[used..]
      ensures |avail| > 0 && n1 > 0 && n2 > 0 ==> used > 0
      ensures Account() == old(Account())
    {
      used := 0;
      if |avail| > 0 { used := ReadBoth(avail, n1, n2, Unread(), Account()); }
    }

    /** Where the reader is: what is unread, and the account. */
    ghost predicate Stands(u: seq<byte>, a: (At<S>, nat, seq<seq<byte>>))
      reads this
    {
      Valid() && Unread() == u && Account() == a
    }

    method ReadBoth(avail: seq<byte>, n1: nat, n2: nat, ghost u: seq<byte>, ghost a: (At<S>, nat, seq<seq<byte>>))
        returns (used: nat)
      requires Stands(u, a) && Quiet() && avail <= u && |avail| > 0
      modifies this
      ensures used <= |avail| && Stands(u[used..], a) && Quiet() && (n1 > 0 && n2 > 0 ==> used > 0)
    {
      used := ReadFirst(avail, n1, u, a);
      DropPrefix(u, avail, used);
      var more := ReadRest(avail[used..], n2, u[used..], a);
      DropTwice(u, used, more);
      used := used + more;
    }

    method ReadRest(avail: seq<byte>, n2: nat, ghost u: seq<byte>, ghost a: (At<S>, nat, seq<seq<byte>>)) returns (used: nat)
      requires Stands(u, a) && avail <= u
      modifies this
      ensures used <= |avail| && Stands(u[used..], a) && Quiet()
      ensures |avail| > 0 && n2 > 0 && old(total > |readbuf|) ==> used > 0
    {
      used := 0;
      if total > 0 { used := ReadMore(avail, n2); }
    }

    /** The part of `read_packet` up to the first block. */
    method ReadFirst(avail: seq<byte>, n1: nat, ghost u: seq<byte>, ghost a: (At<S>, nat, seq<seq<byte>>)) returns (used: nat)
      requires Stands(u, a) && |avail| > 0 && avail <= u
      modifies this`readbuf, this`total, this`state
      ensures used <= |avail| && Stands(u[used..], a)
      ensures old(total) > 0 ==> readbuf == old(readbuf) && total == old(total)
      ensures old(total) == 0 && n1 > 0 ==> used > 0
    {
      used := 0;
      if total == 0 {
        used := Min(Min(n1, suite.block - |readbuf|), |avail|);
        TakeFirst(avail, used);
        if |readbuf| == suite.block { ReadInit(); }
      }
    }

    /** The part of `read_packet` after the first block. */
    method ReadMore(avail: seq<byte>, n2: nat) returns (used: nat)
      requires Valid() && total > 0 && avail <= Unread()
      modifies this
      ensures Valid() && Quiet() && used <= |avail| && Unread() == old(Unread())[used..]
      ensures Account() == old(Account())
      ensures |avail| > 0 && n2 > 0 && old(|readbuf| < total) ==> used > 0
    {
      used := Min(Min(n2, total - |readbuf|), |avail|);
      TakeRest(avail, used);
      if |readbuf| == total {
        ghost var k := todo[0].payload;
        Assoc(payloads, [k], Payloads(todo[1..]));
        DecryptPacket();
      }
    }
  }

  /** What has arrived of a packet with clear text c and bytes e: the first block decrypted once it is complete. */
  ghost predicate Arrived(b: nat, c: seq<byte>, e: seq<byte>, buf: seq<byte>, total: nat) {
    && |buf| <= |e| && b <= |c|
    && (total == 0 ==> buf == e[..|buf|])
    && (total > 0 ==> total == |e| && b <= |buf| && buf == c[..b] + e[b..|buf|])
  }

  lemma {:induction false} RestArrives(b: nat, c: seq<byte>, e: seq<byte>, buf: seq<byte>, total: nat, later: seq<byte>,
                                       avail: seq<byte>, n: nat)
    requires Arrived(b, c, e, buf, total) && total > 0 && n <= |avail| && |buf| + n <= total && avail <= e[|buf|..] + later
    ensures Arrived(b, c, e, buf + avail[..n], total)
    ensures e[|buf| + n..] + later == (e[|buf|..] + later)[n..]
  {
    TakePrefix(e, |buf|, n, later, avail);
    JoinSlices(c[..b], e, b, |buf|, n);
  }

  ghost function Payloads(ks: seq<Pk>): seq<seq<byte>> {
    if |ks| == 0 then [] else [ks[0].payload] + Payloads(ks[1..])
  }

  /** A complete packet, its first block already decrypted. */
  lemma {:induction false} Reassembled<S(!new)>(u: Suite<S>, s: S, seqno: nat, k: Pk, buf: seq<byte>, s1: S)
    requires GoodSuite(u) && GoodPk(u.block, k) && |Clear(k)| >= u.block && |Encode(u, s, seqno, k)| >= u.block
    requires var e := Encode(u, s, seqno, k);
             buf == Clear(k)[..u.block] + e[u.block..] && s1 == u.next(s, e[..u.block])
    ensures var c, end := Clear(k), |buf| - u.macsize;
            && u.block <= end == |c| && buf[..u.block] + Decrypt(u, s1, buf[u.block..end]) == c
            && buf[end..] == u.mac(seqno, c) && StateAfter(u, s1, buf[u.block..end]) == StateOn(u, s, k)
            && 5 + c[4] as nat <= end && c[5..end - c[4] as nat] == k.payload
  {
    EncodeParts(u, s, seqno, k);
    ClearFields(k);
    var c, e, b := Clear(k), Encode(u, s, seqno, k), u.block;
    var end := |buf| - u.macsize;
    assert |buf| == |e| && end == |c|;
    assert buf[b..end] == e[b..end] && buf[end..] == e[end..] && buf[..b] == c[..b];
    assert c[..b] + c[b..] == c;
  }

  lemma {:induction false} FirstBytes(c: seq<byte>, b: nat)
    requires 4 <= b <= |c|
    ensures Load32(c[..b]) == Load32(c)
  {
  }

  lemma {:induction false} DropPrefix(u: seq<byte>, avail: seq<byte>, n: nat)
    requires avail <= u && n <= |avail|
    ensures avail[n..] <= u[n..]
  {
    assert avail == u[..|avail|];
  }

  lemma {:induction false} DropTwice(u: seq<byte>, m: nat, n: nat)
    requires m + n <= |u|
    ensures u[m..][n..] == u[m + n..]
  {
  }

  lemma {:induction false} JoinSlices(c: seq<byte>, e: seq<byte>, b: nat, r: nat, n: nat)
    requires b <= r && r + n <= |e|
    ensures c + e[b..r] + e[r..r + n] == c + e[b..r + n]
  {
    assert e[b..r] + e[r..r + n] == e[b..r + n];
  }

  lemma {:induction false} TakePrefix(e: seq<byte>, r: nat, n: nat, later: seq<byte>, avail: seq<byte>)
    requires r + n <= |e| && n <= |avail| && avail <= e[r..] + later
    ensures avail[..n] == e[r..r + n] && e[..r] + avail[..n] == e[..r + n]
    ensures e[r + n..] + later == (e[r..] + later)[n..]
  {
    var w := e[r..] + later;
    assert avail == w[..|avail|];
    assert avail[..n] == w[..n] == e[r..r + n];
    assert w[n..] == e[r + n..] + later;
  }
}
