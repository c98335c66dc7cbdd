/** The queue of encrypted packets: `writebuf_enqueue` and `write_packet` of packet.c, `packet_queue_to_iovec`
    and `packet_queue_consume` of netio.c. */
module WriteQueue {
  import opened Bytes

  const MAX_IOV: nat := 50

  /** A packet with its type appended in the clear; the type is never sent. `pos` bytes are gone already. */
  datatype Buf = Buf(data: seq<byte>, pos: nat)

  predicate Open(b: Buf) { b.pos + 1 < |b.data| }

  function Left(b: Buf): (s: seq<byte>)
    requires b.pos + 1 < |b.data|
    ensures |s| == |b.data| - 1 - b.pos
  {
    b.data[b.pos..|b.data| - 1]
  }

  predicate AllOpen(queue: seq<Buf>) { forall i :: 0 <= i < |queue| ==> Open(queue[i]) }

  /** What is still to be sent. */
  function Unsent(queue: seq<Buf>): seq<byte>
    requires AllOpen(queue)
  {
    if |queue| == 0 then [] else Left(queue[0]) + Unsent(queue[1..])
  }

  lemma {:induction false} UnsentOn(queue: seq<Buf>, b: Buf)
    requires AllOpen(queue) && Open(b)
    ensures AllOpen(queue + [b]) && Unsent(queue + [b]) == Unsent(queue) + Left(b)
    decreases |queue|
  {
    if |queue| == 0 {
      assert queue + [b] == [b] && [b][1..] == [];
    } else {
      UnsentOn(queue[1..], b);
      assert (queue + [b])[1..] == queue[1..] + [b];
    }
  }

  class Writer {
    var queue: seq<Buf>
    var writequeueLen: nat
    var sent: seq<byte>               // taken by the socket
    ghost var all: seq<byte>          // every byte enqueued

    /** Bytes leave in the order they were enqueued, each once, and the count is right. */
    ghost predicate Valid()
      reads this
    {
      AllOpen(queue) && writequeueLen == |Unsent(queue)| && sent + Unsent(queue) == all
    }

    constructor ()
      ensures Valid() && queue == [] && sent == all == []
    {
      queue, writequeueLen, sent, all := [], 0, [], [];
    }

    /** `writebuf_enqueue`. */
    method Enqueue(packet: seq<byte>, typ: byte)
      requires Valid() && |packet| > 0
      modifies this
      ensures Valid() && all == old(all) + packet && sent == old(sent) && writequeueLen == old(writequeueLen) + |packet|
    {
      var b := Buf(packet + [typ], 0);
      UnsentOn(queue, b);
      assert Left(b) == packet;
      Assoc(sent, Unsent(queue), packet);
      queue := queue + [b];
      writequeueLen := writequeueLen + |packet|;
      all := all + packet;
    }

    /** `packet_queue_consume`. */
    method Drop(written: nat)
      requires AllOpen(queue) && written <= |Unsent(queue)|
      modifies this`queue
      ensures AllOpen(queue) && Unsent(queue) == old(Unsent(queue))[written..]
    {
      var w := written;
      ghost var u := Unsent(queue);
      while w > 0
        invariant AllOpen(queue) && 0 <= w <= |Unsent(queue)| && Unsent(queue)[w..] == u[written..]
        decreases w
      {
        var len := |queue[0].data| - 1 - queue[0].pos;
        ghost var rest := Unsent(queue[1..]);
        if len > w {
          Advance(queue[0], w, rest);
          queue := queue[0 := queue[0].(pos := queue[0].pos + w)];
          w := 0;
        } else {
          assert (Left(queue[0]) + rest)[w..] == rest[w - len..];
          w := w - len;
          queue := queue[1..];
        }
      }
      assert Unsent(queue)[0..] == Unsent(queue);
    }

    /** How much a single writev call can offer. */
    method Offer() returns (total: nat)
      requires Valid() && |queue| > 0
      ensures 0 < total <= |Unsent(queue)| && total == |Unsent(queue[..Min(|queue|, MAX_IOV)])|
    {
      var count := if |queue| <= MAX_IOV then |queue| else MAX_IOV;
      total := 0;
      for i := 0 to count
        invariant total == |Unsent(queue[..i])| && (i > 0 ==> total > 0)
      {
        assert queue[..i] + [queue[i]] == queue[..i + 1];
        UnsentOn(queue[..i], queue[i]);
        total := total + |queue[i].data| - 1 - queue[i].pos;
      }
      UnsentPrefix(queue, count);
    }

    /** `write_packet`: the socket takes any part of what at most MAX_IOV packets offer. */
    method WritePacket(n: nat) returns (written: nat)
      requires Valid() && |queue| > 0
      modifies this
      ensures Valid() && all == old(all) && written == Min(n, |Unsent(old(queue)[..Min(|old(queue)|, MAX_IOV)])|)
      ensures n > 0 ==> written > 0
      ensures written <= |old(Unsent(queue))| && sent == old(sent) + old(Unsent(queue))[..written]
      ensures Unsent(queue) == old(Unsent(queue))[written..]
    {
      var total := Offer();
      written := if n <= total then n else total;
      var u := Unsent(queue);
      Assoc(sent, u[..written], u[written..]);
      assert u[..written] + u[written..] == u;
      Drop(written);
      writequeueLen := writequeueLen - written;
      sent := sent + u[..written];
    }
  }

  lemma {:induction false} UnsentPrefix(queue: seq<Buf>, n: nat)
    requires AllOpen(queue) && n <= |queue|
    ensures |Unsent(queue[..n])| <= |Unsent(queue)|
    decreases n
  {
    if n > 0 {
      UnsentPrefix(queue[1..], n - 1);
      assert queue[..n][1..] == queue[1..][..n - 1];
    }
  }

  lemma {:induction false} Advance(b: Buf, w: nat, rest: seq<byte>)
    requires Open(b) && w < |Left(b)|
    ensures var c := b.(pos := b.pos + w); Open(c) && Left(c) + rest == (Left(b) + rest)[w..]
  {
  }

}
