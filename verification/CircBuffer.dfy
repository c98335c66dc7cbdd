/** The ring buffer of circbuffer.c, which behaves as a first-in first-out byte string. */
module CircBuffer {
  import opened Bytes

  const MAX_CBUF_SIZE: nat := 100000000

  lemma {:induction false} WrapAround(a: nat, n: nat)
    requires n > 0 && a < 2 * n
    ensures a % n == if a < n then a else a - n
  {
    if a >= n { assert (a - n) % n == a - n; }
  }

  lemma {:induction false} WrapTwice(a: nat, n: nat)
    requires n > 0 && n <= a < 3 * n
    ensures a % n == if a < 2 * n then a - n else a - 2 * n
  {
    assert a % n == (a - n) % n;
    WrapAround(a - n, n);
  }

  /** The bytes of a ring from position r on, n of them. */
  ghost function RingBytes(d: seq<byte>, r: nat, n: nat): (s: seq<byte>)
    requires n <= |d| && r <= |d|
    ensures |s| == n
  {
    if r + n <= |d| then d[r..r + n] else d[r..] + d[..r + n - |d|]
  }

  /** The position n bytes after r. */
  function Ahead(size: nat, r: nat, n: nat): nat
    requires r + n < 2 * size
  {
    if r + n < size then r + n else r + n - size
  }

  lemma {:induction false} MoreBytes(d: seq<byte>, r: nat, n: nat, k: nat)
    requires r < |d| && n + k <= |d| && n < |d| && Ahead(|d|, r, n) + k <= |d|
    ensures RingBytes(d, r, n + k) == RingBytes(d, r, n) + d[Ahead(|d|, r, n)..Ahead(|d|, r, n) + k]
  {
    if r + n + k <= |d| {
      assert r + n < |d| || k == 0;
    } else {
      assert r + n >= |d|;
    }
  }

  lemma {:induction false} FewerBytes(d: seq<byte>, r: nat, n: nat, k: nat)
    requires r < |d| && k <= n <= |d|
    ensures RingBytes(d, Ahead(|d|, r, k), n - k) == RingBytes(d, r, n)[k..]
  {
  }

  class Ring {
    const size: nat
    const data: array<byte>
    var used: nat
    var readpos: nat
    var writepos: nat

    ghost predicate Valid()
      reads this
    {
      && 0 < size == data.Length && used <= size && readpos < size
      && writepos == Ahead(size, readpos, used)
    }

    /** The bytes held, oldest first. */
    ghost function Contents(): (s: seq<byte>)
      requires Valid()
      reads this, data
      ensures |s| == used
    {
      RingBytes(data[..], readpos, used)
    }

    constructor (n: nat)
      requires 0 < n <= MAX_CBUF_SIZE
      ensures Valid() && Contents() == [] && size == n && fresh(data)
    {
      size := n;
      data := new byte[n](i => 0);
      used, readpos, writepos := 0, 0, 0;
    }

    method GetAvail() returns (n: nat)
      requires Valid()
      ensures n == size - used
    {
      n := size - used;
    }

    /** The three assertions of `cbuf_writelen`. */
    lemma {:induction false} ModularAssertions()
      requires Valid()
      ensures used <= size
      ensures (2 * size + writepos - readpos) % size == used % size
      ensures (2 * size + readpos - writepos) % size == (size - used) % size
    {
      WrapTwice(2 * size + writepos - readpos, size);
      WrapTwice(2 * size + readpos - writepos, size);
      WrapAround(used, size);
      WrapAround(size - used, size);
    }

    /** How much can be written without wrapping around: zero exactly when the ring is full. */
    method WriteLen() returns (n: nat)
      requires Valid()
      ensures n <= size - used && writepos + n <= size
      ensures n == 0 <==> used == size
      ensures n < size - used ==> writepos + n == size
    {
      if used == size { return 0; }
      if writepos < readpos { return readpos - writepos; }
      n := size - writepos;
    }

    /** The length of the first contiguous part. */
    function Front(): nat
      requires Valid()
      reads this
    {
      Min(used, size - readpos)
    }

    /** The contents as two contiguous parts, of which the second is empty unless the ring wraps around. */
    method ReadPtrs() returns (p1: seq<byte>, p2: seq<byte>)
      requires Valid()
      ensures p1 + p2 == Contents() && |p1| == Front()
    {
      var len1 := if used <= size - readpos then used else size - readpos;
      p1 := data[readpos..readpos + len1];
      p2 := if len1 < used then data[..used - len1] else [];
    }

    /** memcpy to the write position: the contents do not change yet. */
    method Fill(src: seq<byte>)
      requires Valid() && |src| <= size - used && writepos + |src| <= size
      modifies data
      ensures Contents() == old(Contents()) && data[writepos..writepos + |src|] == src
    {
      for i := 0 to |src|
        invariant data[writepos..writepos + i] == src[..i]
        invariant forall k :: 0 <= k < size && !(writepos <= k < writepos + i) ==> data[k] == old(data[k])
      {
        data[writepos + i] := src[i];
      }
      SameOutside(old(data[..]), data[..], readpos, used, writepos, |src|);
    }

    /** The bytes put at the write position join the contents. */
    method IncrWrite(len: nat)
      requires Valid() && len <= size - used && writepos + len <= size
      modifies this
      ensures Valid() && Contents() == old(Contents()) + old(data[writepos..writepos + len])
      ensures used == old(used) + len && writepos == if old(writepos) + len < size then old(writepos) + len else 0
    {
      WrapAround(writepos + len, size);
      if len > 0 { MoreBytes(data[..], readpos, used, len); }
      used := used + len;
      writepos := (writepos + len) % size;
    }

    /** The oldest bytes leave. */
    method IncrRead(len: nat)
      requires Valid() && len <= used
      modifies this
      ensures Valid() && Contents() == old(Contents())[len..] && used == old(used) - len
    {
      WrapAround(readpos + len, size);
      FewerBytes(data[..], readpos, used, len);
      used := used - len;
      readpos := (readpos + len) % size;
    }

    /** One round of the append loop: all of `src`, or what fits before the end of the array. */
    method AppendPart(src: seq<byte>) returns (n: nat)
      requires Valid() && 0 < |src| <= size - used
      modifies this, data
      ensures Valid() && 0 < n <= |src| && Contents() == old(Contents()) + src[..n] && used == old(used) + n
      ensures n < |src| ==> writepos == 0
      ensures old(writepos) == 0 ==> n == |src|
    {
      n := WriteLen();
      if n > |src| { n := |src|; }
      Fill(src[..n]);
      IncrWrite(n);
    }

    /** The append loop of `common_recv_msg_channel_data`, which runs at most twice. */
    method Append(src: seq<byte>) returns (rounds: nat)
      requires Valid() && |src| <= size - used
      modifies this, data
      ensures Valid() && Contents() == old(Contents()) + src && used == old(used) + |src|
      ensures rounds <= 2
    {
      var done := 0;
      ghost var was := Contents();
      rounds := 0;
      while done < |src|
        invariant Valid() && done <= |src| && |src| - done <= size - used && used == old(used) + done
        invariant Contents() == was + src[..done]
        invariant rounds <= 2 && (rounds == 1 ==> writepos == 0 || done == |src|) && (rounds == 2 ==> done == |src|)
        decreases |src| - done
      {
        var n := AppendPart(src[done..]);
        JoinParts(was, src, done, n);
        done, rounds := done + n, rounds + 1;
      }
      assert src[..done] == src;
    }
  }

  /** The contents are outside the part that is free to write. */
  lemma {:induction false} SameOutside(was: seq<byte>, d: seq<byte>, r: nat, n: nat, w: nat, k: nat)
    requires |was| == |d| && r < |d| && n + k <= |d| && w == Ahead(|d|, r, n) && w + k <= |d|
    requires forall i :: 0 <= i < |d| && !(w <= i < w + k) ==> d[i] == was[i]
    ensures RingBytes(d, r, n) == RingBytes(was, r, n)
  {
    if r + n <= |d| {
      assert forall i :: r <= i < r + n ==> d[i] == was[i];
    } else {
      assert forall i :: r <= i < |d| ==> d[i] == was[i];
      assert forall i :: 0 <= i < r + n - |d| ==> d[i] == was[i];
    }
  }

  lemma {:induction false} JoinParts(c: seq<byte>, src: seq<byte>, done: nat, n: nat)
    requires done + n <= |src|
    ensures (c + src[..done]) + src[done..][..n] == c + src[..done + n]
  {
  }
}
