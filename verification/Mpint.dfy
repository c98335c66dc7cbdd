/** Multiple precision integers of buffer.c: `buf_putmpint` and `buf_getmpint`, section 5 of RFC 4251. */
module Mpint {
  import opened Bytes

  const BUF_MAX_MPINT: nat := 1030

  /** `mp_count_bits`. */
  function CountBits(n: nat): nat {
    if n == 0 then 0 else 1 + CountBits(n / 2)
  }

  lemma {:induction false} BitsHalf(n: nat, h: nat)
    requires n >= 1 && h == n / 2
    ensures CountBits(n) == 1 + CountBits(h)
  {
  }

  /** A byte more is eight bits more. */
  lemma {:induction false} BitsOfByte(n: nat)
    requires n >= 256
    ensures CountBits(n) == 8 + CountBits(n / 256)
  {
    var n1 := n / 2;
    var n2 := n1 / 2;
    var n3 := n2 / 2;
    var n4 := n3 / 2;
    var n5 := n4 / 2;
    var n6 := n5 / 2;
    var n7 := n6 / 2;
    BitsHalf(n, n1);
    BitsHalf(n1, n2);
    BitsHalf(n2, n3);
    BitsHalf(n3, n4);
    BitsHalf(n4, n5);
    BitsHalf(n5, n6);
    BitsHalf(n6, n7);
    BitsHalf(n7, n7 / 2);
    assert n7 / 2 == n / 256;
  }

  lemma {:induction false} BitsBelow(n: nat, k: nat, p: nat)
    requires (p == 1 && k == 0) || (p == 2 && k == 1) || (p == 4 && k == 2) || (p == 8 && k == 3) ||
             (p == 16 && k == 4) || (p == 32 && k == 5) || (p == 64 && k == 6) || (p == 128 && k == 7)
    requires p <= n < 2 * p
    ensures CountBits(n) == k + 1
    decreases k
  {
    if k > 0 { BitsBelow(n / 2, k - 1, p / 2); } else { assert CountBits(1) == 1; }
  }

  lemma {:induction false} SmallBits(n: nat)
    requires 1 <= n < 256
    ensures 1 <= CountBits(n) <= 8 && (CountBits(n) == 8 <==> n >= 128)
  {
    if n >= 128 { BitsBelow(n, 7, 128); }
    else if n >= 64 { BitsBelow(n, 6, 64); }
    else if n >= 32 { BitsBelow(n, 5, 32); }
    else if n >= 16 { BitsBelow(n, 4, 16); }
    else if n >= 8 { BitsBelow(n, 3, 8); }
    else if n >= 4 { BitsBelow(n, 2, 4); }
    else if n >= 2 { BitsBelow(n, 1, 2); }
    else { BitsBelow(n, 0, 1); }
  }

  /** Bytes and bits of a number. */
  lemma {:induction false} BytesAndBits(n: nat)
    requires n > 0
    ensures |ToBE(n)| > 0 && ToBE(n)[0] > 0
    ensures |ToBE(n)| == (CountBits(n) + 7) / 8 && (ToBE(n)[0] >= 128 <==> CountBits(n) % 8 == 0)
    decreases n
  {
    if n < 256 {
      SmallBits(n);
      OneByte(n);
    } else {
      var m := n / 256;
      BytesAndBits(m);
      BitsOfByte(n);
      MoreBytes(n, m);
      EightMore(CountBits(m));
    }
  }

  lemma {:induction false} OneByte(n: nat)
    requires 1 <= n < 256
    ensures ToBE(n) == [n]
  {
    assert n / 256 == 0 && n % 256 == n;
    assert ToBE(0) == [];
  }

  lemma {:induction false} MoreBytes(n: nat, m: nat)
    requires n >= 256 && m == n / 256 && |ToBE(m)| > 0
    ensures |ToBE(n)| == |ToBE(m)| + 1 && ToBE(n)[0] == ToBE(m)[0]
  {
  }

  lemma {:induction false} EightMore(k: nat)
    ensures (k + 8 + 7) / 8 == (k + 7) / 8 + 1 && (k + 8) % 8 == k % 8
  {
  }

  /** The bytes of an mpint without its length. */
  function Body(n: nat): seq<byte> {
    if n == 0 then [] else if CountBits(n) % 8 == 0 then [0] + ToBE(n) else ToBE(n)
  }

  /** The length and the padding, computed from the number of bits. */
  method LengthOf(n: nat) returns (len: nat, pad: nat)
    ensures len == |Body(n)| && Body(n) == (if pad == 1 then [0] else []) + ToBE(n)
  {
    len, pad := 0, 0;
    if n != 0 {
      BytesAndBits(n);
      len := CountBits(n);
      pad := if len % 8 == 0 then 1 else 0;
      len := len / 8 + 1;
    }
    assert [] + ToBE(n) == ToBE(n);
  }

  /** `buf_putmpint`: the length is computed from the number of bits before anything is written. */
  method PutMpint(n: nat) returns (b: seq<byte>)
    requires CountBits(n) < 0x8000_0000
    ensures |Body(n)| < 0x1_0000_0000 && b == Store32(|Body(n)|) + Body(n)
  {
    BodyIsMinimal(n);
    var len, pad := LengthOf(n);
    var bytes := [];
    if len > 0 {
      if pad == 1 { bytes := [0]; }
      bytes := bytes + ToBE(n);
    }
    assert bytes == Body(n);
    b := Store32(len) + bytes;
  }

  /** An mpint is not negative, has no needless leading byte, and stands for its number. */
  lemma {:induction false} BodyIsMinimal(n: nat)
    ensures FromBE(Body(n)) == n
    ensures |Body(n)| > 0 ==> Body(n)[0] < 128
    ensures |Body(n)| > 0 && Body(n)[0] == 0 ==> |Body(n)| > 1 && Body(n)[1] >= 128
    ensures n > 0 ==> |Body(n)| == CountBits(n) / 8 + 1
  {
    if n > 0 {
      BytesAndBits(n);
      FromToBE(n);
      FromBEPadded(1, ToBE(n));
      assert Zeros(1) == [0];
    }
  }

  /** The outcome of reading: a number and where it ends, a failure, or the end of the session. */
  datatype Got = Got(n: nat, pos: nat) | Fail | Halt

  /** `buf_getmpint` at position `pos`. */
  function GetMpint(b: seq<byte>, pos: nat): Got {
    if pos + 4 > |b| then Halt
    else
      var len := Load32(b[pos..]);
      if len == 0 then Got(0, pos + 4)
      else if len > BUF_MAX_MPINT then Fail
      else if pos + 5 > |b| then Halt
      else if b[pos + 4] >= 128 then Fail
      else if pos + 4 + len > |b| then Halt
      else Got(FromBE(b[pos + 4..pos + 4 + len]), pos + 4 + len)
  }

  /** What was put is got back, wherever it stands, exactly if it is not too long for the reader. */
  lemma {:induction false} GetPut(n: nat, before: seq<byte>, after: seq<byte>)
    requires |Body(n)| < 0x1_0000_0000
    ensures GetMpint(before + (Store32(|Body(n)|) + Body(n)) + after, |before|) ==
            if |Body(n)| <= BUF_MAX_MPINT then Got(n, |before| + 4 + |Body(n)|) else Fail
  {
    var body, pos := Body(n), |before|;
    var s := Store32(|body|);
    var b := before + (s + body) + after;
    LoadStore32(|body|, body + after);
    assert b[pos..] == s + (body + after);
    BodyIsMinimal(n);
    assert b[pos + 4..pos + 4 + |body|] == body;
    if |body| > 0 { assert b[pos + 4] == body[0]; }
  }
}
