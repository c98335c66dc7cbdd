/** `lfs_crc` and what it detects. */
module LfsCrc {
  import opened Powers
  import opened Bytes
  import opened Crc
  import Bits

  ghost function XorOp(): Op { (a: nat, b: nat) => Xor(a, b) }

  ghost function StepOp(): nat -> nat { (c: nat) => BitStep(c) }

  lemma {:induction false} Ops()
    ensures IsXor(XorOp()) && IsStep(StepOp())
  {
  }

  lemma {:induction false} SameIter(c: nat, n: nat)
    ensures Iter(StepOp(), c, n) == Iter(BitStep, c, n)
    decreases n
  {
    if n > 0 { SameIter(BitStep(c), n - 1); }
  }

  lemma {:induction false} WordPower(k: nat)
    requires k == 32
    ensures Pow2(k) == 0x1_0000_0000
  {
    SmallPowers();
    var n := 16;
    PowerIs(n, 0x1_0000, n, 0x1_0000);
  }

  lemma {:induction false} WordXor(a: nat, b: nat)
    requires a < 0x1_0000_0000 && b < 0x1_0000_0000
    ensures Xor(a, b) < 0x1_0000_0000
  {
    Ops();
    var x, k := XorOp(), 32;
    WordPower(k);
    XorBelow(x, a, b, k);
    assert x(a, b) == Xor(a, b);
  }

  lemma {:induction false} TableWord(t: nat)
    requires t < 16
    ensures RTABLE[t] < 0x1_0000_0000
  {
  }

  /** (crc >> 4) ^ rtable[index & 0xf]. */
  method Round(crc: uint32, index: nat) returns (r: uint32)
    ensures r == Xor(crc / 16, RTABLE[index % 16])
  {
    TableWord(index % 16);
    WordXor(crc / 16, RTABLE[index % 16]);
    r := Xor(crc / 16, RTABLE[index % 16]);
  }

  ghost predicate IsTicks(g: Ticks) {
    forall c, b {:trigger ByteTicks(c, b)} :: g(c, b) == ByteTicks(c, b)
  }

  lemma {:induction false} TicksOp()
    ensures IsTicks(ByteOp())
  {
  }

  lemma {:induction false} TicksAre(x: Op, f: nat -> nat, g: Ticks, c: nat, b: byte, n: nat)
    requires IsXor(x) && IsStep(f) && IsTicks(g) && n == 8
    ensures g(c, b) == Iter(f, x(c, b), n)
  {
    assert g(c, b) == ByteTicks(c, b) && x(c, b) == Xor(c, b);
    SameStep(f, x(c, b), n);
  }

  lemma {:induction false} SameStep(f: nat -> nat, c: nat, n: nat)
    requires IsStep(f)
    ensures Iter(f, c, n) == Iter(BitStep, c, n)
    decreases n
  {
    if n > 0 {
      assert f(c) == BitStep(c);
      SameStep(f, f(c), n - 1);
    }
  }

  lemma {:induction false} TwoRounds(g: Ticks, c: nat, b: byte, r: nat)
    requires IsTicks(g) && r == Xor(c / 16, RTABLE[Xor(c, b) % 16])
    ensures g(c, b) == Xor(r / 16, RTABLE[Xor(r, b / 16) % 16])
  {
    Ops();
    var x, f, k := XorOp(), StepOp(), 4;
    ByteRound(x, f, c, b, k, r);
    TicksAre(x, f, g, c, b, k + k);
  }

  /** One byte: two lines of the loop. */
  method OneByte(crc: uint32, b: byte, ghost g: Ticks) returns (r: uint32)
    requires IsTicks(g)
    ensures r == g(crc, b)
  {
    var lo := Round(crc, Xor(crc, b));
    r := Round(lo, Xor(lo, b / 16));
    TwoRounds(g, crc, b, lo);
  }

  method CrcLoop(crc: uint32, data: seq<byte>, ghost g: Ticks) returns (r: uint32)
    requires IsTicks(g)
    ensures r == Fold(g, crc, data)
  {
    r := crc;
    for i := 0 to |data|
      invariant Fold(g, r, data[i..]) == Fold(g, crc, data)
    {
      r := OneByte(r, data[i], g);
      assert data[i..][1..] == data[i + 1..];
    }
  }

  /** The table-driven loop computes the bit-at-a-time CRC. */
  method LfsCrc(crc: uint32, data: seq<byte>) returns (r: uint32)
    ensures r == Crc.Crc(crc, data)
  {
    TicksOp();
    r := CrcLoop(crc, data, ByteOp());
  }

  /* ---- concatenation ---- */

  lemma {:induction false} FoldConcat(g: Ticks, c: nat, a: seq<byte>, b: seq<byte>)
    ensures Fold(g, c, a + b) == Fold(g, Fold(g, c, a), b)
    decreases |a|
  {
    if |a| == 0 {
      assert a + b == b;
    } else {
      FoldConcat(g, g(c, a[0]), a[1..], b);
      assert (a + b)[0] == a[0] && (a + b)[1..] == a[1..] + b;
    }
  }

  lemma {:induction false} CrcConcat(c: nat, a: seq<byte>, b: seq<byte>)
    ensures Crc.Crc(c, a + b) == Crc.Crc(Crc.Crc(c, a), b)
  {
    FoldConcat(ByteOp(), c, a, b);
  }

  /* ---- the whole message at once ---- */

  lemma {:induction false} ShiftByte(x: Op, f: nat -> nat, h: nat, n: nat)
    requires IsXor(x) && IsStep(f) && n == 4
    ensures Iter<nat>(f, 256 * h, n + n) == h
  {
    ShiftNibble(x, f, 16 * h, n);
    ShiftNibble(x, f, h, n);
    IterAdd<nat>(f, 256 * h, n, n);
  }

  lemma {:induction false} XorByte(x: Op, h: nat, b: nat)
    requires IsXor(x) && b < 256
    ensures x(b, 256 * h) == b + 256 * h
  {
    var t, u := b % 16, b / 16;
    XorHex0(x, 16 * h, t, u);
    XorNibble(x, h, u);
    XorComm(x, 256 * h, b);
  }

  lemma {:induction false} XorHex0(x: Op, h: nat, t: nat, u: nat)
    requires IsXor(x) && t < 16 && u < 16
    ensures x(16 * h, 16 * u + t) == 16 * x(h, u) + t
  {
    XorZero(x, t);
    XorHex(x, h, u, 0, t);
  }

  /** After the first byte, the rest of the message has moved down by a byte. */
  lemma {:induction false} FirstByte(x: Op, f: nat -> nat, c: nat, b: byte, rest: nat, n: nat)
    requires IsXor(x) && IsStep(f) && n == 4
    ensures Iter(f, x(c, b + 256 * rest), n + n) == x(Iter(f, x(c, b), n + n), rest)
  {
    XorByte(x, rest, b);
    XorAssoc(x, c, b, 256 * rest);
    StepsLinear(x, f, x(c, b), 256 * rest, n + n);
    ShiftByte(x, f, rest, n);
  }

  lemma {:induction false} MessageFormNamed(x: Op, f: nat -> nat, g: Ticks, c: nat, data: seq<byte>, n: nat)
    requires IsXor(x) && IsStep(f) && IsTicks(g) && n == 4
    ensures Fold(g, c, data) == Iter(f, x(c, FromLE(data)), (n + n) * |data|)
    decreases |data|
  {
    if |data| == 0 {
      XorZero(x, c);
    } else {
      var b, tail := data[0], data[1..];
      var k := (n + n) * |tail|;
      TicksAre(x, f, g, c, b, n + n);
      MessageFormNamed(x, f, g, g(c, b), tail, n);
      FirstByte(x, f, c, b, FromLE(tail), n);
      IterAdd(f, x(c, FromLE(data)), n + n, k);
      assert (n + n) * |data| == (n + n) + k;
    }
  }

  /** The CRC of a message is its number, least significant byte first, exclusive-or the initial value, after as many
      ticks as it has bits. */
  lemma {:induction false} MessageForm(c: nat, data: seq<byte>)
    ensures Crc.Crc(c, data) == Iter(BitStep, Xor(c, FromLE(data)), 8 * |data|)
  {
    Ops();
    TicksOp();
    var x, f, n := XorOp(), StepOp(), 4;
    MessageFormNamed(x, f, ByteOp(), c, data, n);
    SameStep(f, x(c, FromLE(data)), 8 * |data|);
  }

  /* ---- a tick loses nothing ---- */

  /** The top bit after a tick is the bit that was shifted out. */
  lemma {:induction false} TopBit(x: Op, u: nat, v: nat, k: nat)
    requires IsXor(x) && Pow2(k) >= 1 && u < Pow2(k) && v < 2 * Pow2(k)
    ensures x(u, v) >= Pow2(k) <==> v >= Pow2(k)
    decreases k
  {
    XorDigits(x, u, v);
    if k == 0 {
      XorZero(x, v);
    } else {
      Pow2Positive(k - 1);
      TopBit(x, u / 2, v / 2, k - 1);
    }
  }

  lemma {:induction false} StepInjective(x: Op, f: nat -> nat, a: nat, b: nat)
    requires IsXor(x) && IsStep(f) && a < 0x1_0000_0000 && b < 0x1_0000_0000 && f(a) == f(b)
    ensures a == b
  {
    var k := 31;
    assert Pow2(k) == 0x8000_0000 by {
      var w := 32;
      WordPower(w);
    }
    StepIs(x, f, a);
    StepIs(x, f, b);
    TopBit(x, a / 2, Feedback(a % 2), k);
    TopBit(x, b / 2, Feedback(b % 2), k);
    XorCancel(x, a / 2, b / 2, Feedback(a % 2));
    Bits.SameDigits(a, b);
  }

  lemma {:induction false} StepWord(f: nat -> nat, a: nat)
    requires IsStep(f) && a < 0x1_0000_0000
    ensures f(a) < 0x1_0000_0000
  {
    assert f(a) == BitStep(a);
    WordXor(a / 2, Feedback(a % 2));
  }

  lemma {:induction false} TicksInjective(x: Op, f: nat -> nat, a: nat, b: nat, n: nat)
    requires IsXor(x) && IsStep(f) && a < 0x1_0000_0000 && b < 0x1_0000_0000 && Iter(f, a, n) == Iter(f, b, n)
    ensures a == b
    decreases n
  {
    if n > 0 {
      StepWord(f, a);
      StepWord(f, b);
      TicksInjective(x, f, f(a), f(b), n - 1);
      StepInjective(x, f, a, b);
    }
  }

  lemma {:induction false} MessageWord(data: seq<byte>, k: nat)
    requires |data| <= 4 && k == 32
    ensures FromLE(data) < 0x1_0000_0000
  {
    FromLEBound(data);
    var rest := k - 8 * |data|;
    Pow2Add(8 * |data|, rest);
    Pow2Positive(rest);
    Pow2Positive(8 * |data|);
    AtLeastOne(Pow2(8 * |data|), Pow2(rest));
    WordPower(k);
  }

  lemma {:induction false} AtLeastOne(a: nat, b: nat)
    requires b >= 1
    ensures a <= a * b
  {
  }

  /** Short messages from any two initial values: only the same exclusive-or gives the same result. */
  lemma {:induction false} ShortMessages(c: nat, d: nat, a: seq<byte>, b: seq<byte>)
    requires c < 0x1_0000_0000 && d < 0x1_0000_0000 && |a| == |b| <= 4 && Crc.Crc(c, a) == Crc.Crc(d, b)
    ensures Xor(c, FromLE(a)) == Xor(d, FromLE(b))
  {
    Ops();
    var x, f, n := XorOp(), StepOp(), 8 * |a|;
    MessageForm(c, a);
    MessageForm(d, b);
    MessageWord(a, 32);
    MessageWord(b, 32);
    WordXor(c, FromLE(a));
    WordXor(d, FromLE(b));
    SameIter(Xor(c, FromLE(a)), n);
    SameIter(Xor(d, FromLE(b)), n);
    TicksInjective(x, f, Xor(c, FromLE(a)), Xor(d, FromLE(b)), n);
  }

  lemma {:induction false} XorRight(a: nat, b: nat, d: nat)
    requires Xor(d, a) == Xor(d, b)
    ensures a == b
  {
    Ops();
    var x := XorOp();
    XorComm(x, d, a);
    XorComm(x, d, b);
    assert x(d, a) == Xor(d, a) && x(d, b) == Xor(d, b);
    XorCancel(x, a, b, d);
  }

  lemma {:induction false} XorLeft(a: nat, b: nat, d: nat)
    requires Xor(a, d) == Xor(b, d)
    ensures a == b
  {
    Ops();
    var x := XorOp();
    assert x(a, d) == Xor(a, d) && x(b, d) == Xor(b, d);
    XorCancel(x, a, b, d);
  }

  /** The register stays a word. */
  lemma {:induction false} FoldWord(g: Ticks, c: nat, data: seq<byte>)
    requires c < 0x1_0000_0000 && IsTicks(g)
    ensures Fold(g, c, data) < 0x1_0000_0000
    decreases |data|
  {
    if |data| > 0 {
      ByteWord(g, c, data[0]);
      FoldWord(g, g(c, data[0]), data[1..]);
    }
  }

  lemma {:induction false} ByteWord(g: Ticks, c: nat, b: byte)
    requires c < 0x1_0000_0000 && IsTicks(g)
    ensures g(c, b) < 0x1_0000_0000
  {
    Ops();
    var x, f, n := XorOp(), StepOp(), 8;
    TicksAre(x, f, g, c, b, n);
    WordXor(c, b);
    TicksWord(f, x(c, b), n);
  }

  lemma {:induction false} CrcWord(c: nat, data: seq<byte>)
    requires c < 0x1_0000_0000
    ensures Crc.Crc(c, data) < 0x1_0000_0000
  {
    TicksOp();
    FoldWord(ByteOp(), c, data);
  }

  lemma {:induction false} TicksWord(f: nat -> nat, c: nat, n: nat)
    requires IsStep(f) && c < 0x1_0000_0000
    ensures Iter(f, c, n) < 0x1_0000_0000
    decreases n
  {
    if n > 0 {
      StepWord(f, c);
      TicksWord(f, f(c), n - 1);
    }
  }

  /** For fixed data the result determines the initial value. */
  lemma {:induction false} CrcInjective(c: nat, d: nat, data: seq<byte>)
    requires c < 0x1_0000_0000 && d < 0x1_0000_0000 && Crc.Crc(c, data) == Crc.Crc(d, data)
    ensures c == d
    decreases |data|
  {
    if |data| > 0 {
      var first := data[..1];
      assert first + data[1..] == data;
      CrcConcat(c, first, data[1..]);
      CrcConcat(d, first, data[1..]);
      CrcWord(c, first);
      CrcWord(d, first);
      CrcInjective(Crc.Crc(c, first), Crc.Crc(d, first), data[1..]);
      ShortMessages(c, d, first, first);
      XorLeft(c, d, FromLE(first));
    }
  }

  /** Two buffers that differ, but only within four consecutive bytes, never have the same CRC; a single byte is the
      special case of one. */
  lemma {:induction false} BurstDetected(c: uint32, before: seq<byte>, a: seq<byte>, b: seq<byte>, after: seq<byte>)
    requires |a| == |b| <= 4 && a != b
    ensures Crc.Crc(c, before + a + after) != Crc.Crc(c, before + b + after)
  {
    var s := Crc.Crc(c, before);
    CrcConcat(c, before + a, after);
    CrcConcat(c, before + b, after);
    CrcConcat(c, before, a);
    CrcConcat(c, before, b);
    CrcWord(c, before);
    if Crc.Crc(Crc.Crc(s, a), after) == Crc.Crc(Crc.Crc(s, b), after) {
      CrcWord(s, a);
      CrcWord(s, b);
      CrcInjective(Crc.Crc(s, a), Crc.Crc(s, b), after);
      ShortMessages(s, s, a, b);
      XorRight(FromLE(a), FromLE(b), s);
      FromLEInjective(a, b);
    }
  }
}
