/** Scalar multiplication of curve25519-donna.c: `swap_conditional` and `cmult`. */
module CMult {
  import opened ModArith
  import opened Powers
  import opened Bits
  import opened Bytes
  import opened Limbs
  import opened Field
  import opened Rfc7748
  import opened Ladder

  /* ---- constant-time swap ---- */

  ghost predicate Small(s: seq<limb>) {
    forall i :: 0 <= i < |s| ==> -0x8000_0000 <= s[i] < 0x8000_0000
  }

  lemma {:induction false} XorFits32(a: int, b: int)
    requires -0x8000_0000 <= a < 0x8000_0000 && -0x8000_0000 <= b < 0x8000_0000
    ensures -0x8000_0000 <= Xor(a, b) < 0x8000_0000
  {
    var k := 31;
    assert Pow2(k) == 0x8000_0000 by {
      SmallPowers();
      Pow2Add(24, 7);
      assert Pow2(7) == 128;
    }
    XorFits(a, b, k);
  }

  /** a ^ b on s32 values. */
  function XorS32(a: limb, b: limb): (r: limb)
    requires -0x8000_0000 <= a < 0x8000_0000 && -0x8000_0000 <= b < 0x8000_0000
    ensures -0x8000_0000 <= r < 0x8000_0000
  {
    XorFits32(a as int, b as int);
    Xor(a as int, b as int) as limb
  }

  /** mask & v for a mask of all ones (-1) or all zeros. */
  function AndMask(mask: limb, v: limb): limb
    requires mask == 0 || mask == -1
  {
    if mask == -1 then v else 0
  }

  lemma {:induction false} SwapByXor(a: limb, b: limb)
    requires -0x8000_0000 <= a < 0x8000_0000 && -0x8000_0000 <= b < 0x8000_0000
    ensures XorS32(a, XorS32(a, b)) == b && XorS32(b, XorS32(a, b)) == a
    ensures XorS32(a, 0) == a && XorS32(b, 0) == b
  {
    XorTwice(a as int, b as int);
    XorTwice(b as int, a as int);
    XorComm(a as int, b as int);
    XorZero(a as int);
    XorZero(b as int);
  }

  method SwapConditional(a: array<limb>, b: array<limb>, iswap: limb)
    requires a.Length >= 10 && b.Length >= 10 && a != b && (iswap == 0 || iswap == 1)
    requires Small(a[..10]) && Small(b[..10])
    modifies a, b
    ensures a[..10] == if iswap == 1 then old(b[..10]) else old(a[..10])
    ensures b[..10] == if iswap == 1 then old(a[..10]) else old(b[..10])
  {
    ghost var a0, b0 := a[..10], b[..10];
    var swap := S32(-iswap);
    for i := 0 to 10
      invariant forall k :: 0 <= k < i ==> a[k] == if iswap == 1 then b0[k] else a0[k]
      invariant forall k :: 0 <= k < i ==> b[k] == if iswap == 1 then a0[k] else b0[k]
      invariant forall k :: i <= k < 10 ==> a[k] == a0[k] && b[k] == b0[k]
    {
      assert a[i] == a0[i] && b[i] == b0[i];
      SwapByXor(a[i], b[i]);
      var x := AndMask(swap, XorS32(S32(a[i]), S32(b[i])));
      a[i] := XorS32(S32(a[i]), x);
      b[i] := XorS32(S32(b[i]), x);
    }
  }

  /* ---- bits of the scalar ---- */

  lemma {:induction false} DivDiv(x: nat, a: nat, b: nat)
    requires a > 0 && b > 0
    ensures a * b > 0 && x / a / b == x / (a * b)
  {
    var q, r := x / a, x % a;
    var s, t := q / b, q % b;
    assert x == q * a + r && q == s * b + t;
    DivDivParts(a, b, q, r, s, t);
    DivModUnique(x, a * b, s, t * a + r);
  }

  lemma {:induction false} DivDivParts(a: nat, b: nat, q: nat, r: nat, s: nat, t: nat)
    requires r < a && t < b && q == s * b + t
    ensures q * a + r == s * (a * b) + (t * a + r) && 0 <= t * a + r < a * b
  {
    assert (s * b + t) * a == s * (a * b) + t * a;
    assert (t + 1) * a <= b * a;
  }

  /** Byte q of the scalar. */
  lemma {:induction false} ByteOf(n: seq<byte>, q: nat)
    requires q < |n|
    ensures Pow2(8 * q) >= 1 && FromLE(n) / Pow2(8 * q) % 256 == n[q]
    decreases q
  {
    Pow2Positive(8 * q);
    var rest := FromLE(n[1..]);
    DivModUnique(FromLE(n), 256, rest, n[0]);
    if q > 0 {
      ByteOf(n[1..], q - 1);
      var e := 8 * (q - 1);
      SmallPowers();
      Pow2Add(8, e);
      DivDiv(FromLE(n), 256, Pow2(e));
    }
  }

  lemma {:induction false} SplitSeven(j: nat)
    requires j < 8
    ensures Pow2(j) >= 1 && Pow2(7 - j) >= 1 && Pow2(j) * Pow2(7 - j) == 128
  {
    SmallPowers();
    Pow2Positive(j);
    Pow2Positive(7 - j);
    Pow2Add(j, 7 - j);
  }

  lemma {:induction false} LowBits(y: nat, p: nat, p': nat)
    requires p > 0 && p' > 0 && p * p' == 128
    ensures (y / p) % 2 == (y % 256 / p) % 2
  {
    var h, l := y / 256, y % 256;
    var q, m := l / p, l % p;
    var k := p' * h;
    assert y == 256 * h + l && l == q * p + m;
    assert 128 * h == k * p by { Regroup(p, p', h); }
    DivModUnique(y, p, q + 2 * k, m);
    ModShift(q + 2 * k, q, k, 2);
  }

  lemma {:induction false} Regroup(p: int, p': int, h: int)
    ensures (p * p') * h == (p' * h) * p
  {
  }

  /** Bits of a number depend only on the byte they are in. */
  lemma {:induction false} BitOfByte(y: nat, r: nat)
    requires r < 8
    ensures Bit(y, r) == Bit(y % 256, r)
  {
    SplitSeven(r);
    LowBits(y, Pow2(r), Pow2(7 - r));
  }

  lemma {:induction false} BitOfQuotient(k: nat, e: nat, r: nat, y: nat)
    requires Pow2(e) >= 1 && y == k / Pow2(e)
    ensures Bit(k, e + r) == Bit(y, r)
  {
    Pow2Positive(r);
    Pow2Add(e, r);
    DivDiv(k, Pow2(e), Pow2(r));
  }

  function Quotient(k: nat, p: nat): (y: nat)
    requires p >= 1
  {
    k / p
  }

  lemma {:induction false} ScalarBit(n: seq<byte>, q: nat, r: nat)
    requires q < |n| && r < 8
    ensures Bit(FromLE(n), 8 * q + r) == Bit(n[q], r)
  {
    var k := FromLE(n);
    ByteOf(n, q);
    var y := Quotient(k, Pow2(8 * q));
    BitOfQuotient(k, 8 * q, r, y);
    BitOfByte(y, r);
  }

  lemma {:induction false} TopBitParts(b: nat, p: nat, p': nat, q: nat, m: nat)
    requires p > 0 && p' > 0 && p * p' == 128 && b == q * p' + m && m < p'
    ensures (b * p) % 256 / 128 == q % 2
  {
    assert b * p == 128 * q + m * p by { assert (q * p' + m) * p == q * (p * p') + m * p; }
    assert 0 <= m * p < 128 by { assert (m + 1) * p <= p' * p; }
    var h, l := q / 2, q % 2;
    assert b * p == 256 * h + (128 * l + m * p);
    DivModUnique(b * p, 256, h, 128 * l + m * p);
  }

  /** After j left shifts, the top bit of the byte is bit 7-j. */
  lemma {:induction false} TopBit(b: nat, j: nat)
    requires j < 8
    ensures (b * Pow2(j)) % 256 / 128 == Bit(b, 7 - j)
  {
    SplitSeven(j);
    var p' := Pow2(7 - j);
    TopBitParts(b, Pow2(j), p', b / p', b % p');
  }

  /** The next left shift. */
  lemma {:induction false} ShiftLeft(b: nat, j: nat)
    ensures ((b * Pow2(j)) % 256 * 2) % 256 == (b * Pow2(j + 1)) % 256
  {
    var x := b * Pow2(j);
    ModMul(x, 2, 256);
    assert b * (2 * Pow2(j)) == x * 2;
  }

  /* ---- the ladder ---- */

  ghost predicate Ready(x: array<limb>, z: array<limb>, x': array<limb>, z': array<limb>)
    requires x.Length == z.Length == x'.Length == z'.Length == 19
    reads x, z, x', z'
  {
    Fits(x[..10], z[..10]) && Fits(x'[..10], z'[..10])
  }

  lemma {:induction false} FitsSmall(x: seq<limb>, z: seq<limb>)
    requires Fits(x, z)
    ensures Small(x) && Small(z)
  {
    forall i | 0 <= i < 10 ensures -0x8000_0000 <= x[i] < 0x8000_0000 && -0x8000_0000 <= z[i] < 0x8000_0000 {
      assert Abs(x[i]) + Abs(z[i]) <= LooseBound(i);
    }
  }

  /** Names for the field element and the ladder step that do not expand in proofs. */
  ghost predicate Names(rep: seq<limb> -> int, f: StepFn) {
    && (forall s {:trigger Fe(s)} :: rep(s) == Fe(s))
    && (forall u, s {:trigger Step(u, s)} :: f(u, s) == Step(u, s))
  }

  /** The abstract state held in four arrays. */
  ghost function Points(rep: seq<limb> -> int, x: array<limb>, z: array<limb>, x': array<limb>, z': array<limb>): State
    requires x.Length == z.Length == x'.Length == z'.Length == 19
    reads x, z, x', z'
  {
    State(rep(x[..10]), rep(z[..10]), rep(x'[..10]), rep(z'[..10]))
  }

  /** Both coordinates of two points. */
  method SwapPoints(x: array<limb>, z: array<limb>, x': array<limb>, z': array<limb>, bit: limb,
                    ghost rep: seq<limb> -> int)
    requires x.Length == z.Length == x'.Length == z'.Length == 19
    requires x != z && x' != z' && {x, z} !! {x', z'}
    requires Ready(x, z, x', z') && (bit == 0 || bit == 1)
    modifies x, z, x', z'
    ensures Ready(x, z, x', z') && Points(rep, x, z, x', z') == CSwap(bit as int, old(Points(rep, x, z, x', z')))
  {
    FitsSmall(x[..10], z[..10]);
    FitsSmall(x'[..10], z'[..10]);
    SwapConditional(x, x', bit);
    SwapConditional(z, z', bit);
  }

  method StepPoints(x2: array<limb>, z2: array<limb>, x2': array<limb>, z2': array<limb>,
                    x: array<limb>, z: array<limb>, x': array<limb>, z': array<limb>, q: array<limb>,
                    ghost rep: seq<limb> -> int, ghost f: StepFn)
    requires x.Length == z.Length == x'.Length == z'.Length == 19 && q.Length == 10
    requires x2.Length == z2.Length == x2'.Length == z2'.Length == 19
    requires x2 != z2 && x2' != z2' && {x2, z2} !! {x2', z2'} && {x2, z2, x2', z2'} !! {x, z, x', z', q}
    requires x != z && x' != z' && {x, z} !! {x', z'} && q !in {x, z, x', z'}
    requires Ready(x, z, x', z') && Loose(q[..10]) && Names(rep, f)
    modifies x, z, x', z', x2, z2, x2', z2'
    ensures Ready(x2, z2, x2', z2')
    ensures Points(rep, x2, z2, x2', z2') == f(rep(q[..10]), old(Points(rep, x, z, x', z')))
  {
    FMonty(x2, z2, x2', z2', x, z, x', z', q);
    NearlyFits(x2[..10], z2[..10]);
    NearlyFits(x2'[..10], z2'[..10]);
  }

  /** Swap, step, swap back. */
  method SwapStepSwap(x: array<limb>, z: array<limb>, x': array<limb>, z': array<limb>,
                      x2: array<limb>, z2: array<limb>, x2': array<limb>, z2': array<limb>, q: array<limb>, bit: limb,
                      ghost rep: seq<limb> -> int, ghost f: StepFn)
    requires x.Length == z.Length == x'.Length == z'.Length == 19 && q.Length == 10
    requires x2.Length == z2.Length == x2'.Length == z2'.Length == 19
    requires x2 != z2 && x2' != z2' && {x2, z2} !! {x2', z2'} && {x2, z2, x2', z2'} !! {x, z, x', z', q}
    requires x != z && x' != z' && {x, z} !! {x', z'} && q !in {x, z, x', z'}
    requires Ready(x, z, x', z') && Loose(q[..10]) && (bit == 0 || bit == 1) && Names(rep, f)
    modifies x, z, x', z', x2, z2, x2', z2'
    ensures Ready(x2, z2, x2', z2')
    ensures Points(rep, x2, z2, x2', z2') ==
            CSwap(bit as int, f(rep(q[..10]), CSwap(bit as int, old(Points(rep, x, z, x', z')))))
  {
    SwapPoints(x, z, x', z', bit, rep);
    StepPoints(x2, z2, x2', z2', x, z, x', z', q, rep, f);
    SwapPoints(x2, z2, x2', z2', bit, rep);
  }

  /* ---- initial values ---- */

  lemma {:induction false} ConstantValue(s: seq<limb>, c: limb, n: nat)
    requires 1 <= n <= |s| && s[0] == c && forall i :: 1 <= i < n ==> s[i] == 0
    ensures V(s, n) == c as int
    decreases n
  {
    var k := n - 1;
    if n > 1 {
      ConstantValue(s, c, k);
      TimesZero(W(k), s[k] as int);
    } else {
      FirstWeight(k);
      assert V(s, k) == 0;
    }
  }

  lemma {:induction false} TimesZero(w: int, z: int)
    requires z == 0
    ensures w * z == 0
  {
  }

  lemma {:induction false} ConstantFe(s: seq<limb>, c: limb)
    requires |s| == 10 && s[0] == c && (c == 0 || c == 1) && forall i :: 1 <= i < 10 ==> s[i] == 0
    ensures Fe(s) == c as int
  {
    ConstantValue(s, c, |s|);
    ModSmall(c as int, P);
  }

  function Unit(c: limb): int -> limb { i => if i == 0 then c else 0 }

  /** A point given by its short form: loose with room for the constant 1. */
  ghost predicate Point(q: seq<limb>) {
    |q| == 10 && forall i :: 0 <= i < 10 ==> Abs(q[i]) < LooseBound(i)
  }

  lemma {:induction false} PointFits(q: seq<limb>, one: seq<limb>)
    requires Point(q) && |one| == 10 && forall i :: 0 <= i < 10 ==> Abs(one[i]) <= 1
    ensures Fits(q, one) && Loose(q)
  {
  }

  /* ---- cmult ---- */

  /** The eight pointers of `cmult`: the current two points and room for the next two. */
  datatype Regs = Regs(nqx: array<limb>, nqz: array<limb>, nqpqx: array<limb>, nqpqz: array<limb>,
                       nqx2: array<limb>, nqz2: array<limb>, nqpqx2: array<limb>, nqpqz2: array<limb>)
  {
    predicate Separate(q: array<limb>) {
      && nqx.Length == nqz.Length == nqpqx.Length == nqpqz.Length == 19
      && nqx2.Length == nqz2.Length == nqpqx2.Length == nqpqz2.Length == 19
      && nqx != nqz && nqx != nqpqx && nqx != nqpqz && nqx != nqx2 && nqx != nqz2 && nqx != nqpqx2 && nqx != nqpqz2 && nqx != q
      && nqz != nqpqx && nqz != nqpqz && nqz != nqx2 && nqz != nqz2 && nqz != nqpqx2 && nqz != nqpqz2 && nqz != q
      && nqpqx != nqpqz && nqpqx != nqx2 && nqpqx != nqz2 && nqpqx != nqpqx2 && nqpqx != nqpqz2 && nqpqx != q
      && nqpqz != nqx2 && nqpqz != nqz2 && nqpqz != nqpqx2 && nqpqz != nqpqz2 && nqpqz != q
      && nqx2 != nqz2 && nqx2 != nqpqx2 && nqx2 != nqpqz2 && nqx2 != q
      && nqz2 != nqpqx2 && nqz2 != nqpqz2 && nqz2 != q
      && nqpqx2 != nqpqz2 && nqpqx2 != q
      && nqpqz2 != q
    }

    /** Exchange current and next. */
    function Rotate(): Regs { Regs(nqx2, nqz2, nqpqx2, nqpqz2, nqx, nqz, nqpqx, nqpqz) }
  }

  ghost function Current(rep: seq<limb> -> int, r: Regs): State
    requires r.nqx.Length == r.nqz.Length == r.nqpqx.Length == r.nqpqz.Length == 19
    reads r.nqx, r.nqz, r.nqpqx, r.nqpqz
  {
    Points(rep, r.nqx, r.nqz, r.nqpqx, r.nqpqz)
  }

  /** One bit of the scalar, when bits t-1, ..., 0 remain. */
  method LadderBit(r: Regs, q: array<limb>, bit: limb, ghost rep: seq<limb> -> int, ghost f: StepFn,
                   ghost bits: nat -> int, ghost u: int, ghost t: nat)
    requires q.Length == 10 && r.Separate(q) && Ready(r.nqx, r.nqz, r.nqpqx, r.nqpqz)
    requires Loose(q[..10]) && (bit == 0 || bit == 1) && Names(rep, f)
    requires u == rep(q[..10]) && t > 0 && bits(t - 1) == bit as int
    modifies r.nqx, r.nqz, r.nqpqx, r.nqpqz, r.nqx2, r.nqz2, r.nqpqx2, r.nqpqz2
    ensures Ready(r.nqx2, r.nqz2, r.nqpqx2, r.nqpqz2)
    ensures Eager(f, bits, u, t - 1, Current(rep, r.Rotate())) == old(Eager(f, bits, u, t, Current(rep, r)))
  {
    EagerStep(f, bits, u, t, Current(rep, r), bit as int);
    SwapStepSwap(r.nqx, r.nqz, r.nqpqx, r.nqpqz, r.nqx2, r.nqz2, r.nqpqx2, r.nqpqz2, q, bit, rep, f);
  }

  lemma {:induction false} EagerStep(f: StepFn, bits: nat -> int, u: int, t: nat, s: State, bit: int)
    requires t > 0 && bit == bits(t - 1)
    ensures Eager(f, bits, u, t, s) == Eager(f, bits, u, t - 1, CSwap(bit, f(u, CSwap(bit, s))))
  {
  }

  function Shl(b: nat, j: nat): nat { (b * Pow2(j)) % 256 }

  /** bit = byte >> 7; byte <<= 1. */
  method ShiftOut(b: nat, ghost orig: nat, ghost j: nat) returns (bit: limb, b': nat)
    requires j < 8 && b == Shl(orig, j)
    ensures bit as int == Bit(orig, 7 - j) && b' == Shl(orig, j + 1)
  {
    TopBit(orig, j);
    ShiftLeft(orig, j);
    bit := (b / 128) as limb;
    b' := (b * 2) % 256;
  }

  /** Names for the bits of byte i of the scalar and for the shifted byte. */
  ghost predicate ByteNames(b: nat, i: nat, bits: nat -> int, sh: nat -> nat) {
    && (forall r: nat {:trigger Bit(b, r)} :: r < 8 ==> bits(8 * i + r) == Bit(b, r))
    && (forall j: nat {:trigger Shl(b, j)} :: sh(j) == Shl(b, j))
  }

  method ShiftOutNamed(b: nat, ghost orig: nat, ghost j: nat, ghost i: nat, ghost bits: nat -> int, ghost sh: nat -> nat)
    returns (bit: limb, b': nat)
    requires j < 8 && b == sh(j) && ByteNames(orig, i, bits, sh)
    ensures bit as int == bits(8 * i + (8 - j) - 1) && b' == sh(j + 1) && (bit == 0 || bit == 1)
  {
    assert sh(j) == Shl(orig, j);
    bit, b' := ShiftOut(b, orig, j);
  }

  /** The ladder invariant: with bits t-1, ..., 0 to go, the current points lead to `goal`. */
  ghost predicate Leads(r: Regs, q: array<limb>, rep: seq<limb> -> int, f: StepFn, bits: nat -> int, u: int, t: nat,
                        goal: State)
    reads r.nqx, r.nqz, r.nqpqx, r.nqpqz, q
  {
    && q.Length == 10 && r.Separate(q) && Ready(r.nqx, r.nqz, r.nqpqx, r.nqpqz) && Loose(q[..10])
    && u == rep(q[..10]) && Eager(f, bits, u, t, Current(rep, r)) == goal
  }

  /** One round of the inner loop. */
  method LadderRound(r: Regs, q: array<limb>, b: nat, ghost orig: nat, ghost i: nat, ghost j: nat,
                     ghost rep: seq<limb> -> int, ghost f: StepFn, ghost bits: nat -> int, ghost sh: nat -> nat,
                     ghost u: int, ghost t: nat, ghost goal: State)
    returns (r2: Regs, b': nat)
    requires Names(rep, f) && ByteNames(orig, i, bits, sh) && j < 8 && b == sh(j)
    requires t == 8 * i + (8 - j) && Leads(r, q, rep, f, bits, u, t, goal)
    modifies r.nqx, r.nqz, r.nqpqx, r.nqpqz, r.nqx2, r.nqz2, r.nqpqx2, r.nqpqz2
    ensures b' == sh(j + 1) && r2 == r.Rotate() && Leads(r2, q, rep, f, bits, u, t - 1, goal)
  {
    var bit;
    bit, b' := ShiftOutNamed(b, orig, j, i, bits, sh);
    LadderBit(r, q, bit, rep, f, bits, u, t);
    r2 := r.Rotate();
  }

  /** Two rounds, after which every pointer is back in its place. */
  method LadderPair(r: Regs, q: array<limb>, b: nat, ghost orig: nat, ghost i: nat, ghost j: nat,
                    ghost rep: seq<limb> -> int, ghost f: StepFn, ghost bits: nat -> int, ghost sh: nat -> nat,
                    ghost u: int, ghost t: nat, ghost goal: State)
    returns (b': nat)
    requires Names(rep, f) && ByteNames(orig, i, bits, sh) && j < 7 && b == sh(j)
    requires t == 8 * i + (8 - j) && Leads(r, q, rep, f, bits, u, t, goal)
    modifies r.nqx, r.nqz, r.nqpqx, r.nqpqz, r.nqx2, r.nqz2, r.nqpqx2, r.nqpqz2
    ensures b' == sh(j + 2) && Leads(r, q, rep, f, bits, u, t - 2, goal)
  {
    var r2, r3;
    r2, b' := LadderRound(r, q, b, orig, i, j, rep, f, bits, sh, u, t, goal);
    r3, b' := LadderRound(r2, q, b', orig, i, j + 1, rep, f, bits, sh, u, t - 1, goal);
    assert r3 == r;
  }

  /** The eight bits of one byte, most significant first; `i` bytes come after it. */
  method LadderByte(r: Regs, q: array<limb>, byte0: nat, ghost i: nat, ghost rep: seq<limb> -> int, ghost f: StepFn,
                    ghost bits: nat -> int, ghost sh: nat -> nat, ghost u: int, ghost goal: State)
    requires Names(rep, f) && ByteNames(byte0, i, bits, sh) && sh(0) == byte0
    requires Leads(r, q, rep, f, bits, u, 8 * i + 8, goal)
    modifies r.nqx, r.nqz, r.nqpqx, r.nqpqz, r.nqx2, r.nqz2, r.nqpqx2, r.nqpqz2
    ensures Leads(r, q, rep, f, bits, u, 8 * i, goal)
  {
    var b, j := byte0, 0;
    while j < 8
      invariant 0 <= j <= 8 && j % 2 == 0 && b == sh(j)
      invariant Leads(r, q, rep, f, bits, u, 8 * i + (8 - j), goal)
    {
      b := LadderPair(r, q, b, byte0, i, j, rep, f, bits, sh, u, 8 * i + (8 - j), goal);
      j := j + 2;
    }
  }

  /** A name for the bits of the scalar. */
  ghost predicate ScalarNames(n: seq<byte>, bits: nat -> int) {
    forall k: nat {:trigger Bit(FromLE(n), k)} :: bits(k) == Bit(FromLE(n), k)
  }

  lemma {:induction false} NameByte(n: seq<byte>, i: nat, bits: nat -> int, sh: nat -> nat)
    requires i < |n| && ScalarNames(n, bits) && forall j: nat :: sh(j) == Shl(n[i], j)
    ensures ByteNames(n[i], i, bits, sh) && sh(0) == n[i]
  {
    forall r: nat | r < 8 ensures bits(8 * i + r) == Bit(n[i], r) {
      ScalarBit(n, i, r);
    }
    assert Pow2(0) == 1;
  }

  /** Byte i of the scalar. */
  method LadderByteOf(n: seq<byte>, i: nat, r: Regs, q: array<limb>, ghost rep: seq<limb> -> int, ghost f: StepFn,
                      ghost bits: nat -> int, ghost u: int, ghost goal: State)
    requires Names(rep, f) && i < |n| && ScalarNames(n, bits) && Leads(r, q, rep, f, bits, u, 8 * i + 8, goal)
    modifies r.nqx, r.nqz, r.nqpqx, r.nqpqz, r.nqx2, r.nqz2, r.nqpqx2, r.nqpqz2
    ensures Leads(r, q, rep, f, bits, u, 8 * i, goal)
  {
    ghost var sh := (j: nat) => Shl(n[i], j);
    NameByte(n, i, bits, sh);
    LadderByte(r, q, n[i], i, rep, f, bits, sh, u, goal);
  }

  method LadderBytes(n: seq<byte>, r: Regs, q: array<limb>, ghost rep: seq<limb> -> int, ghost f: StepFn,
                     ghost bits: nat -> int, ghost u: int, ghost goal: State)
    requires Names(rep, f) && ScalarNames(n, bits) && Leads(r, q, rep, f, bits, u, 8 * |n|, goal)
    modifies r.nqx, r.nqz, r.nqpqx, r.nqpqz, r.nqx2, r.nqz2, r.nqpqx2, r.nqpqz2
    ensures Leads(r, q, rep, f, bits, u, 0, goal)
  {
    for i := 0 to |n|
      invariant Leads(r, q, rep, f, bits, u, 8 * (|n| - i), goal)
    {
      LadderByteOf(n, |n| - 1 - i, r, q, rep, f, bits, u, goal);
    }
  }

  /** limb a[19] = {c} */
  method NewElement(c: limb) returns (a: array<limb>)
    ensures fresh(a) && a.Length == 19 && a[0] == c && forall i :: 1 <= i < 19 ==> a[i] == 0
  {
    a := new limb[19](Unit(c));
  }

  /** The arrays of `cmult`. */
  method NewRegs(q: array<limb>, ghost rep: seq<limb> -> int, ghost f: StepFn) returns (r: Regs)
    requires q.Length == 10 && Point(q[..10]) && Names(rep, f)
    ensures fresh({r.nqx, r.nqz, r.nqpqx, r.nqpqz, r.nqx2, r.nqz2, r.nqpqx2, r.nqpqz2}) && r.Separate(q)
    ensures Ready(r.nqx, r.nqz, r.nqpqx, r.nqpqz) && Current(rep, r) == Start(rep(q[..10]))
  {
    var a := NewElement(0);
    var b := NewElement(1);
    var c := NewElement(1);
    var d := NewElement(0);
    var e := NewElement(0);
    var f' := NewElement(1);
    var g := NewElement(0);
    var h := NewElement(1);
    Store(a, 0, q[..10]);
    r := Regs(c, d, a, b, g, h, e, f');
    StartPoints(q[..10], a[..10], b[..10], c[..10], d[..10], rep, f);
  }

  lemma {:induction false} StartPoints(q: seq<limb>, a: seq<limb>, b: seq<limb>, c: seq<limb>, d: seq<limb>,
                                       rep: seq<limb> -> int, f: StepFn)
    requires Point(q) && a == q && |b| == |c| == |d| == 10 && Names(rep, f)
    requires b[0] == 1 && c[0] == 1 && d[0] == 0 && forall i :: 1 <= i < 10 ==> b[i] == 0 && c[i] == 0 && d[i] == 0
    ensures Fits(c, d) && Fits(a, b) && State(rep(c), rep(d), rep(a), rep(b)) == Start(rep(q))
  {
    PointFits(q, b);
    ConstantFe(b, 1);
    ConstantFe(c, 1);
    ConstantFe(d, 0);
    assert rep(b) == Fe(b) && rep(c) == Fe(c) && rep(d) == Fe(d);
  }

  /** `cmult`, with the field element, the step and the scalar's bits under names of their own. */
  method CMultNamed(resultx: array<limb>, resultz: array<limb>, n: seq<byte>, q: array<limb>,
                    ghost rep: seq<limb> -> int, ghost f: StepFn, ghost bits: nat -> int)
    requires resultx.Length >= 10 && resultz.Length >= 10 && q.Length == 10 && resultx != q && resultz != q && resultx != resultz
    requires Point(q[..10]) && Names(rep, f) && ScalarNames(n, bits)
    modifies resultx, resultz
    ensures Fits(resultx[..10], resultz[..10])
    ensures var s := Loop(f, bits, rep(q[..10]), 8 * |n|, Start(rep(q[..10])), 0);
            rep(resultx[..10]) == s.x2 && rep(resultz[..10]) == s.z2
  {
    var r := NewRegs(q, rep, f);
    ghost var u := rep(q[..10]);
    ghost var goal := Eager(f, bits, u, 8 * |n|, Start(u));
    LooseOf(q[..10]);
    LadderBytes(n, r, q, rep, f, bits, u, goal);
    Store(resultx, 0, r.nqx[..10]);
    Store(resultz, 0, r.nqz[..10]);
    NamedLazyIsEager(n, f, bits, u, Start(u));
  }

  lemma {:induction false} NamedLazyIsEager(n: seq<byte>, f: StepFn, bits: nat -> int, u: int, s: State)
    requires ScalarNames(n, bits)
    ensures Loop(f, bits, u, 8 * |n|, s, 0) == Eager(f, bits, u, 8 * |n|, s)
  {
    forall i: nat | i < 8 * |n| ensures bits(i) == 0 || bits(i) == 1 {
      assert bits(i) == Bit(FromLE(n), i);
    }
    LazyIsEager(f, bits, u, 8 * |n|, s, 0);
  }

  lemma {:induction false} LooseOf(q: seq<limb>)
    requires Point(q)
    ensures Loose(q)
  {
  }

  /** The ladder over all bits of the scalar, as section 5 of RFC 7748 defines it. */
  method CMult(resultx: array<limb>, resultz: array<limb>, n: seq<byte>, q: array<limb>)
    requires resultx.Length >= 10 && resultz.Length >= 10 && q.Length == 10 && resultx != q && resultz != q && resultx != resultz
    requires Point(q[..10])
    modifies resultx, resultz
    ensures Fits(resultx[..10], resultz[..10])
    ensures var s := Loop(Step, Scalar(FromLE(n)), Fe(q[..10]), 8 * |n|, Start(Fe(q[..10])), 0);
            Fe(resultx[..10]) == s.x2 && Fe(resultz[..10]) == s.z2
  {
    NamesThemselves(n);
    CMultNamed(resultx, resultz, n, q, Rep(), Step, Scalar(FromLE(n)));
    assert Rep()(resultx[..10]) == Fe(resultx[..10]);
  }

  ghost function Rep(): seq<limb> -> int { (s: seq<limb>) => Fe(s) as int }

  lemma {:induction false} NamesThemselves(n: seq<byte>)
    ensures Names(Rep(), Step) && ScalarNames(n, Scalar(FromLE(n)))
  {
  }
}
