/** Encoding an element in curve25519-donna.c: `fcontract`. */
module Contract {
  import opened ModArith
  import opened Powers
  import opened Bits
  import opened Bytes
  import opened Limbs
  import opened Field
  import opened Reduce
  import opened CMult

  /* ---- borrows ---- */

  /** Limbs that are digits. */
  ghost predicate Canon(s: seq<limb>) {
    |s| == 10 && forall k :: 0 <= k < 10 ==> 0 <= s[k] as int < Radix(k)
  }

  /** How far below zero limb i may be when a borrow pass reaches it. */
  function Deficit(i: nat, second: bool): int {
    if !second then Radix(i) else if i == 0 then 19 else 1
  }

  /** A borrow pass has reached limb i. In the second pass a limb other than the first can only be
      negative when limb 0 has borrowed, and is then close to its upper end. */
  ghost predicate Reached(s: seq<limb>, i: nat, second: bool) {
    && |s| == 10 && i < 10
    && (forall k :: 0 <= k < i ==> 0 <= s[k] as int < Radix(k))
    && 0 - Deficit(i, second) <= s[i] as int < Radix(i)
    && (forall k :: i < k < 10 ==> (if second then 0 else 1 - Radix(k)) <= s[k] as int < Radix(k))
    && (second && i > 0 && s[i] < 0 ==> s[0] >= 0x400_0000 - 19)
  }

  /** A name for the field element. */
  ghost predicate Named(rep: seq<limb> -> int) {
    forall s {:trigger Fe(s)} :: rep(s) == Fe(s)
  }

  /** carry = -((v & (v >> 31)) >> bits), with radix = 2^bits. */
  method BorrowOf(v: limb, radix: limb) returns (carry: limb)
    requires radix == 0x400_0000 || radix == 0x200_0000
    requires -radix <= v < radix
    ensures carry == if v < 0 then 1 else 0
  {
    var mask := (S32(v) as int / 0x8000_0000) as limb;
    carry := 0 - (AndMask(mask, S32(v)) as int / radix as int) as limb;
  }

  lemma {:induction false} BorrowKeepsFe(s: seq<limb>, t: seq<limb>, i: nat, carry: limb, rep: seq<limb> -> int)
    requires |s| == |t| && i + 1 < |s| && Named(rep)
    requires -0x8000_0000 <= s[i] < 0x8000_0000 && -0x8000_0000 <= s[i + 1] < 0x8000_0000 && (carry == 0 || carry == 1)
    requires t == s[i := s[i] + carry * Radix(i) as limb][i + 1 := s[i + 1] - carry]
    ensures rep(t) == rep(s)
  {
    CarryKeepsValue(s, i, t[i], t[i + 1], 0 - carry as int, |s|);
    assert rep(s) == Fe(s) && rep(t) == Fe(t);
  }

  /** Borrow from limb i+1 for limb i. */
  method Borrow(input: array<limb>, i: nat, ghost rep: seq<limb> -> int) returns (ghost carry: limb)
    requires input.Length >= 10 && i < 9 && Named(rep)
    requires 0 - Radix(i) <= input[i] as int < Radix(i) && 0 - Radix(i + 1) <= input[i + 1] as int < Radix(i + 1)
    modifies input
    ensures carry == if old(input[i]) < 0 then 1 else 0
    ensures input[..10] == old(input[..10])[i := old(input[i]) + carry * Radix(i) as limb][i + 1 := old(input[i + 1]) - carry]
    ensures rep(input[..10]) == rep(old(input[..10]))
  {
    var radix: limb := if i % 2 == 1 then 0x200_0000 else 0x400_0000;
    ghost var s := input[..10];
    var c := BorrowOf(input[i], radix);
    input[i] := S32(input[i]) + c * radix;
    input[i + 1] := S32(input[i + 1]) - c;
    carry := c;
    BorrowKeepsFe(s, input[..10], i, c, rep);
  }

  lemma {:induction false} ReachedNext(s: seq<limb>, t: seq<limb>, i: nat, second: bool, carry: limb)
    requires i < 9 && Reached(s, i, second) && carry == if s[i] < 0 then 1 else 0
    requires t == s[i := s[i] + carry * Radix(i) as limb][i + 1 := s[i + 1] - carry]
    ensures Reached(t, i + 1, second)
  {
    assert forall k :: 0 <= k < i ==> t[k] == s[k];
    assert forall k :: i + 1 < k < 10 ==> t[k] == s[k];
    assert t[i] == s[i] + carry * Radix(i) as limb && t[i + 1] == s[i + 1] - carry;
  }

  lemma {:induction false} WrapBorrow(v: int, v2: int, w9: int, w10: int, carry: int)
    requires w10 == w9 * 0x200_0000 && w10 == P + 19 && v2 == v + 1 * (-19 * carry) + w9 * (carry * 0x200_0000)
    ensures v2 % P == v % P
  {
    assert w9 * (carry * 0x200_0000) == w10 * carry;
    assert v2 == v + carry * P;
    ModShift(v2, v, carry, P);
  }

  lemma {:induction false} TopValue(s: seq<limb>, t: seq<limb>, z: nat, n: nat, a: int, b: int)
    requires z == 0 && z < n < |s| == |t| && t == s[z := t[z]][n := t[n]]
    requires t[z] as int == s[z] as int + a && t[n] as int == s[n] as int + b
    ensures V(t, |t|) == V(s, |s|) + 1 * a + W(n) * b
  {
    SetTwo(s, z, t[z], n, t[n], |s|);
    FirstWeight(z);
  }

  lemma {:induction false} TopKeepsFe(s: seq<limb>, t: seq<limb>, n: nat, carry: limb, rep: seq<limb> -> int)
    requires n == 9 && |s| == |t| == 10 && Named(rep) && (carry == 0 || carry == 1)
    requires -0x8000_0000 <= s[0] < 0x8000_0000 && -0x8000_0000 <= s[n] < 0x8000_0000
    requires t == s[0 := s[0] - 19 * carry][n := s[n] + carry * 0x200_0000]
    ensures rep(t) == rep(s)
  {
    var z, c := 0, carry as int;
    TopValue(s, t, z, n, -19 * c, c * 0x200_0000);
    WeightNext(n);
    TopWeight(n + 1);
    WrapBorrow(V(s, |s|), V(t, |t|), W(n), W(n + 1), c);
    assert rep(s) == Fe(s) && rep(t) == Fe(t);
  }

  /** The end of a pass: limb 9 borrows 2^255, which is 19 modulo p, from limb 0. */
  method BorrowTop(input: array<limb>, ghost second: bool, ghost rep: seq<limb> -> int)
    requires input.Length >= 10 && Reached(input[..10], 9, second) && Named(rep)
    modifies input
    ensures if second then Canon(input[..10]) else Reached(input[..10], 0, true)
    ensures rep(input[..10]) == rep(old(input[..10]))
  {
    ghost var s := input[..10];
    var c := BorrowOf(input[9], 0x200_0000);
    input[9] := S32(input[9]) + c * 0x200_0000;
    input[0] := S32(input[0]) - c * 19;
    ghost var n := 9;
    TopKeepsFe(s, input[..10], n, c, rep);
    TopDone(s, input[..10], c, second);
  }

  lemma {:induction false} TopDone(s: seq<limb>, t: seq<limb>, carry: limb, second: bool)
    requires Reached(s, 9, second) && carry == if s[9] < 0 then 1 else 0
    requires t == s[0 := s[0] - 19 * carry][9 := s[9] + carry * 0x200_0000]
    ensures if second then Canon(t) else Reached(t, 0, true)
  {
    assert forall k :: 1 <= k < 9 ==> t[k] == s[k];
    assert t[0] == s[0] - 19 * carry && t[9] == s[9] + carry * 0x200_0000;
  }

  method BorrowPass(input: array<limb>, ghost second: bool, ghost rep: seq<limb> -> int)
    requires input.Length >= 10 && Reached(input[..10], 0, second) && Named(rep)
    modifies input
    ensures if second then Canon(input[..10]) else Reached(input[..10], 0, true)
    ensures rep(input[..10]) == rep(old(input[..10]))
  {
    for i := 0 to 9
      invariant Reached(input[..10], i, second) && rep(input[..10]) == rep(old(input[..10]))
    {
      ghost var s := input[..10];
      ghost var carry := Borrow(input, i, rep);
      ReachedNext(s, input[..10], i, second, carry);
    }
    BorrowTop(input, second, rep);
  }

  /** Both passes; the last step, from limb 0 to limb 1, never has anything to borrow. */
  method BorrowAll(input: array<limb>, ghost rep: seq<limb> -> int)
    requires input.Length >= 10 && Strict(input[..10]) && Named(rep)
    modifies input
    ensures Canon(input[..10]) && rep(input[..10]) == rep(old(input[..10]))
  {
    for j := 0 to 2
      invariant if j < 2 then Reached(input[..10], 0, j == 1) else Canon(input[..10])
      invariant rep(input[..10]) == rep(old(input[..10]))
    {
      BorrowPass(input, j == 1, rep);
    }
    ghost var s := input[..10];
    ghost var carry := Borrow(input, 0, rep);
    assert carry == 0 && input[..10] == s;
  }

  /* ---- bytes ---- */

  /** The byte and the bit of that byte at which limb i starts. */
  function Start(i: nat): nat { Exp(i) / 8 }

  function Shift(i: nat): nat { Exp(i) % 8 }

  lemma {:induction false} FourBytes(b0: byte, b1: byte, b2: byte, b3: byte)
    ensures FromLE([b0, b1, b2, b3]) == b0 as nat + 0x100 * b1 as nat + 0x1_0000 * b2 as nat + 0x100_0000 * b3 as nat
  {
    var b := [b0, b1, b2, b3];
    assert b[1..] == [b1, b2, b3] && [b1, b2, b3][1..] == [b2, b3] && [b2, b3][1..] == [b3];
    OneByte(b3);
    assert FromLE([b2, b3]) == b2 as nat + 256 * FromLE([b3]);
    assert FromLE([b1, b2, b3]) == b1 as nat + 256 * FromLE([b2, b3]);
    assert FromLE(b) == b0 as nat + 256 * FromLE([b1, b2, b3]);
  }

  lemma {:induction false} OneByte(d: byte)
    ensures FromLE([d]) == d
  {
    assert [d][1..] == [];
  }

  lemma {:induction false} WordBytes(x: nat)
    requires x < 0x1_0000_0000
    ensures x == x % 256 + 0x100 * (x / 0x100 % 256) + 0x1_0000 * (x / 0x1_0000 % 256) + 0x100_0000 * (x / 0x100_0000 % 256)
  {
    Digits256(x);
  }

  /** Adding x at byte s. */
  lemma {:induction false} PutBytes(pre: seq<byte>, top: byte, x: nat, b0: byte)
    requires x < 0x1_0000_0000 && b0 as nat == top as nat + x % 256
    ensures FromLE(pre + [b0, x / 0x100 % 256, x / 0x1_0000 % 256, x / 0x100_0000 % 256])
            == FromLE(pre + [top]) + Pow2(8 * |pre|) * x
  {
    var b1: byte, b2: byte, b3: byte := x / 0x100 % 256, x / 0x1_0000 % 256, x / 0x100_0000 % 256;
    FromLEConcat(pre, [b0, b1, b2, b3]);
    FromLEConcat(pre, [top]);
    FourBytes(b0, b1, b2, b3);
    OneByte(top);
    WordBytes(x);
    Spread(Pow2(8 * |pre|), top, x);
  }

  lemma {:induction false} LimbsBound(s: seq<limb>, n: nat)
    requires Canon(s) && n <= |s|
    ensures 0 <= V(s, n) < W(n)
    decreases n
  {
    if n == 0 {
      FirstWeight(n);
    } else {
      LimbsBound(s, n - 1);
      WeightNext(n - 1);
      DigitBound(V(s, n - 1), W(n - 1), s[n - 1] as int, Radix(n - 1));
    }
  }

  lemma {:induction false} DigitBound(v: int, w: int, d: int, r: int)
    requires 0 <= v < w && 0 <= d < r
    ensures 0 <= v + w * d < w * r
  {
    assert w * (d + 1) <= w * r;
  }

  lemma {:induction false} TopByteSmall(low: nat, a: nat, top: nat, p: nat, v: nat)
    requires a > 0 && v == low + a * top && v < a * p
    ensures top < p
  {
    MulLe(a, p, top);
  }

  lemma {:induction false} MulLe(a: nat, x: int, y: int)
    ensures x <= y ==> a * x <= a * y
  {
  }

  /** The low byte of a shifted limb has no bit below the shift. */
  lemma {:induction false} LowByte(l: nat, p: nat, p': nat, x: nat)
    requires p > 0 && p' > 0 && p * p' == 256 && x == l * p
    ensures x % 256 == p * (l % p') && x % 256 + p <= 256
  {
    var q, r := l / p', l % p';
    assert l == q * p' + r;
    assert x == q * 256 + p * r by { assert (q * p' + r) * p == q * (p * p') + p * r; }
    assert 0 <= p * r && p * (r + 1) <= p * p';
    assert p * (r + 1) == p * r + p;
    DivModUnique(x, 256, q, p * r);
  }

  lemma {:induction false} SplitEight(k: nat)
    requires k <= 8
    ensures Pow2(k) >= 1 && Pow2(8 - k) >= 1 && Pow2(k) * Pow2(8 - k) == 256
  {
    Pow2Positive(k);
    Pow2Positive(8 - k);
    SmallPowers();
    Pow2Add(k, 8 - k);
  }

  /** Limb i goes to byte Start(i), below which the earlier limbs leave Shift(i) bits. */
  lemma {:induction false} PutLimbValue(s: seq<limb>, i: nat, pre: seq<byte>, top: byte, x: nat)
    requires Canon(s) && i < 10 && |pre| == Start(i) && FromLE(pre + [top]) == V(s, i)
    requires x == s[i] as int * Pow2(Shift(i)) && x < 0x1_0000_0000
    ensures Or(top, x % 256) == top as nat + x % 256 < 256
    ensures V(s, i) + Pow2(8 * |pre|) * x == V(s, i + 1)
  {
    var k := Shift(i);
    var p, p', a := Pow2(k), Pow2(8 - k), Pow2(8 * |pre|);
    SplitEight(k);
    LowByte(s[i] as int, p, p', x);
    Pow2Add(8 * |pre|, k);
    assert 8 * |pre| + k == Exp(i) && W(i) == a * p;
    LimbsBound(s, i);
    FromLEConcat(pre, [top]);
    OneByte(top);
    Pow2Positive(8 * |pre|);
    TopByteSmall(FromLE(pre), a, top, p, V(s, i));
    OrDisjoint(top, x % 256, k, s[i] as int % p');
    MulSwap(a, p, s[i] as int);
  }

  lemma {:induction false} MulSwap(a: int, p: int, l: int)
    ensures a * (l * p) == (a * p) * l
  {
  }

  /** Names for the value of the first limbs and for the number in a byte string. */
  ghost predicate ValueNames(s: seq<limb>, val: nat -> int, le: seq<byte> -> int) {
    && (forall n: nat {:trigger V(s, n)} :: n <= |s| ==> val(n) == V(s, n))
    && (forall b {:trigger FromLE(b)} :: le(b) == FromLE(b))
  }

  lemma {:induction false} PutLimbNamed(s: seq<limb>, i: nat, pre: seq<byte>, top: byte, x: nat, val: nat -> int,
                                        le: seq<byte> -> int, mult: nat)
    requires Canon(s) && i < 10 && |pre| == Start(i) && ValueNames(s, val, le) && le(pre + [top]) == val(i)
    requires mult == Pow2(Shift(i)) && x == s[i] as int * mult && x < 0x1_0000_0000
    ensures Or(top, x % 256) < 256
    ensures le(pre + [Or(top, x % 256), x / 0x100 % 256, x / 0x1_0000 % 256, x / 0x100_0000 % 256]) == val(i + 1)
  {
    assert FromLE(pre + [top]) == V(s, i);
    PutLimbValue(s, i, pre, top, x);
    PutBytes(pre, top, x, Or(top, x % 256));
    assert val(i + 1) == V(s, i + 1);
  }

  /** F(i, st): the four bytes of limb i shifted left. */
  method PutLimb(output: array<byte>, x: limb, st: nat, ghost s: seq<limb>, ghost i: nat, ghost shift: nat,
                 ghost mult: nat, ghost val: nat -> int, ghost le: seq<byte> -> int)
    requires Canon(s) && i < 10 && st == Start(i) && st + 4 <= output.Length && ValueNames(s, val, le)
    requires le(output[..st + 1]) == val(i) && shift == Shift(i) && mult == Pow2(shift) && x as int == s[i] as int * mult
    requires 0 <= x < 0x1_0000_0000
    modifies output
    ensures le(output[..st + 4]) == val(i + 1)
    ensures forall k :: st + 4 <= k < output.Length ==> output[k] == old(output[k])
  {
    var y := x as nat;
    ghost var pre, top := output[..st], output[st];
    assert output[..st + 1] == pre + [top];
    PutLimbNamed(s, i, pre, top, y, val, le, mult);
    output[st] := Or(output[st], y % 256);
    output[st + 1] := y / 0x100 % 256;
    output[st + 2] := y / 0x1_0000 % 256;
    output[st + 3] := y / 0x100_0000 % 256;
    assert output[..st + 4] == pre + [Or(top, y % 256), y / 0x100 % 256, y / 0x1_0000 % 256, y / 0x100_0000 % 256];
  }

  /** Limbs 0 to 4 fill bytes 0 to 15. */
  method PutLow(output: array<byte>, s: seq<limb>, ghost val: nat -> int, ghost le: seq<byte> -> int)
    requires Canon(s) && output.Length == 32 && ValueNames(s, val, le) && le(output[..1]) == val(0)
    modifies output
    ensures le(output[..16]) == val(5) && output[16] == old(output[16])
  {
    PutLimb(output, s[0], 0, s, 0, 0, 1, val, le);
    PutLimb(output, s[1] * 4, 3, s, 1, 2, 4, val, le);
    PutLimb(output, s[2] * 8, 6, s, 2, 3, 8, val, le);
    PutLimb(output, s[3] * 32, 9, s, 3, 5, 32, val, le);
    PutLimb(output, s[4] * 64, 12, s, 4, 6, 64, val, le);
  }

  /** Limbs 5 to 9 fill bytes 16 to 31. */
  method PutHigh(output: array<byte>, s: seq<limb>, ghost val: nat -> int, ghost le: seq<byte> -> int)
    requires Canon(s) && output.Length == 32 && ValueNames(s, val, le) && le(output[..17]) == val(5)
    modifies output
    ensures le(output[..32]) == val(10)
  {
    PutLimb(output, s[5], 16, s, 5, 0, 1, val, le);
    PutLimb(output, s[6] * 2, 19, s, 6, 1, 2, val, le);
    PutLimb(output, s[7] * 8, 22, s, 7, 3, 8, val, le);
    PutLimb(output, s[8] * 16, 25, s, 8, 4, 16, val, le);
    PutLimb(output, s[9] * 64, 28, s, 9, 6, 64, val, le);
  }

  lemma {:induction false} ZeroByte(a: seq<byte>, d: byte, le: seq<byte> -> int, s: seq<limb>, val: nat -> int)
    requires d == 0 && ValueNames(s, val, le)
    ensures le(a + [d]) == le(a) && le([d]) == 0 && val(0) == 0
  {
    FromLEConcat(a, [d]);
    OneByte(d);
    assert le(a) == FromLE(a) && le(a + [d]) == FromLE(a + [d]) && le([d]) == FromLE([d]) && val(0) == V(s, 0);
  }

  method PutAll(output: array<byte>, s: seq<limb>, ghost val: nat -> int, ghost le: seq<byte> -> int)
    requires Canon(s) && output.Length == 32 && ValueNames(s, val, le)
    modifies output
    ensures le(output[..32]) == val(10)
  {
    output[0] := 0;
    output[16] := 0;
    assert output[..1] == [output[0]];
    ZeroByte([], output[0], le, s, val);
    PutLow(output, s, val, le);
    assert output[..17] == output[..16] + [output[16]];
    ZeroByte(output[..16], output[16], le, s, val);
    PutHigh(output, s, val, le);
  }

  /** The number the digits stand for, least significant byte first. */
  method PutDigits(output: array<byte>, s: seq<limb>, ghost n: nat)
    requires Canon(s) && output.Length == 32 && n == |s|
    modifies output
    ensures FromLE(output[..32]) == V(s, n)
  {
    ghost var val := (k: nat) => if k <= |s| then V(s, k) else 0;
    ghost var le := (b: seq<byte>) => FromLE(b) as int;
    PutAll(output, s, val, le);
    assert val(n) == V(s, n) && le(output[..32]) == FromLE(output[..32]);
  }

  /** The bytes stand for a number below 2^255 = p + 19 congruent to the element. */
  method FContract(output: array<byte>, input: array<limb>)
    requires output.Length == 32 && input.Length >= 10 && Strict(input[..10])
    modifies output, input
    ensures FromLE(output[..32]) < P + 19 && FromLE(output[..32]) % P == Fe(old(input[..10]))
  {
    ghost var rep := (s: seq<limb>) => Fe(s) as int;
    ghost var was := input[..10];
    BorrowAll(input, rep);
    assert rep(was) == Fe(was) && rep(input[..10]) == Fe(input[..10]);
    ghost var s := input[..10];
    ghost var n := |s|;
    PutDigits(output, input[..10], n);
    LimbsBound(s, n);
    TopWeight(n);
  }
}
