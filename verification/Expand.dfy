/** Decoding a point in curve25519-donna.c: `fexpand`. */
module Expand {
  import opened ModArith
  import opened Powers
  import opened Bits
  import opened Bytes
  import opened Limbs
  import opened Field
  import opened CMult

  /* ---- four bytes ---- */

  function Word(b: seq<byte>, s: nat): (w: nat)
    requires s + 4 <= |b|
    ensures w < 0x1_0000_0000
  {
    b[s] as nat + 0x100 * b[s + 1] as nat + 0x1_0000 * b[s + 2] as nat + 0x100_0000 * b[s + 3] as nat
  }

  /** The or of four bytes in place. */
  function OrWord(b: seq<byte>, s: nat): nat
    requires s + 4 <= |b|
  {
    Or(Or(Or(b[s], 0x100 * b[s + 1] as nat), 0x1_0000 * b[s + 2] as nat), 0x100_0000 * b[s + 3] as nat)
  }

  lemma {:induction false} OrWordIsSum(b: seq<byte>, s: nat)
    requires s + 4 <= |b|
    ensures OrWord(b, s) == Word(b, s)
  {
    SmallPowers();
    var b0: nat, b1: nat, b2: nat, b3: nat := b[s], b[s + 1], b[s + 2], b[s + 3];
    OrDisjoint(b0, 0x100 * b1, 8, b1);
    OrDisjoint(b0 + 0x100 * b1, 0x1_0000 * b2, 16, b2);
    OrDisjoint(b0 + 0x100 * b1 + 0x1_0000 * b2, 0x100_0000 * b3, 24, b3);
  }

  lemma {:induction false} FirstWord(b: seq<byte>)
    requires |b| >= 4
    ensures FromLE(b) == Word(b, 0) + 0x1_0000_0000 * FromLE(b[4..])
  {
    var c := b[1..];
    var d := c[1..];
    var e := d[1..];
    assert e[1..] == b[4..];
    assert FromLE(b) == b[0] as nat + 256 * FromLE(c) && FromLE(c) == b[1] as nat + 256 * FromLE(d);
    assert FromLE(d) == b[2] as nat + 256 * FromLE(e) && FromLE(e) == b[3] as nat + 256 * FromLE(b[4..]);
  }

  /** Bytes s, ..., s+3 of a number. */
  lemma {:induction false} WordOf(b: seq<byte>, s: nat)
    requires s + 4 <= |b|
    ensures Pow2(8 * s) >= 1 && FromLE(b) / Pow2(8 * s) % 0x1_0000_0000 == Word(b, s)
    decreases s
  {
    Pow2Positive(8 * s);
    if s == 0 {
      FirstWord(b);
      DivModUnique(FromLE(b), 0x1_0000_0000, FromLE(b[4..]), Word(b, 0));
    } else {
      WordOf(b[1..], s - 1);
      DivModUnique(FromLE(b), 256, FromLE(b[1..]), b[0]);
      var e := 8 * (s - 1);
      SmallPowers();
      Pow2Add(8, e);
      DivDiv(FromLE(b), 256, Pow2(e));
    }
  }

  /* ---- one limb ---- */

  /** Shifting and masking the low 32 bits sees what shifting and masking the whole number sees. */
  lemma {:induction false} LowWord(m: nat, p: nat, r: nat, c: nat)
    requires p > 0 && r > 0 && p * (r * c) == 0x1_0000_0000
    ensures m % 0x1_0000_0000 / p % r == m / p % r
  {
    var h, l := m / 0x1_0000_0000, m % 0x1_0000_0000;
    var q, t := l / p, l % p;
    var k := c * h;
    assert m == 0x1_0000_0000 * h + l && l == q * p + t;
    assert 0x1_0000_0000 * h == (k * r) * p by { Regroup4(p, r, c, h); }
    assert m == (k * r + q) * p + t by { SpreadLeft(k * r, q, p); }
    DivModUnique(m, p, k * r + q, t);
    ModShift(k * r + q, q, k, r);
  }

  lemma {:induction false} Regroup4(p: int, r: int, c: int, h: int)
    ensures (p * (r * c)) * h == ((c * h) * r) * p
  {
    assert (r * c) * h == (c * h) * r by { assert (c * r) * h == c * (r * h); }
    assert (p * (r * c)) * h == p * ((r * c) * h);
  }

  lemma {:induction false} Split32(s: nat, b: nat, c: nat)
    requires s + b + c == 32
    ensures Pow2(s) >= 1 && Pow2(b) >= 1 && Pow2(s) * (Pow2(b) * Pow2(c)) == 0x1_0000_0000
  {
    Pow2Positive(s);
    Pow2Positive(b);
    SmallPowers();
    Pow2Add(b, c);
    Pow2Add(s, b + c);
    var n := 16;
    PowerIs(n, 0x1_0000, n, 0x1_0000);
  }

  lemma {:induction false} BitsCore(x: nat, a: nat, p: nat, size: nat, c: nat)
    requires a > 0 && p > 0 && size > 0 && p * (size * c) == 0x1_0000_0000
    ensures a * p > 0 && x / a % 0x1_0000_0000 / p % size == x / (a * p) % size
  {
    LowWord(x / a, p, size, c);
    DivDiv(x, a, p);
  }

  /** Digit i of x in the mixed radix of the limbs; the top digit has 26 bits. */
  function Size(i: nat): nat { if i == 9 then 0x400_0000 else Radix(i) }

  function SizeBits(i: nat): nat { if i == 9 then 26 else RadixBits(i) }

  function Digit(x: nat, i: nat): (d: nat) {
    Pow2Positive(Exp(i));
    x / W(i) % Size(i)
  }

  /** A name for the digits of the input. */
  ghost predicate DigitNames(x: nat, dig: nat -> int) {
    forall i: nat {:trigger Digit(x, i)} :: dig(i) == Digit(x, i)
  }

  /** The bits of limb i start at bit `shift` of byte `start`. */
  lemma {:induction false} BitsOf(input: seq<byte>, start: nat, shift: nat, i: nat)
    requires start + 4 <= |input| && 8 * start + shift == Exp(i) && shift + SizeBits(i) <= 32
    ensures Pow2(shift) >= 1 && Word(input, start) / Pow2(shift) % Size(i) == Digit(FromLE(input), i)
  {
    var b := SizeBits(i);
    SmallPowers();
    assert Pow2(b) == Size(i);
    Split32(shift, b, 32 - shift - b);
    WordOf(input, start);
    Pow2Add(8 * start, shift);
    BitsCore(FromLE(input), Pow2(8 * start), Pow2(shift), Pow2(b), Pow2(32 - shift - b));
  }

  /** F(n, start, shift, mask): four bytes, shifted right by 2^shift = p and masked with size - 1. */
  method Limb(input: seq<byte>, start: nat, p: nat, size: nat, ghost i: nat, ghost shift: nat, ghost dig: nat -> int)
    returns (l: limb)
    requires start + 4 <= |input| && p > 0 && p == Pow2(shift) && size == Size(i) && DigitNames(FromLE(input), dig)
    requires 8 * start + shift == Exp(i) && shift + SizeBits(i) <= 32
    ensures l as int == dig(i) && 0 <= l as int < size
  {
    OrWordIsSum(input, start);
    BitsOf(input, start, shift, i);
    l := (OrWord(input, start) / p % size) as limb;
  }

  /* ---- the whole number ---- */

  lemma {:induction false} NextDigit(n: nat, a: nat, b: nat, c: nat)
    requires a > 0 && b > 0 && c == a * b
    ensures n % a + a * (n / a % b) == n % c
  {
    var q, r := n / a, n % a;
    var s, t := q / b, q % b;
    assert n == q * a + r && q == s * b + t;
    DivDivParts(a, b, q, r, s, t);
    DivModUnique(n, c, s, t * a + r);
  }

  lemma {:induction false} DigitsValue(s: seq<limb>, x: nat, n: nat)
    requires n <= |s| && n <= 9 && forall i: nat :: i < n ==> s[i] as int == Digit(x, i)
    ensures W(n) >= 1 && V(s, n) == x % W(n)
    decreases n
  {
    Pow2Positive(Exp(n));
    if n > 0 {
      DigitsValue(s, x, n - 1);
      WeightNext(n - 1);
      NextDigit(x, W(n - 1), Radix(n - 1), W(n));
    } else {
      FirstWeight(n);
    }
  }

  /** Limb 9 takes 26 bits, so that all 256 bits of the input count. */
  lemma {:induction false} ExpandedValue(s: seq<limb>, input: seq<byte>, n: nat)
    requires n == 9 && |s| == n + 1 && |input| == 32 && forall i: nat :: i < |s| ==> s[i] as int == Digit(FromLE(input), i)
    ensures V(s, |s|) == FromLE(input)
  {
    var x := FromLE(input);
    DigitsValue(s, x, n);
    FromLEBound(input);
    SmallPowers();
    var e, k := Exp(n), 26;
    Pow2Add(e, k);
    assert e + k == 8 * |input|;
    assert s[n] as int == Digit(x, n);
    NextDigit(x, W(n), 0x400_0000, Pow2(e + k));
    ModSmall(x, Pow2(e + k));
  }

  /** The limbs `fexpand` stores. */
  method Limbs10(input: seq<byte>, ghost dig: nat -> int) returns (s: seq<limb>)
    requires |input| == 32 && DigitNames(FromLE(input), dig)
    ensures |s| == 10 && Point(s) && forall i: nat :: i < 10 ==> s[i] as int == dig(i)
  {
    var l0 := Limb(input, 0, 1, 0x400_0000, 0, 0, dig);
    var l1 := Limb(input, 3, 4, 0x200_0000, 1, 2, dig);
    var l2 := Limb(input, 6, 8, 0x400_0000, 2, 3, dig);
    var l3 := Limb(input, 9, 32, 0x200_0000, 3, 5, dig);
    var l4 := Limb(input, 12, 64, 0x400_0000, 4, 6, dig);
    var l5 := Limb(input, 16, 1, 0x200_0000, 5, 0, dig);
    var l6 := Limb(input, 19, 2, 0x400_0000, 6, 1, dig);
    var l7 := Limb(input, 22, 8, 0x200_0000, 7, 3, dig);
    var l8 := Limb(input, 25, 16, 0x400_0000, 8, 4, dig);
    var l9 := Limb(input, 28, 64, 0x400_0000, 9, 6, dig);
    s := [l0, l1, l2, l3, l4, l5, l6, l7, l8, l9];
  }

  /** The little-endian number in the input, all 256 bits of it. */
  method FExpand(output: array<limb>, input: seq<byte>)
    requires output.Length == 10 && |input| == 32
    modifies output
    ensures V(output[..10], |output[..10]|) == FromLE(input) && Point(output[..10])
  {
    ghost var dig := (i: nat) => Digit(FromLE(input), i) as int;
    var s := Limbs10(input, dig);
    Store(output, 0, s);
    assert output[..10] == s;
    ghost var n := 9;
    ExpandedValue(s, input, n);
  }
}
