/** Big-endian byte strings and the naturals they denote, as libtommath reads and writes them,
    and the four-byte lengths of the SSH wire format. */
module Bytes {
  import opened Powers

  type byte = n: nat | n < 256

  datatype Option<+T> = None | Some(value: T)

  lemma {:induction false} Assoc<T>(a: seq<T>, b: seq<T>, c: seq<T>)
    ensures (a + b) + c == a + (b + c)
  {
  }

  /** `mp_read_unsigned_bin`: most significant byte first. */
  function FromBE(b: seq<byte>): nat
    decreases |b|
  {
    if |b| == 0 then 0 else FromBE(b[..|b| - 1]) * 256 + b[|b| - 1]
  }

  /** `mp_to_unsigned_bin`: no leading zero byte, nothing at all for zero. */
  function ToBE(n: nat): seq<byte> {
    if n == 0 then [] else ToBE(n / 256) + [n % 256]
  }

  function Pow256(k: nat): nat {
    if k == 0 then 1 else 256 * Pow256(k - 1)
  }

  function Zeros(k: nat): seq<byte> {
    seq(k, i => 0)
  }

  lemma {:induction false} FromBEAppend(a: seq<byte>, d: byte)
    ensures FromBE(a + [d]) == FromBE(a) * 256 + d
  {
    assert (a + [d])[..|a|] == a;
  }

  lemma {:induction false} FromToBE(n: nat)
    ensures FromBE(ToBE(n)) == n
    decreases n
  {
    if n > 0 {
      FromToBE(n / 256);
      FromBEAppend(ToBE(n / 256), n % 256);
    }
  }

  lemma {:induction false} FromBEBound(b: seq<byte>)
    ensures FromBE(b) < Pow256(|b|)
    decreases |b|
  {
    if |b| > 0 { FromBEBound(b[..|b| - 1]); }
  }

  /** A number needs at most `k` bytes exactly when it is below 256^k. */
  lemma {:induction false} ToBELength(n: nat, k: nat)
    ensures |ToBE(n)| <= k <==> n < Pow256(k)
    decreases n
  {
    if n == 0 {
      Pow256Positive(k);
    } else if k > 0 {
      ToBELength(n / 256, k - 1);
    }
  }

  lemma {:induction false} Pow256Positive(k: nat)
    ensures Pow256(k) > 0
  {
    if k > 0 { Pow256Positive(k - 1); }
  }

  /** Leading zero bytes do not change the number. */
  lemma {:induction false} FromBEPadded(k: nat, b: seq<byte>)
    ensures FromBE(Zeros(k) + b) == FromBE(b)
    decreases |b| + k
  {
    if |b| > 0 {
      var c, d := b[..|b| - 1], b[|b| - 1];
      FromBEPadded(k, c);
      assert Zeros(k) + b == (Zeros(k) + c) + [d];
      FromBEAppend(Zeros(k) + c, d);
    } else if k > 0 {
      FromBEPadded(k - 1, []);
      assert Zeros(k) + b == (Zeros(k - 1) + []) + [0];
      FromBEAppend(Zeros(k - 1) + [], 0);
    }
  }

  /** Least significant byte first. */
  function FromLE(b: seq<byte>): nat
    decreases |b|
  {
    if |b| == 0 then 0 else b[0] as nat + 256 * FromLE(b[1..])
  }

  lemma {:induction false} FromLEBound(b: seq<byte>)
    ensures FromLE(b) < Pow2(8 * |b|)
    decreases |b|
  {
    if |b| > 0 {
      FromLEBound(b[1..]);
      SmallPowers();
      Pow2Add(8, 8 * (|b| - 1));
    }
  }

  lemma {:induction false} FromLEConcat(a: seq<byte>, b: seq<byte>)
    ensures FromLE(a + b) == FromLE(a) + Pow2(8 * |a|) * FromLE(b)
    decreases |a|
  {
    if |a| == 0 {
      assert a + b == b;
    } else {
      FromLEConcat(a[1..], b);
      assert (a + b)[1..] == a[1..] + b;
      SmallPowers();
      Pow2Add(8, 8 * (|a| - 1));
      Scale256(FromLE(b), Pow2(8 * (|a| - 1)));
    }
  }

  lemma {:induction false} FromLEInjective(a: seq<byte>, b: seq<byte>)
    requires |a| == |b| && FromLE(a) == FromLE(b)
    ensures a == b
    decreases |a|
  {
    if |a| > 0 {
      FromLEInjective(a[1..], b[1..]);
      assert a == [a[0]] + a[1..] && b == [b[0]] + b[1..];
    }
  }

  lemma {:induction false} Scale256(a: nat, p: nat)
    ensures 256 * (p * a) == (256 * p) * a
  {
  }

  function Min(a: nat, b: nat): nat { if a <= b then a else b }

  /* ---- STORE32H / LOAD32H ---- */

  function Store32(n: nat): (b: seq<byte>)
    requires n < 0x1_0000_0000
    ensures |b| == 4
  {
    [n / 0x100_0000, n / 0x1_0000 % 256, n / 256 % 256, n % 256]
  }

  function Load32(b: seq<byte>): (n: nat)
    requires |b| >= 4
    ensures n < 0x1_0000_0000
  {
    0x100_0000 * (b[0] as nat) + 0x1_0000 * (b[1] as nat) + 256 * (b[2] as nat) + b[3] as nat
  }

  lemma {:induction false} LoadStore32(n: nat, rest: seq<byte>)
    requires n < 0x1_0000_0000
    ensures Load32(Store32(n) + rest) == n
  {
    var b := Store32(n) + rest;
    assert b[0] == n / 0x100_0000 && b[1] == n / 0x1_0000 % 256 && b[2] == n / 256 % 256 && b[3] == n % 256;
    Digits256(n);
  }

  lemma {:induction false} Digits256(n: nat)
    ensures n == 0x100_0000 * (n / 0x100_0000) + 0x1_0000 * (n / 0x1_0000 % 256) + 256 * (n / 256 % 256) + n % 256
  {
    assert n / 256 / 256 == n / 0x1_0000 && n / 0x1_0000 / 256 == n / 0x100_0000;
  }
}
