/** ASN.1/BER headers of keyimport.c: `ber_read_id_len` and `ber_write_id_len`. */
module Ber {
  import opened Bytes

  const CONSTRUCTED: nat := 0x20

  /** Identifier, length and flags, and the number of bytes they took. */
  datatype Head = Head(id: nat, length: nat, flags: nat, used: nat)

  /* ---- writing ---- */

  /** Lengths for which the shifts of the C code stay below the width of an int. */
  const MAX_LENGTH: nat := 0x100_0000
  const MAX_ID: nat := 0x1000_0000

  /** Seven bits at a time, each byte with its top bit set. */
  function Continued(x: nat): seq<byte> {
    if x == 0 then [] else Continued(x / 128) + [128 + x % 128]
  }

  /** The identifier: one byte up to 30, else 31 and the value seven bits at a time, the last byte without top bit. */
  function IdBytes(id: nat, flags: nat): (h: seq<byte>)
    requires flags < 256 && flags % 32 == 0
    ensures |h| >= 1
  {
    if id <= 30 then [id + flags] else [31 + flags] + (Continued(id / 128) + [id % 128])
  }

  /** The length in the short or the long form. */
  function LengthBytes(length: nat): (h: seq<byte>)
    requires length < MAX_LENGTH
    ensures |h| >= 1
  {
    if length < 128 then [length]
    else
      LongForm(length);
      [128 + |ToBE(length)|] + ToBE(length)
  }

  function Header(id: nat, length: nat, flags: nat): (h: seq<byte>)
    requires flags < 256 && flags % 32 == 0 && length < MAX_LENGTH
    ensures |h| >= 2
  {
    IdBytes(id, flags) + LengthBytes(length)
  }

  lemma {:induction false} LongForm(length: nat)
    requires 128 <= length < MAX_LENGTH
    ensures 1 <= |ToBE(length)| <= 3
  {
    ToBELength(length, 3);
    assert Pow256(3) == MAX_LENGTH;
    ToBELength(length, 0);
    assert Pow256(0) == 1;
  }

  /** length >> (8 * n). */
  function Shr8(length: nat, n: nat): nat {
    if n == 0 then length else Shr8(length, n - 1) / 256
  }

  lemma {:induction false} Shr8Bytes(length: nat, n: nat)
    requires n <= |ToBE(length)|
    ensures ToBE(Shr8(length, n)) == ToBE(length)[..|ToBE(length)| - n]
    decreases n
  {
    if n == 0 {
      assert ToBE(length)[..|ToBE(length)|] == ToBE(length);
    } else {
      Shr8Bytes(length, n - 1);
      var m := Shr8(length, n - 1);
      assert ToBE(m) == ToBE(m / 256) + [m % 256];
    }
  }

  /** Byte n of a number, counted from the end. */
  lemma {:induction false} ByteFromEnd(length: nat, n: nat)
    requires n < |ToBE(length)|
    ensures ToBE(length)[|ToBE(length)| - 1 - n] == Shr8(length, n) % 256
    ensures Shr8(length, n) > 0
  {
    Shr8Bytes(length, n);
    var m := Shr8(length, n);
    assert |ToBE(m)| == |ToBE(length)| - n;
    assert ToBE(m)[|ToBE(m)| - 1] == m % 256;
  }

  /** The loop that counts the bytes of a length. */
  method CountBytes(length: nat) returns (n: nat)
    requires 128 <= length < MAX_LENGTH
    ensures n == |ToBE(length)| <= 3
  {
    LongForm(length);
    n := 1;
    while Shr8(length, n) > 0
      invariant 1 <= n <= |ToBE(length)|
      decreases |ToBE(length)| - n
    {
      Shr8Bytes(length, n);
      n := n + 1;
    }
    Shr8Bytes(length, n);
    assert ToBE(0) == [];
  }

  /** *d++ = v, unless there is no destination. */
  method Put(dest: array?<byte>, pos: nat, v: byte)
    requires dest != null ==> pos < dest.Length
    modifies if dest != null then {dest} else {}
    ensures dest != null ==> dest[..pos + 1] == old(dest[..pos]) + [v]
  {
    if dest != null { dest[pos] := v; }
  }

  /** The bytes of a long length, most significant first. */
  method WriteLength(dest: array?<byte>, pos: nat, length: nat, n: nat)
    requires 128 <= length < MAX_LENGTH && n == |ToBE(length)| && (dest != null ==> pos + n <= dest.Length)
    modifies if dest != null then {dest} else {}
    ensures dest != null ==> dest[..pos + n] == old(dest[..pos]) + ToBE(length)
  {
    ghost var t := ToBE(length);
    ghost var was := if dest != null then dest[..pos] else [];
    for i := 0 to n
      invariant dest != null ==> dest[..pos + i] == was + t[..i]
    {
      ByteFromEnd(length, n - 1 - i);
      Put(dest, pos + i, Shr8(length, n - 1 - i) % 256);
      assert t[..i] + [t[i]] == t[..i + 1];
    }
    assert t[..n] == t;
  }

  /** The length, in either form. */
  method PutLength(dest: array?<byte>, pos: nat, length: nat) returns (len: nat)
    requires length < MAX_LENGTH && (dest != null ==> pos + |LengthBytes(length)| <= dest.Length)
    modifies if dest != null then {dest} else {}
    ensures len == |LengthBytes(length)|
    ensures dest != null ==> dest[..pos + len] == old(dest[..pos]) + LengthBytes(length)
  {
    if length < 128 {
      Put(dest, pos, length);
      len := 1;
    } else {
      var n := CountBytes(length);
      Put(dest, pos, 128 + n);
      ghost var was := if dest != null then old(dest[..pos]) else [];
      Assoc(was, [128 + n], ToBE(length));
      WriteLength(dest, pos + 1, length, n);
      len := 1 + n;
    }
  }

  /* ---- long identifiers ---- */

  /** id >> (7 * n). */
  function Shr7(id: nat, n: nat): nat {
    if n == 0 then id else Shr7(id, n - 1) / 128
  }

  lemma {:induction false} Shr7Bytes(x: nat, n: nat)
    requires n <= |Continued(x)|
    ensures Continued(Shr7(x, n)) == Continued(x)[..|Continued(x)| - n]
    decreases n
  {
    if n == 0 {
      assert Continued(x)[..|Continued(x)|] == Continued(x);
    } else {
      Shr7Bytes(x, n - 1);
      var m := Shr7(x, n - 1);
      assert Continued(m) == Continued(m / 128) + [128 + m % 128];
    }
  }

  lemma {:induction false} Shr7FromEnd(x: nat, n: nat)
    requires n < |Continued(x)|
    ensures Shr7(x, n) > 0 && Continued(x)[|Continued(x)| - 1 - n] == 128 + Shr7(x, n) % 128
  {
    Shr7Bytes(x, n);
    var m := Shr7(x, n);
    assert |Continued(m)| == |Continued(x)| - n;
    assert Continued(m)[|Continued(m)| - 1] == 128 + m % 128;
  }

  lemma {:induction false} ContinuedSplit(id: nat)
    requires id > 0
    ensures |Continued(id)| == |Continued(id / 128)| + 1 && Continued(id)[..|Continued(id / 128)|] == Continued(id / 128)
  {
  }

  /** The loop that counts the groups of seven bits. */
  method CountGroups(id: nat) returns (n: nat)
    requires id > 30
    ensures n == |Continued(id)|
  {
    n := 1;
    while Shr7(id, n) > 0
      invariant 1 <= n <= |Continued(id)|
      decreases |Continued(id)| - n
    {
      Shr7Bytes(id, n);
      n := n + 1;
    }
    Shr7Bytes(id, n);
    assert Continued(0) == [];
  }

  /** The groups, the top bit set in all but the last. */
  method WriteGroups(dest: array?<byte>, pos: nat, id: nat, n: nat)
    requires id > 30 && n == |Continued(id)| && (dest != null ==> pos + n <= dest.Length)
    modifies if dest != null then {dest} else {}
    ensures dest != null ==> dest[..pos + n] == old(dest[..pos]) + (Continued(id / 128) + [id % 128])
  {
    ghost var t := Continued(id / 128) + [id % 128];
    ghost var was := if dest != null then dest[..pos] else [];
    ContinuedSplit(id);
    for i := 0 to n
      invariant dest != null ==> dest[..pos + i] == was + t[..i]
    {
      var k := n - 1 - i;
      Shr7FromEnd(id, k);
      if i < n - 1 { assert t[i] == Continued(id)[i]; }
      Put(dest, pos + i, (if k > 0 then 128 else 0) + Shr7(id, k) % 128);
      assert t[..i] + [t[i]] == t[..i + 1];
    }
    assert t[..n] == t;
  }

  method PutId(dest: array?<byte>, pos: nat, id: nat, flags: nat) returns (len: nat)
    requires flags < 256 && flags % 32 == 0 && (dest != null ==> pos + |IdBytes(id, flags)| <= dest.Length)
    modifies if dest != null then {dest} else {}
    ensures len == |IdBytes(id, flags)|
    ensures dest != null ==> dest[..pos + len] == old(dest[..pos]) + IdBytes(id, flags)
  {
    if id <= 30 {
      Put(dest, pos, id + flags);
      len := 1;
    } else {
      Put(dest, pos, 31 + flags);
      var n := CountGroups(id);
      ContinuedSplit(id);
      ghost var was := if dest != null then old(dest[..pos]) else [];
      Assoc(was, [31 + flags], Continued(id / 128) + [id % 128]);
      WriteGroups(dest, pos + 1, id, n);
      len := 1 + n;
    }
  }

  method PutBoth(dest: array?<byte>, pos: nat, id: nat, length: nat, flags: nat, ghost a: seq<byte>, ghost b: seq<byte>)
      returns (len: nat)
    requires flags < 256 && flags % 32 == 0 && length < MAX_LENGTH && a == IdBytes(id, flags) && b == LengthBytes(length)
    requires dest != null ==> pos + |a| + |b| <= dest.Length
    modifies if dest != null then {dest} else {}
    ensures len == |a| + |b|
    ensures dest != null ==> dest[..pos + len] == old(dest[..pos]) + (a + b)
  {
    var n := PutId(dest, pos, id, flags);
    ghost var was := if dest != null then old(dest[..pos]) else [];
    Assoc(was, a, b);
    var m := PutLength(dest, pos + n, length);
    len := n + m;
  }

  /** `ber_write_id_len`: the size it returns without a destination is the size it writes with one. */
  method WriteIdLen(dest: array?<byte>, pos: nat, id: nat, length: nat, flags: nat) returns (len: nat)
    requires id < MAX_ID && flags < 256 && flags % 32 == 0 && length < MAX_LENGTH
    requires dest != null ==> pos + |Header(id, length, flags)| <= dest.Length
    modifies if dest != null then {dest} else {}
    ensures len == |Header(id, length, flags)|
    ensures dest != null ==> dest[..pos + len] == old(dest[..pos]) + Header(id, length, flags)
  {
    len := PutBoth(dest, pos, id, length, flags, IdBytes(id, flags), LengthBytes(length));
  }

  /* ---- reading ---- */

  /** The value of some bytes in an unsigned 32-bit variable. */
  function Load(b: seq<byte>): nat {
    if |b| == 0 then 0 else (Load(b[..|b| - 1]) * 256 + b[|b| - 1]) % 0x1_0000_0000
  }

  lemma {:induction false} LoadSmall(b: seq<byte>)
    requires FromBE(b) < 0x1_0000_0000
    ensures Load(b) == FromBE(b)
    decreases |b|
  {
    if |b| > 0 { LoadSmall(b[..|b| - 1]); }
  }

  /** A long identifier: bytes with the top bit set, from the first on. */
  function LongId(s: seq<byte>, id: nat): Option<(nat, nat)>
    requires |s| > 0
  {
    if s[0] < 128 then Some((id, 1))
    else if |s| == 1 then None
    else
      var r := LongId(s[1..], (id * 128 + s[1] % 128) % 0x1_0000_0000);
      if r.Some? then Some((r.value.0, r.value.1 + 1)) else None
  }

  /** `ber_read_id_len` on what is left of the source; lengths that do not fit an int are refused. */
  function ReadIdLen(s: seq<byte>): Option<Head> {
    if |s| == 0 then None
    else
      var flags := s[0] / 32 * 32;
      var id := ReadId(s);
      if id.None? then None
      else
        var k := id.value.1;
        if k >= |s| then None
        else if s[k] < 128 then Some(Head(id.value.0, s[k], flags, k + 1))
        else
          var n := s[k] - 128;
          if |s| - (k + 1) < n then None
          else
            var length := Load(s[k + 1..k + 1 + n]);
            if length >= 0x8000_0000 then None else Some(Head(id.value.0, length, flags, k + 1 + n))
  }

  /** The identifier: its value and the number of bytes it takes. */
  function ReadId(s: seq<byte>): Option<(nat, nat)>
    requires |s| > 0
  {
    if s[0] % 32 == 31 then LongId(s, 0) else Some((s[0] % 32, 1))
  }

  method Identifier(s: seq<byte>) returns (r: Option<(nat, nat)>)
    requires |s| > 0
    ensures r == ReadId(s)
  {
    var p: nat, id: nat := 0, s[0] % 32;
    if id == 31 {
      id := 0;
      ghost var whole := LongId(s, 0);
      assert s[0..] == s;
      while s[p] >= 128
        invariant 0 <= p < |s|
        invariant var r := LongId(s[p..], id); whole == if r.Some? then Some((r.value.0, r.value.1 + p)) else None
        decreases |s| - p
      {
        assert |s[p..]| == |s| - p && s[p..][0] == s[p];
        p := p + 1;
        if p == |s| { return None; }
        assert s[p - 1..][1..] == s[p..] && s[p - 1..][1] == s[p];
        id := (id * 128 + s[p] as nat % 128) % 0x1_0000_0000;
      }
    }
    r := Some((id, p + 1));
  }

  /** The bytes of a long length. */
  method Length(s: seq<byte>, p: nat, n: nat) returns (length: nat)
    requires p + n <= |s|
    ensures length == Load(s[p..p + n])
  {
    length := 0;
    for i := 0 to n
      invariant length == Load(s[p..p + i])
    {
      assert s[p..p + i + 1][..i] == s[p..p + i];
      length := (length * 256 + s[p + i] as nat) % 0x1_0000_0000;
    }
  }

  /** `ber_read_id_len`. */
  method ReadHead(s: seq<byte>) returns (head: Option<Head>)
    ensures head == ReadIdLen(s)
  {
    if |s| == 0 { return None; }
    var id := Identifier(s);
    if id.None? || id.value.1 >= |s| { return None; }
    var p := id.value.1;
    var length := s[p] as nat;
    p := p + 1;
    if length >= 128 {
      var n := length - 128;
      if |s| - p < n { return None; }
      length := Length(s, p, n);
      p := p + n;
    }
    if length >= 0x8000_0000 { return None; }
    head := Some(Head(id.value.0, length, s[0] / 32 * 32, p));
  }

  function Later(r: Option<(nat, nat)>, n: nat): Option<(nat, nat)> {
    if r.Some? then Some((r.value.0, r.value.1 + n)) else None
  }

  lemma {:induction false} LongIdStep(g: byte, t: seq<byte>, x: nat)
    requires g >= 128 && |t| > 0
    ensures LongId([g] + t, x) == Later(LongId(t, (x * 128 + t[0] % 128) % 0x1_0000_0000), 1)
  {
    assert ([g] + t)[1..] == t;
  }

  lemma {:induction false} Groups(f: byte, x: nat, d: byte, t: seq<byte>)
    requires x > 0 && d as nat == 128 + x % 128
    ensures [f] + Continued(x) + t == [f] + Continued(x / 128) + ([d] + t)
    ensures |Continued(x)| == |Continued(x / 128)| + 1
  {
  }

  lemma {:induction false} SmallGroup(x: nat, d: nat)
    requires 0 < x < MAX_ID && d == 128 + x % 128
    ensures (x / 128 * 128 + d % 128) % 0x1_0000_0000 == x && x / 128 < x
  {
    assert d % 128 == x % 128;
    assert x / 128 * 128 + x % 128 == x;
  }

  /** A long identifier is read group by group, once the byte before has its top bit set. */
  lemma {:induction false} LongIdGroups(f: byte, g: byte, x: nat, t: seq<byte>)
    requires f >= 128 && g >= 128 && x < MAX_ID && |t| > 0
    ensures LongId([f] + Continued(x) + t, 0) == Later(LongId([g] + t, x), |Continued(x)|)
    decreases x
  {
    if x == 0 {
      assert [f] + Continued(x) + t == [f] + t;
      LongIdStep(f, t, 0);
      LongIdStep(g, t, 0);
    } else {
      var d: byte := 128 + x % 128;
      var t' := [d] + t;
      Groups(f, x, d, t);
      SmallGroup(x, d);
      LongIdGroups(f, g, x / 128, t');
      LongIdStep(g, t', x / 128);
      LongIdStep(d, t, x);
      LongIdStep(g, t, x);
    }
  }

  /** The identifier is read back unless it is long and the flags leave the top bit of the first byte clear. */
  lemma {:induction false} ReadIdBack(id: nat, flags: nat, rest: seq<byte>)
    requires id < MAX_ID && flags < 256 && flags % 32 == 0
    ensures var h := IdBytes(id, flags);
            ReadId(h + rest) == if id <= 30 || flags >= 128 then Some((id, |h|)) else Some((0, 1))
  {
    var h := IdBytes(id, flags);
    var s := h + rest;
    assert s[0] == h[0];
    if id > 30 && flags >= 128 {
      var x, y: byte, f: byte := id / 128, id % 128, 31 + flags;
      var t := [y] + rest;
      assert s == [f] + Continued(x) + t;
      LongIdGroups(f, f, x, t);
      assert ([f] + t)[1..] == t && t[1..] == rest;
    }
  }

  lemma {:induction false} MiddleOf(a: seq<byte>, d: byte, m: seq<byte>, rest: seq<byte>)
    ensures var s, k := a + ([d] + m) + rest, |a|;
            s[k] == d && |s| - (k + 1) >= |m| && s[k + 1..k + 1 + |m|] == m
  {
  }

  /** The length after the identifier. */
  lemma {:induction false} ReadLengthBack(a: seq<byte>, length: nat, rest: seq<byte>)
    requires length < MAX_LENGTH && |a| >= 1
    ensures var s, k := a + LengthBytes(length) + rest, |a|;
            if length < 128 then s[k] == length
            else s[k] >= 128 && |s| - (k + 1) >= s[k] - 128 && Load(s[k + 1..k + 1 + (s[k] - 128)]) == length
                 && |LengthBytes(length)| == 1 + (s[k] - 128)
  {
    if length >= 128 {
      var m := ToBE(length);
      LongForm(length);
      FromToBE(length);
      LoadSmall(m);
      MiddleOf(a, 128 + |m|, m, rest);
    }
  }

  /** What was written is read back, whatever follows, exactly if the identifier is at most 30 or the class has the top
      bit set; else the reader takes a long identifier for zero. */
  lemma {:induction false} ReadWrite(id: nat, length: nat, flags: nat, rest: seq<byte>)
    requires id < MAX_ID && flags < 256 && flags % 32 == 0 && length < MAX_LENGTH
    ensures var h := Header(id, length, flags);
            ReadIdLen(h + rest) == Some(Head(id, length, flags, |h|)) <==> id <= 30 || flags >= 128
  {
    var i, l := IdBytes(id, flags), LengthBytes(length);
    var s := Header(id, length, flags) + rest;
    Assoc(i, l, rest);
    ReadIdBack(id, flags, l + rest);
    ReadLengthBack(i, length, rest);
    assert s[0] == i[0] && s[0] / 32 * 32 == flags;
  }
}
