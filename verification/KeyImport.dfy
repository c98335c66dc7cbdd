/** Conversion of private keys in keyimport.c: the RSA and DSA paths of `openssh_write` and `openssh_read`, from
    and to the key blobs of rsa.c and dss.c. */
module KeyImport {
  import opened Bytes
  import opened Ber
  import opened KeyDerivation

  const BLOB_SIZE: nat := 3000
  const MIN_KEYLEN: nat := 512
  const SSH_RSA: seq<byte> := [115, 115, 104, 45, 114, 115, 97]
  const SSH_DSS: seq<byte> := [115, 115, 104, 45, 100, 115, 115]

  /* ---- strings one after another ---- */

  ghost predicate Short(bs: seq<seq<byte>>) { forall i :: 0 <= i < |bs| ==> |bs[i]| <= BLOB_SIZE }

  /** SSH strings, as in a key blob. */
  function Strings(bs: seq<seq<byte>>): seq<byte>
    requires Short(bs)
  {
    if |bs| == 0 then [] else Str(bs[0]) + Strings(bs[1..])
  }

  lemma {:induction false} StringsOn(bs: seq<seq<byte>>, b: seq<byte>)
    requires Short(bs) && |b| <= BLOB_SIZE
    ensures Short(bs + [b]) && Strings(bs + [b]) == Strings(bs) + Str(b)
    decreases |bs|
  {
    if |bs| == 0 {
      assert bs + [b] == [b] && [b][1..] == [];
    } else {
      StringsOn(bs[1..], b);
      assert (bs + [b])[1..] == bs[1..] + [b];
    }
  }

  /** An ASN.1 INTEGER. */
  function Item(b: seq<byte>): seq<byte>
    requires |b| <= BLOB_SIZE
  {
    Header(2, |b|, 0) + b
  }

  /** ASN.1 INTEGERs, as in an OpenSSH key. */
  function Integers(bs: seq<seq<byte>>): seq<byte>
    requires Short(bs)
  {
    if |bs| == 0 then [] else Item(bs[0]) + Integers(bs[1..])
  }

  lemma {:induction false} IntegersOn(bs: seq<seq<byte>>, b: seq<byte>)
    requires Short(bs) && |b| <= BLOB_SIZE
    ensures Short(bs + [b]) && Integers(bs + [b]) == Integers(bs) + Item(b)
    decreases |bs|
  {
    if |bs| == 0 {
      assert bs + [b] == [b] && [b][1..] == [];
    } else {
      IntegersOn(bs[1..], b);
      assert (bs + [b])[1..] == bs[1..] + [b] && (bs + [b])[0] == bs[0];
      Assoc(Item(bs[0]), Integers(bs[1..]), Item(b));
    }
  }

  /** The whole OpenSSH key: a SEQUENCE of INTEGERs. */
  function Sequence(bs: seq<seq<byte>>): seq<byte>
    requires Short(bs) && |Integers(bs)| < MAX_LENGTH
  {
    Header(16, |Integers(bs)|, CONSTRUCTED) + Integers(bs)
  }

  /* ---- writing ---- */

  /** The first pass: add up the sizes. */
  method Size(bs: seq<seq<byte>>) returns (len: nat)
    requires Short(bs)
    ensures len == |Integers(bs)|
  {
    len := 0;
    for i := 0 to |bs|
      invariant len == |Integers(bs[..i])|
    {
      assert bs[..i] + [bs[i]] == bs[..i + 1];
      IntegersOn(bs[..i], bs[i]);
      var n := WriteIdLen(null, 0, 2, |bs[i]|, 0);
      len := len + n + |bs[i]|;
    }
    assert bs[..|bs|] == bs;
  }

  lemma {:induction false} IntegersBound(bs: seq<seq<byte>>)
    requires Short(bs)
    ensures |Integers(bs)| <= 3006 * |bs|
    decreases |bs|
  {
    if |bs| > 0 {
      IntegersBound(bs[1..]);
      ItemBound(bs[0]);
    }
  }

  lemma {:induction false} ItemBound(b: seq<byte>)
    requires |b| <= BLOB_SIZE
    ensures |Item(b)| <= |b| + 6
  {
    if |b| >= 128 { LongForm(|b|); }
  }

  /** Header and contents of one INTEGER. */
  method WriteItem(out: array<byte>, pos: nat, b: seq<byte>) returns (pos': nat)
    requires |b| <= BLOB_SIZE && pos + |Item(b)| <= out.Length
    modifies out
    ensures pos' == pos + |Item(b)| && out[..pos'] == old(out[..pos]) + Item(b)
  {
    var n := WriteIdLen(out, pos, 2, |b|, 0);
    Copy(out, pos + n, b, |b|);
    pos' := pos + n + |b|;
    assert out[..pos'] == out[..pos + n] + out[pos + n..pos'];
    assert b[..|b|] == b;
  }

  /** The two passes of `openssh_write`: the space computed first is exactly what is filled then. */
  method WriteBlob(bs: seq<seq<byte>>) returns (out: array<byte>)
    requires Short(bs) && |bs| <= 9
    ensures |Integers(bs)| < MAX_LENGTH && out[..] == Sequence(bs)
  {
    IntegersBound(bs);
    var seqlen := Size(bs);
    var head := WriteIdLen(null, 0, 16, seqlen, CONSTRUCTED);
    out := new byte[head + seqlen](i => 0);
    var pos := WriteIdLen(out, 0, 16, seqlen, CONSTRUCTED);
    ghost var h := Header(16, seqlen, CONSTRUCTED);
    assert bs[..0] == [] && h + Integers([]) == h;
    for i := 0 to |bs|
      invariant pos == |h| + |Integers(bs[..i])| <= out.Length && out[..pos] == h + Integers(bs[..i])
    {
      assert bs[..i] + [bs[i]] == bs[..i + 1];
      IntegersOn(bs[..i], bs[i]);
      IntegersPrefix(bs, i + 1);
      Assoc(h, Integers(bs[..i]), Item(bs[i]));
      pos := WriteItem(out, pos, bs[i]);
    }
    assert bs[..|bs|] == bs;
  }

  lemma {:induction false} IntegersPrefix(bs: seq<seq<byte>>, i: nat)
    requires Short(bs) && i <= |bs|
    ensures |Integers(bs[..i])| <= |Integers(bs)|
    decreases i
  {
    if i > 0 {
      IntegersPrefix(bs[1..], i - 1);
      assert bs[..i][1..] == bs[1..][..i - 1];
    }
  }

  /* ---- reading ---- */

  datatype Read = Ok(blob: seq<byte>) | Bad | Exit

  /** One INTEGER at the beginning of what is left: its contents and the bytes it takes. */
  function FirstItem(s: seq<byte>): (r: Option<(seq<byte>, nat)>)
    ensures r.Some? ==> r.value.1 <= |s|
  {
    var head := ReadIdLen(s);
    if head.None? || head.value.id != 2 || |s| - head.value.used < head.value.length then None
    else Some((s[head.value.used..head.value.used + head.value.length], head.value.used + head.value.length))
  }

  /** The first n INTEGERs. */
  function Items(s: seq<byte>, n: nat): Option<seq<seq<byte>>>
    decreases n
  {
    if n == 0 then Some([])
    else
      var first := FirstItem(s);
      if first.None? then None else Before([first.value.0], Items(s[first.value.1..], n - 1))
  }

  function Before(got: seq<seq<byte>>, rest: Option<seq<seq<byte>>>): Option<seq<seq<byte>>> {
    if rest.Some? then Some(got + rest.value) else None
  }

  lemma {:induction false} BeforeTwice(a: seq<seq<byte>>, b: seq<seq<byte>>, r: Option<seq<seq<byte>>>)
    ensures Before(a, Before(b, r)) == Before(a + b, r)
  {
    if r.Some? { Assoc(a, b, r.value); }
  }

  lemma {:induction false} ItemRead(b: seq<byte>, rest: seq<byte>)
    requires |b| <= BLOB_SIZE
    ensures var s := Item(b) + rest;
            FirstItem(s) == Some((b, |Item(b)|)) && s[|Item(b)|..] == rest
  {
    var h := Header(2, |b|, 0);
    ReadWrite(2, |b|, 0, b + rest);
    assert Item(b) + rest == h + (b + rest);
  }

  /** `buf_putstring` into the buffer for the key blob; the session ends if it is full. */
  function Append(r: Read, b: seq<byte>): Read {
    if r.Ok? && |b| <= BLOB_SIZE && |r.blob| + 4 + |b| <= BLOB_SIZE then Ok(r.blob + Str(b))
    else if r.Ok? then Exit else r
  }

  /** The INTEGERs written are the INTEGERs read. */
  lemma {:induction false} ItemsOfIntegers(bs: seq<seq<byte>>)
    requires Short(bs)
    ensures Items(Integers(bs), |bs|) == Some(bs)
    decreases |bs|
  {
    if |bs| > 0 {
      ItemRead(bs[0], Integers(bs[1..]));
      ItemsOfIntegers(bs[1..]);
      assert [bs[0]] + bs[1..] == bs;
    }
  }

  /** The strings put after some INTEGERs: an OpenSSH RSA key has n before e, a Dropbear key has e before n. */
  function Collected(rsa: bool, bs: seq<seq<byte>>): seq<seq<byte>> {
    if !rsa then [SSH_DSS] + (if |bs| <= 1 then [] else bs[1..])
    else if |bs| <= 2 then [SSH_RSA]
    else [SSH_RSA, bs[2], bs[1]] + bs[3..Min(|bs|, 6)]
  }

  /** What the loop does with INTEGER i. */
  function PutInteger(rsa: bool, i: nat, r: Read, b: seq<byte>, modulus: seq<byte>): Read {
    if i == 0 then (if b == [0] then r else Bad)
    else if !rsa then Append(r, b)
    else if i == 2 then Append(Append(r, b), modulus)
    else if 3 <= i <= 5 then Append(r, b)
    else r
  }

  ghost predicate Room(ss: seq<seq<byte>>) { Short(ss) && |Strings(ss)| <= BLOB_SIZE }

  lemma {:induction false} AppendBlob(ss: seq<seq<byte>>, b: seq<byte>)
    requires Room(ss)
    ensures Append(Ok(Strings(ss)), b) == if Room(ss + [b]) then Ok(Strings(ss + [b])) else Exit
  {
    if |b| <= BLOB_SIZE { StringsOn(ss, b); } else { assert (ss + [b])[|ss|] == b; }
  }

  /** More strings need more room. */
  lemma {:induction false} RoomPrefix(ss: seq<seq<byte>>, tt: seq<seq<byte>>)
    requires ss <= tt && Room(tt)
    ensures Room(ss)
    decreases |ss|
  {
    assert forall i :: 0 <= i < |ss| ==> ss[i] == tt[i];
    if |ss| > 0 { StringsPrefix(ss, tt); }
  }

  lemma {:induction false} StringsPrefix(ss: seq<seq<byte>>, tt: seq<seq<byte>>)
    requires ss <= tt && Short(ss) && Short(tt)
    ensures |Strings(ss)| <= |Strings(tt)|
    decreases |ss|
  {
    if |ss| > 0 {
      assert ss[0] == tt[0] && ss[1..] <= tt[1..];
      StringsPrefix(ss[1..], tt[1..]);
    }
  }

  lemma {:induction false} CollectedGrows(rsa: bool, a: seq<seq<byte>>, bs: seq<seq<byte>>)
    requires a <= bs
    ensures Collected(rsa, a) <= Collected(rsa, bs)
  {
    assert a == bs[..|a|];
  }

  lemma {:induction false} RoomTwo(ss: seq<seq<byte>>, b: seq<byte>, c: seq<byte>)
    requires Room(ss)
    ensures Append(Append(Ok(Strings(ss)), b), c) ==
            if Room(ss + [b, c]) then Ok(Strings(ss + [b, c])) else Exit
  {
    AppendBlob(ss, b);
    assert ss + [b] + [c] == ss + [b, c];
    if Room(ss + [b]) { AppendBlob(ss + [b], c); } else if Room(ss + [b, c]) { RoomPrefix(ss + [b], ss + [b, c]); }
  }

  /** One more INTEGER. */
  lemma {:induction false} NextCollected(rsa: bool, got: seq<seq<byte>>, b: seq<byte>, modulus: seq<byte>)
    requires Room(Collected(rsa, got)) && (|got| >= 2 ==> modulus == got[1])
    ensures var now := got + [b];
            PutInteger(rsa, |got|, Ok(Strings(Collected(rsa, got))), b, modulus) ==
            if |got| == 0 && b != [0] then Bad
            else if Room(Collected(rsa, now)) then Ok(Strings(Collected(rsa, now))) else Exit
  {
    var i, c, d := |got|, Collected(rsa, got), Collected(rsa, got + [b]);
    if rsa && i == 2 {
      RoomTwo(c, b, modulus);
      assert d == c + [b, modulus];
    } else if (!rsa && i >= 1) || (rsa && 3 <= i <= 5) {
      AppendBlob(c, b);
      assert d == c + [b];
    } else {
      assert d == c;
    }
  }

  /** What makes a list of INTEGERs a key: version 0, and room for the key blob. */
  ghost predicate Importable(rsa: bool, bs: seq<seq<byte>>) {
    |bs| > 0 && bs[0] == [0] && Room(Collected(rsa, bs))
  }

  /** Where the loop stands: `got` has been read, `rest` is left, and the key blob holds what `got` calls for. */
  ghost predicate Underway(rsa: bool, its: Option<seq<seq<byte>>>, got: seq<seq<byte>>, rest: seq<byte>, more: nat, r: Read,
                           modulus: seq<byte>) {
    && its == Before(got, Items(rest, more)) && (|got| > 0 ==> got[0] == [0])
    && Room(Collected(rsa, got)) && r == Ok(Strings(Collected(rsa, got))) && (|got| >= 2 ==> modulus == got[1])
  }

  lemma {:induction false} ReadOne(rsa: bool, its: Option<seq<seq<byte>>>, got: seq<seq<byte>>, rest: seq<byte>, more: nat,
                                   r: Read, modulus: seq<byte>)
    requires Underway(rsa, its, got, rest, more, r, modulus) && more > 0
    ensures var item := FirstItem(rest);
            if item.None? then its == None
            else
              var b := item.value.0;
              var m := if |got| == 1 then b else modulus;
              var r' := PutInteger(rsa, |got|, r, b, m);
              if r'.Ok? then Underway(rsa, its, got + [b], rest[item.value.1..], more - 1, r', m)
              else its.None? || !Importable(rsa, its.value)
  {
    var item := FirstItem(rest);
    if item.Some? {
      var b := item.value.0;
      BeforeTwice(got, [b], Items(rest[item.value.1..], more - 1));
      NextCollected(rsa, got, b, if |got| == 1 then b else modulus);
      if its.Some? && !Importable(rsa, got + [b]) { NotImportable(rsa, got + [b], its.value); }
    }
  }

  /** The loop over the INTEGERs: a key blob exactly if all are there and make a key. */
  method ReadIntegers(rsa: bool, s: seq<byte>) returns (r: Read)
    ensures var its := Items(s, if rsa then 9 else 6);
            && (r.Ok? <==> its.Some? && Importable(rsa, its.value))
            && (r.Ok? ==> r.blob == Strings(Collected(rsa, its.value)))
  {
    var n := if rsa then 9 else 6;
    r := Append(Ok([]), if rsa then SSH_RSA else SSH_DSS);
    StartBlob(rsa);
    var rest, modulus := s, [];
    ghost var its, got := Items(s, n), [];
    if its.Some? { assert [] + its.value == its.value; }
    for i := 0 to n
      invariant |got| == i && Underway(rsa, its, got, rest, n - i, r, modulus)
    {
      r, rest, modulus, got := NextInteger(rsa, i, rest, r, modulus, its, got, n - i);
      if !r.Ok? { return; }
    }
    assert got + [] == got;
  }

  /** One round of the loop. */
  method NextInteger(rsa: bool, i: nat, rest: seq<byte>, r: Read, modulus: seq<byte>, ghost its: Option<seq<seq<byte>>>,
                     ghost got: seq<seq<byte>>, ghost more: nat)
    returns (r': Read, rest': seq<byte>, modulus': seq<byte>, ghost got': seq<seq<byte>>)
    requires Underway(rsa, its, got, rest, more, r, modulus) && more > 0 && i == |got|
    ensures if r'.Ok? then |got'| == i + 1 && Underway(rsa, its, got', rest', more - 1, r', modulus')
            else its.None? || !Importable(rsa, its.value)
  {
    ReadOne(rsa, its, got, rest, more, r, modulus);
    var item := FirstItem(rest);
    if item.None? { return Bad, rest, modulus, got; }
    modulus' := if i == 1 then item.value.0 else modulus;
    r' := PutInteger(rsa, i, r, item.value.0, modulus');
    rest' := rest[item.value.1..];
    got' := got + [item.value.0];
  }

  lemma {:induction false} NotImportable(rsa: bool, got: seq<seq<byte>>, bs: seq<seq<byte>>)
    requires got <= bs && |got| > 0 && !Importable(rsa, got)
    ensures !Importable(rsa, bs)
  {
    CollectedGrows(rsa, got, bs);
    if Room(Collected(rsa, bs)) { RoomPrefix(Collected(rsa, got), Collected(rsa, bs)); }
  }

  /** The INTEGERs of a blob: those inside a SEQUENCE that is all there. */
  function Content(blob: seq<byte>, n: nat): Option<seq<seq<byte>>> {
    var head := ReadIdLen(blob);
    if head.None? || head.value.id != 16 || |blob| - head.value.used < head.value.length then None
    else Items(blob[head.value.used..], n)
  }

  /** The part of `openssh_read` that turns the OpenSSH key into a key blob, for any blob whatever. */
  method ReadBlob(rsa: bool, blob: seq<byte>) returns (r: Read)
    ensures var its := Content(blob, if rsa then 9 else 6);
            && (r.Ok? <==> its.Some? && Importable(rsa, its.value))
            && (r.Ok? ==> r.blob == Strings(Collected(rsa, its.value)))
  {
    var head := ReadHead(blob);
    if head.None? || head.value.id != 16 || |blob| - head.value.used < head.value.length { return Bad; }
    r := ReadIntegers(rsa, blob[head.value.used..]);
  }

  /** What was written is what is read. */
  lemma {:induction false} ContentOfSequence(bs: seq<seq<byte>>)
    requires Short(bs) && |Integers(bs)| < MAX_LENGTH
    ensures Content(Sequence(bs), |bs|) == Some(bs)
  {
    ReadWrite(16, |Integers(bs)|, CONSTRUCTED, Integers(bs));
    ItemsOfIntegers(bs);
    var h := Header(16, |Integers(bs)|, CONSTRUCTED);
    assert Sequence(bs)[|h|..] == Integers(bs);
  }

  lemma {:induction false} StartBlob(rsa: bool)
    ensures Room(Collected(rsa, [])) && Append(Ok([]), if rsa then SSH_RSA else SSH_DSS) == Ok(Strings(Collected(rsa, [])))
  {
    var b := if rsa then SSH_RSA else SSH_DSS;
    assert Collected(rsa, []) == [b];
    assert [] + Str(b) == Str(b);
    var one := Collected(rsa, []);
    assert one[0] == b && one[1..] == [];
    assert Strings(one) == Str(b) + [];
  }
}
