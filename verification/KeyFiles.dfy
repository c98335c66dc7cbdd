/** Private keys through `openssh_write` and `openssh_read` of keyimport.c. */
module KeyFiles {
  import opened Bytes
  import opened Bignum
  import opened Mpint
  import opened KeyDerivation
  import opened KeyImport

  const EXTRA_SIZE: nat := 2000

  /** Private keys; RSA keys of old versions lack p and q. */
  datatype Key = Rsa(e: nat, n: nat, d: nat, pq: Option<(nat, nat)>) | Dss(p: nat, q: nat, g: nat, y: nat, x: nat)

  /** The numbers of a key in the order of its blob. */
  function Fields(k: Key): seq<nat> {
    match k
    case Rsa(e, n, d, pq) => if pq.Some? then [e, n, d, pq.value.0, pq.value.1] else [e, n, d]
    case Dss(p, q, g, y, x) => [p, q, g, y, x]
  }

  function Bodies(ns: seq<nat>): (bs: seq<seq<byte>>)
    ensures |bs| == |ns| && forall i :: 0 <= i < |ns| ==> bs[i] == Body(ns[i])
  {
    seq(|ns|, i requires 0 <= i < |ns| => Body(ns[i]))
  }

  function Name(k: Key): seq<byte> { if k.Rsa? then SSH_RSA else SSH_DSS }

  function Parts(k: Key): seq<seq<byte>> { [Name(k)] + Bodies(Fields(k)) }

  /** A key that the readers and writers have room for and do not find too short. */
  ghost predicate Fits(k: Key) {
    && (forall i :: 0 <= i < |Fields(k)| ==> |Body(Fields(k)[i])| <= BUF_MAX_MPINT)
    && Short(Parts(k)) && |Strings(Parts(k))| <= BLOB_SIZE
    && CountBits(if k.Rsa? then k.n else k.p) >= MIN_KEYLEN
  }

  /* ---- strings in a blob ---- */

  lemma {:induction false} StringsSplit(ss: seq<seq<byte>>, i: nat)
    requires Short(ss) && i < |ss|
    ensures Short(ss[..i]) && Short(ss[..i + 1]) && Short(ss[i + 1..])
    ensures Strings(ss) == Strings(ss[..i]) + Str(ss[i]) + Strings(ss[i + 1..])
    ensures |Strings(ss[..i + 1])| == |Strings(ss[..i])| + 4 + |ss[i]|
    decreases i
  {
    if i == 0 {
      var one := ss[..1];
      assert ss[..0] == [] && [] + Str(ss[0]) == Str(ss[0]) && one[0] == ss[0] && one[1..] == [];
    } else {
      StringsSplit(ss[1..], i - 1);
      assert ss[1..][..i - 1] == ss[..i][1..] && ss[1..][i..] == ss[i + 1..] && ss[1..][..i] == ss[..i + 1][1..];
      Regroup(Str(ss[0]), Strings(ss[1..][..i - 1]), Str(ss[i]), Strings(ss[i + 1..]));
    }
  }

  lemma {:induction false} Regroup(a: seq<byte>, b: seq<byte>, c: seq<byte>, d: seq<byte>)
    ensures a + (b + c + d) == (a + b) + c + d
  {
  }

  /** The blob holds these numbers from string `from` on. */
  ghost predicate Holds(ss: seq<seq<byte>>, from: nat, want: seq<nat>) {
    && Short(ss) && from + |want| <= |ss|
    && forall j :: 0 <= j < |want| ==> ss[from + j] == Body(want[j]) && |Body(want[j])| <= BUF_MAX_MPINT
  }

  lemma {:induction false} NumberAt(ss: seq<seq<byte>>, j: nat, n: nat)
    requires Short(ss) && j < |ss| && ss[j] == Body(n) && |Body(n)| <= BUF_MAX_MPINT
    ensures Short(ss[..j]) && Short(ss[..j + 1])
    ensures GetMpint(Strings(ss), |Strings(ss[..j])|) == Got(n, |Strings(ss[..j + 1])|)
  {
    StringsSplit(ss, j);
    GetPut(n, Strings(ss[..j]), Strings(ss[j + 1..]));
  }

  /** The next mpint. */
  method NextMpint(blob: seq<byte>, pos: nat, ghost ss: seq<seq<byte>>, ghost j: nat, ghost n: nat) returns (m: Got)
    requires Short(ss) && j < |ss| && ss[j] == Body(n) && |Body(n)| <= BUF_MAX_MPINT
    ensures blob == Strings(ss) && pos == |Strings(ss[..j])| ==> m == Got(n, |Strings(ss[..j + 1])|)
  {
    NumberAt(ss, j, n);
    m := GetMpint(blob, pos);
  }

  /** Some mpints, one after another. */
  method GetMpints(blob: seq<byte>, start: nat, count: nat, ghost ss: seq<seq<byte>>, ghost from: nat, ghost want: seq<nat>)
    returns (ns: Option<seq<nat>>, pos: nat)
    requires |want| == count && Holds(ss, from, want)
    ensures ns.Some? ==> |ns.value| == count
    ensures blob == Strings(ss) && start == |Strings(ss[..from])| ==> ns == Some(want) && pos == |Strings(ss[..from + count])|
  {
    ghost var good := blob == Strings(ss) && start == |Strings(ss[..from])|;
    var got := [];
    pos := start;
    for i := 0 to count
      invariant |got| == i && (good ==> got == want[..i] && pos == |Strings(ss[..from + i])|)
    {
      ghost var j := from + i;
      var m := NextMpint(blob, pos, ss, j, want[i]);
      if !m.Got? { return None, 0; }
      got, pos := got + [m.n], m.pos;
      assert want[..i] + [want[i]] == want[..i + 1];
    }
    assert want[..count] == want;
    ns := Some(got);
  }

  /* ---- key blobs ---- */

  /** `buf_put_rsa_priv_key` and `buf_put_dss_priv_key`. */
  method PutPrivKey(k: Key) returns (blob: Option<seq<byte>>)
    requires Short(Parts(k))
    ensures blob == if |Strings(Parts(k))| <= BLOB_SIZE then Some(Strings(Parts(k))) else None
  {
    var ns, ss := Fields(k), Parts(k);
    var out := Str(Name(k));
    assert ss[..1] == [Name(k)] && Strings([Name(k)]) == Str(Name(k)) + [] by { assert [Name(k)][1..] == []; }
    for i := 0 to |ns|
      invariant Short(ss[..i + 1]) && out == Strings(ss[..i + 1])
    {
      NextPart(k, ss, i);
      var m := PutMpint(ns[i]);
      out := out + m;
    }
    assert ss[..|ns| + 1] == ss;
    blob := if |out| <= BLOB_SIZE then Some(out) else None;
  }

  lemma {:induction false} NextPart(k: Key, ss: seq<seq<byte>>, i: nat)
    requires ss == Parts(k) && Short(ss) && i < |Fields(k)|
    ensures Short(ss[..i + 1]) && Short(ss[..i + 2]) && |Body(Fields(k)[i])| <= BLOB_SIZE
    ensures CountBits(Fields(k)[i]) < 0x8000_0000
    ensures Strings(ss[..i + 2]) == Strings(ss[..i + 1]) + Str(Body(Fields(k)[i]))
  {
    assert ss[i + 1] == Body(Fields(k)[i]);
    BodyBits(Fields(k)[i]);
    StringsOn(ss[..i + 1], ss[i + 1]);
    assert ss[..i + 1] + [ss[i + 1]] == ss[..i + 2];
  }

  lemma {:induction false} BodyBits(n: nat)
    requires |Body(n)| <= BLOB_SIZE
    ensures CountBits(n) < 0x8000_0000
  {
    if n > 0 { BodyIsMinimal(n); }
  }

  lemma {:induction false} KeyHolds(k: Key)
    requires Fits(k)
    ensures Holds(Parts(k), 1, Fields(k)) && Strings(Parts(k)[..1]) == Str(Name(k)) && Parts(k)[..|Fields(k)| + 1] == Parts(k)
  {
    var one := Parts(k)[..1];
    assert one[0] == Name(k) && one[1..] == [];
    assert Str(Name(k)) + [] == Str(Name(k));
  }

  /** `buf_get_dss_priv_key`, after `buf_get_priv_key` has seen the name. */
  method GetDssKey(blob: seq<byte>, ghost k: Key) returns (r: Option<Key>)
    requires Fits(k) && k.Dss?
    ensures blob == Strings(Parts(k)) ==> r == Some(k)
  {
    KeyHolds(k);
    var ns, pos := GetMpints(blob, 11, 5, Parts(k), 1, Fields(k));
    if ns.None? || CountBits(ns.value[0]) < MIN_KEYLEN { return None; }
    var v := ns.value;
    r := Some(Dss(v[0], v[1], v[2], v[3], v[4]));
  }

  lemma {:induction false} TwoNumbers(blob: seq<byte>, pos: nat, ss: seq<seq<byte>>, from: nat, want: seq<nat>)
    ensures |want| == 2 && Holds(ss, from, want) && blob == Strings(ss) && pos == |Strings(ss[..from])| ==>
              var p := GetMpint(blob, pos);
              p.Got? && p.n == want[0] && var q := GetMpint(blob, p.pos); q.Got? && q.n == want[1]
  {
    if |want| == 2 && Holds(ss, from, want) {
      var a, b := want[0], want[1];
      assert ss[from + 0] == Body(a) && ss[from + 1] == Body(b);
      NumberAt(ss, from, a);
      NumberAt(ss, from + 1, b);
    }
  }

  /** Two more mpints, if they are there. */
  method GetMoreMpints(blob: seq<byte>, pos: nat, ghost ss: seq<seq<byte>>, ghost from: nat, ghost want: seq<nat>)
    returns (ns: Option<seq<nat>>, end: nat)
    ensures ns.Some? ==> |ns.value| == 2
    ensures |want| == 2 && Holds(ss, from, want) && blob == Strings(ss) && pos == |Strings(ss[..from])| ==> ns == Some(want)
  {
    end := 0;
    TwoNumbers(blob, pos, ss, from, want);
    var p := GetMpint(blob, pos);
    if !p.Got? { return None, 0; }
    var q := GetMpint(blob, p.pos);
    if !q.Got? { return None, 0; }
    ns, end := Some([p.n, q.n]), q.pos;
    assert |want| == 2 ==> want == [want[0], want[1]];
  }

  /** `buf_get_rsa_priv_key`: p and q are missing exactly if the blob ends after d. */
  method GetRsaKey(blob: seq<byte>, ghost k: Key) returns (r: Option<Key>)
    requires Fits(k) && k.Rsa?
    ensures blob == Strings(Parts(k)) ==> r == Some(k)
  {
    ghost var ss, fs := Parts(k), Fields(k);
    KeyHolds(k);
    var ns, pos := GetMpints(blob, 11, 3, ss, 1, fs[..3]);
    if ns.None? || CountBits(ns.value[1]) < MIN_KEYLEN { return None; }
    var v := ns.value;
    if k.pq.Some? { StringsSplit(ss, 4); }
    if pos == |blob| { return Some(Rsa(v[0], v[1], v[2], None)); }
    ghost var more: nat := if k.pq.Some? then 4 else 0;
    var ms, end := GetMoreMpints(blob, pos, ss, more, if k.pq.Some? then fs[3..] else []);
    if ms.None? { return None; }
    r := Some(Rsa(v[0], v[1], v[2], Some((ms.value[0], ms.value[1]))));
  }

  /* ---- OpenSSH keys ---- */

  /** The strings of a key blob after its name, as `openssh_write` takes them out. */
  method GetStrings(blob: seq<byte>, ghost ss: seq<seq<byte>>, count: nat) returns (bs: seq<seq<byte>>)
    requires Short(ss) && |ss| == count + 1 && |ss[0]| == 7 && blob == Strings(ss)
    ensures bs == ss[1..]
  {
    var pos := 11;
    var one := ss[..1];
    assert one[0] == ss[0] && one[1..] == [];
    assert Strings(ss[..1]) == Str(ss[0]) + [];
    bs := [];
    for i := 0 to count
      invariant bs == ss[1..i + 1] && pos == |Strings(ss[..i + 1])|
    {
      StringsSplit(ss, i + 1);
      var len := StringAt(blob, pos, Strings(ss[..i + 1]), ss[i + 1], Strings(ss[i + 2..]));
      bs := bs + [blob[pos + 4..pos + 4 + len]];
      pos := pos + 4 + len;
    }
  }

  /** buf_getint for the length of a string. */
  method StringAt(blob: seq<byte>, pos: nat, ghost before: seq<byte>, ghost s: seq<byte>, ghost after: seq<byte>)
    returns (len: nat)
    requires |s| < 0x1_0000_0000 && blob == before + Str(s) + after && pos == |before|
    ensures len == |s| && pos + 4 + len <= |blob| && blob[pos + 4..pos + 4 + len] == s
  {
    LoadStore32(|s|, s + after);
    assert blob[pos..] == Store32(|s|) + (s + after);
    len := Load32(blob[pos..]);
  }

  /** What `openssh_write` needs beyond the key itself: p and q, of which q has an inverse modulo p, and room for
      the three numbers it computes. */
  ghost predicate Convertible(k: Key) {
    k.Rsa? ==>
      && k.pq.Some? && k.pq.value.0 > 1 && k.pq.value.1 > 1 && InvMod(k.pq.value.1, k.pq.value.0).Some?
      && ExtraSize(k.d, k.pq.value.0, k.pq.value.1) <= EXTRA_SIZE
  }

  function ExtraSize(d: nat, p: nat, q: nat): nat
    requires p > 1 && q > 1 && InvMod(q, p).Some?
  {
    12 + |Body(d % (p - 1))| + |Body(d % (q - 1))| + |Body(InvMod(q, p).value)|
  }

  /** d mod (p-1), d mod (q-1) and the inverse of q modulo p, as mpints. */
  method ExtraNumbers(d: nat, p: nat, q: nat) returns (r: Option<seq<seq<byte>>>)
    ensures r.Some? <==> p > 1 && q > 1 && InvMod(q, p).Some? && ExtraSize(d, p, q) <= EXTRA_SIZE
    ensures r.Some? ==> |r.value| == 3 && Short(r.value)
    ensures r.Some? ==> r.value == [Body(d % (p - 1)), Body(d % (q - 1)), Body(InvMod(q, p).value)]
  {
    if p < 2 || q < 2 { return None; }
    var dmp1, dmq1, iqmp := d % (p - 1), d % (q - 1), InvMod(q, p);
    if iqmp.None? { return None; }
    var a, b, c := Body(dmp1), Body(dmq1), Body(iqmp.value);
    if 12 + |a| + |b| + |c| > EXTRA_SIZE { return None; }
    r := Some([a, b, c]);
  }

  /** The byte strings of the INTEGERs of an OpenSSH key: a version number, then n, e, d, p, q and three more for
      RSA, or p, q, g, y, x. */
  ghost predicate NumbersOf(k: Key, bs: seq<seq<byte>>) {
    && Short(bs) && |bs| == (if k.Rsa? then 9 else 6) && bs[0] == [0]
    && (if k.Rsa? then k.pq.Some? && bs[1..6] == Bodies([k.n, k.e, k.d, k.pq.value.0, k.pq.value.1])
        else bs[1..] == Bodies(Fields(k)))
  }

  lemma {:induction false} RsaOrder(k: Key, s: seq<seq<byte>>, x: seq<seq<byte>>, bs: seq<seq<byte>>)
    requires k.Rsa? && k.pq.Some? && s == Bodies(Fields(k)) && Short(s) && |x| == 3 && Short(x)
    requires bs == [[0], s[1], s[0], s[2], s[3], s[4], x[0], x[1], x[2]]
    ensures NumbersOf(k, bs)
  {
    var w := Bodies([k.n, k.e, k.d, k.pq.value.0, k.pq.value.1]);
    assert w[0] == s[1] && w[1] == s[0] && w[2] == s[2] && w[3] == s[3] && w[4] == s[4];
    assert bs[1..6] == [s[1], s[0], s[2], s[3], s[4]];
  }

  lemma {:induction false} DssOrder(k: Key, s: seq<seq<byte>>)
    requires k.Dss? && s == Bodies(Fields(k)) && Short(s)
    ensures NumbersOf(k, [[0]] + s)
  {
    assert ([[0]] + s)[1..] == s;
  }

  /** The numbers of a key, taken from its blob. */
  method KeyStrings(k: Key) returns (s: seq<seq<byte>>)
    requires Fits(k)
    ensures s == Bodies(Fields(k)) && Short(s)
  {
    var blob := PutPrivKey(k);
    s := GetStrings(blob.value, Parts(k), |Fields(k)|);
    assert Parts(k)[1..] == Bodies(Fields(k));
  }

  method Numbers(k: Key) returns (bs: Option<seq<seq<byte>>>)
    requires Fits(k)
    ensures bs.Some? <==> Convertible(k)
    ensures bs.Some? ==> NumbersOf(k, bs.value)
  {
    bs := None;
    if k.Dss? {
      var s := KeyStrings(k);
      DssOrder(k, s);
      bs := Some([[0]] + s);
    } else if k.pq.Some? {
      var s := KeyStrings(k);
      var extra := ExtraNumbers(k.d, k.pq.value.0, k.pq.value.1);
      if extra.Some? {
        var x := extra.value;
        bs := Some([[0], s[1], s[0], s[2], s[3], s[4], x[0], x[1], x[2]]);
        RsaOrder(k, s, x, bs.value);
      }
    }
  }

  /** Reading what was written gives back the key blob: the order of n and e is undone. */
  lemma {:induction false} OrderUndone(k: Key, bs: seq<seq<byte>>)
    requires NumbersOf(k, bs)
    ensures Collected(k.Rsa?, bs) == Parts(k)
  {
    if k.Rsa? {
      var w := Bodies([k.n, k.e, k.d, k.pq.value.0, k.pq.value.1]);
      assert bs[1] == w[0] && bs[2] == w[1] && bs[3] == w[2] && bs[4] == w[3] && bs[5] == w[4];
    } else {
      assert bs[1..6] == bs[1..];
    }
  }

  /** A key converted to OpenSSH form and back is the same key. */
  method WriteAndRead(k: Key) returns (written: Option<seq<byte>>, back: Option<Key>)
    requires Fits(k)
    ensures written.Some? <==> Convertible(k)
    ensures written.Some? ==> back == Some(k)
  {
    var bs := Numbers(k);
    if bs.None? { return None, None; }
    var out := WriteBlob(bs.value);
    written := Some(out[..]);
    var r := ReadBlob(k.Rsa?, out[..]);
    ContentOfSequence(bs.value);
    OrderUndone(k, bs.value);
    assert r == Ok(Strings(Parts(k)));
    if k.Rsa? { back := GetRsaKey(r.blob, k); } else { back := GetDssKey(r.blob, k); }
  }
}
