/** Key derivation of common-kex.c: `hashkeys` and `gen_new_keys`, section 7.2 of RFC 4253. */
module KeyDerivation {
  import opened Bytes

  const MAX_IV_LEN: nat := 20
  const MAX_KEY_LEN: nat := 32

  /** A hash function with results of `size` bytes. */
  ghost predicate HashOf(hash: seq<byte> -> seq<byte>, size: nat) {
    size > 0 && forall m :: |hash(m)| == size
  }

  /** K1 || ... || Kn, where K1 = HASH(K || H || X || session_id) and each further block hashes K || H and all
      blocks so far; `common` is K || H. */
  function Blocks(hash: seq<byte> -> seq<byte>, common: seq<byte>, x: byte, session: seq<byte>, n: nat): seq<byte> {
    if n == 0 then []
    else if n == 1 then hash(common + [x] + session)
    else
      var sofar := Blocks(hash, common, x, session, n - 1);
      sofar + hash(common + sofar)
  }

  lemma {:induction false} BlocksLength(hash: seq<byte> -> seq<byte>, size: nat, common: seq<byte>, x: byte,
                                        session: seq<byte>, n: nat)
    requires HashOf(hash, size)
    ensures |Blocks(hash, common, x, session, n)| == n * size
    decreases n
  {
    if n > 1 { BlocksLength(hash, size, common, x, session, n - 1); }
  }

  /** More blocks only add to the end. */
  lemma {:induction false} BlocksGrow(hash: seq<byte> -> seq<byte>, common: seq<byte>, x: byte, session: seq<byte>,
                                      m: nat, n: nat)
    requires 1 <= m <= n
    ensures Blocks(hash, common, x, session, m) <= Blocks(hash, common, x, session, n)
    decreases n
  {
    if m < n { BlocksGrow(hash, common, x, session, m, n - 1); }
  }

  /** The first `len` bytes of K1 || K2 || ... for a letter. */
  function Derive(hash: seq<byte> -> seq<byte>, common: seq<byte>, x: byte, session: seq<byte>, len: nat): seq<byte> {
    var b := Blocks(hash, common, x, session, len + 1);
    if len <= |b| then b[..len] else b
  }

  /** Any beginning of enough blocks is what the definition says. */
  lemma {:induction false} PrefixIsDerive(hash: seq<byte> -> seq<byte>, size: nat, common: seq<byte>, x: byte,
                                          session: seq<byte>, n: nat, out: seq<byte>)
    requires HashOf(hash, size) && n >= 1 && out <= Blocks(hash, common, x, session, n)
    ensures out == Derive(hash, common, x, session, |out|)
  {
    var m := |out| + 1;
    BlocksLength(hash, size, common, x, session, m);
    AtLeast(m, size);
    if m <= n { BlocksGrow(hash, common, x, session, m, n); } else { BlocksGrow(hash, common, x, session, n, m); }
  }

  lemma {:induction false} AtLeast(m: nat, size: nat)
    requires size > 0
    ensures m * size >= m
  {
  }

  /** memcpy of the first n bytes of `src` to `out` from `pos` on. */
  method Copy(out: array<byte>, pos: nat, src: seq<byte>, n: nat)
    requires n <= |src| && pos + n <= out.Length
    modifies out
    ensures out[..pos] == old(out[..pos]) && out[pos..pos + n] == src[..n]
  {
    for i := 0 to n
      invariant out[..pos] == old(out[..pos]) && out[pos..pos + i] == src[..i]
    {
      out[pos + i] := src[i];
    }
  }

  lemma {:induction false} NextBlock(a: seq<byte>, b: seq<byte>, out: seq<byte>, k: nat)
    requires k <= |b| && |a| + k <= |out| && out[..|a|] == a && out[|a|..|a| + k] == b[..k]
    ensures out[..|a| + k] == (a + b)[..|a| + k]
  {
    assert out[..|a| + k] == out[..|a|] + out[|a|..|a| + k];
  }

  /** One round of the loop: the next block, or what there is room for. */
  method AddBlock(out: array<byte>, offset: nat, hash: seq<byte> -> seq<byte>, size: nat, common: seq<byte>, ghost x: byte,
                  ghost session: seq<byte>, ghost n: nat)
    requires HashOf(hash, size) && n >= 1 && offset < out.Length && out[..offset] == Blocks(hash, common, x, session, n)
    modifies out
    ensures var next := Blocks(hash, common, x, session, n + 1);
            |next| == offset + size && out[..Min(offset + size, out.Length)] == next[..Min(offset + size, out.Length)]
  {
    var tmpout := hash(common + out[..offset]);
    var k := Min(out.Length - offset, size);
    Copy(out, offset, tmpout, k);
    NextBlock(Blocks(hash, common, x, session, n), tmpout, out[..], k);
  }

  /** `hashkeys` fills the output with the beginning of K1 || K2 || ..., whatever its length. */
  method HashKeys(out: array<byte>, hash: seq<byte> -> seq<byte>, size: nat, common: seq<byte>, x: byte, session: seq<byte>)
    returns (ghost n: nat)
    requires HashOf(hash, size)
    modifies out
    ensures n >= 1 && out[..] <= Blocks(hash, common, x, session, n)
    ensures out[..] == Derive(hash, common, x, session, out.Length)
  {
    var tmpout := hash(common + [x] + session);
    Copy(out, 0, tmpout, Min(size, out.Length));
    n := 1;
    var offset := size;
    while offset < out.Length
      invariant n >= 1 && offset == |Blocks(hash, common, x, session, n)|
      invariant out[..Min(offset, out.Length)] == Blocks(hash, common, x, session, n)[..Min(offset, out.Length)]
      decreases out.Length - offset
    {
      AddBlock(out, offset, hash, size, common, x, session, n);
      offset := offset + size;
      n := n + 1;
    }
    assert out[..] == out[..out.Length];
    PrefixIsDerive(hash, size, common, x, session, n, out[..]);
  }

  /* ---- who uses which key ---- */

  /** What one direction uses. */
  datatype Direction = Direction(iv: seq<byte>, key: seq<byte>, mackey: seq<byte>)

  datatype KeyContext = KeyContext(trans: Direction, recv: Direction)

  /** Which letters a side uses: A to F of section 7.2 of RFC 4253, as client to server or server to client. */
  function KeysOf(client: bool, hash: seq<byte> -> seq<byte>, common: seq<byte>, session: seq<byte>,
                  transMac: nat, recvMac: nat): KeyContext {
    var c2s := (mac: nat) => Direction(Derive(hash, common, 65, session, MAX_IV_LEN),
                                       Derive(hash, common, 67, session, MAX_KEY_LEN),
                                       Derive(hash, common, 69, session, mac));
    var s2c := (mac: nat) => Direction(Derive(hash, common, 66, session, MAX_IV_LEN),
                                       Derive(hash, common, 68, session, MAX_KEY_LEN),
                                       Derive(hash, common, 70, session, mac));
    if client then KeyContext(c2s(transMac), s2c(recvMac)) else KeyContext(s2c(transMac), c2s(recvMac))
  }

  method Key(hash: seq<byte> -> seq<byte>, size: nat, common: seq<byte>, x: byte, session: seq<byte>, len: nat)
    returns (k: seq<byte>)
    requires HashOf(hash, size)
    ensures k == Derive(hash, common, x, session, len)
  {
    var out := new byte[len](i => 0);
    ghost var n := HashKeys(out, hash, size, common, x, session);
    k := out[..];
  }

  /** `gen_new_keys`. */
  method GenNewKeys(client: bool, hash: seq<byte> -> seq<byte>, size: nat, common: seq<byte>, session: seq<byte>,
                    transMac: nat, recvMac: nat) returns (keys: KeyContext)
    requires HashOf(hash, size)
    ensures keys == KeysOf(client, hash, common, session, transMac, recvMac)
  {
    var c2sIV := Key(hash, size, common, 65, session, MAX_IV_LEN);
    var s2cIV := Key(hash, size, common, 66, session, MAX_IV_LEN);
    var c2sKey := Key(hash, size, common, 67, session, MAX_KEY_LEN);
    var s2cKey := Key(hash, size, common, 68, session, MAX_KEY_LEN);
    var transIV, recvIV, transKey, recvKey, transLetter, recvLetter := s2cIV, c2sIV, s2cKey, c2sKey, 70, 69;
    if client { transIV, recvIV, transKey, recvKey, transLetter, recvLetter := c2sIV, s2cIV, c2sKey, s2cKey, 69, 70; }
    var transMackey := Key(hash, size, common, transLetter, session, transMac);
    var recvMackey := Key(hash, size, common, recvLetter, session, recvMac);
    keys := KeyContext(Direction(transIV, transKey, transMackey), Direction(recvIV, recvKey, recvMackey));
  }

  /** `buf_putstring`. */
  function Str(s: seq<byte>): seq<byte>
    requires |s| < 0x1_0000_0000
  {
    Store32(|s|) + s
  }

  /** With equal K, H and session id, what one side transmits with is what the other receives with. */
  lemma {:induction false} SameLetters(hash: seq<byte> -> seq<byte>, common: seq<byte>, session: seq<byte>, c2sMac: nat, s2cMac: nat)
    ensures var c := KeysOf(true, hash, common, session, c2sMac, s2cMac);
            var s := KeysOf(false, hash, common, session, s2cMac, c2sMac);
            c.trans == s.recv && c.recv == s.trans
  {
  }
}
