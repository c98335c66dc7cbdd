/** The channel table of common-channel.c: `newchannel`, `getchannel_msg` and `remove_channel`. */
module ChannelTable {
  import opened Bytes
  import opened CircBuffer
  import opened Channel

  const MAX_CHANNELS: nat := 1000
  const CHAN_EXTEND_SIZE: nat := 3

  /** A channel and its number. */
  class Entry {
    const index: nat
    const chan: Chan

    constructor (i: nat, c: Chan)
      ensures index == i && chan == c
    {
      index, chan := i, c;
    }
  }

  /** The objects a channel consists of. */
  ghost function Parts(e: Entry?): set<object> {
    if e == null then {} else {e.chan, e.chan.writebuf, e.chan.writebuf.data}
  }

  /** No two channels share anything. */
  ghost predicate Apart(s: seq<Entry?>) {
    forall i, j :: 0 <= i < j < |s| ==> Parts(s[i]) !! Parts(s[j])
  }

  /** Entries in use. */
  ghost function InUse(s: seq<Entry?>): nat {
    if |s| == 0 then 0 else InUse(s[..|s| - 1]) + if s[|s| - 1] != null then 1 else 0
  }

  lemma {:induction false} InUseSet(s: seq<Entry?>, i: nat, e: Entry?)
    requires i < |s|
    ensures InUse(s[i := e]) == InUse(s) - (if s[i] != null then 1 else 0) + (if e != null then 1 else 0)
    decreases |s|
  {
    var n := |s| - 1;
    if i < n {
      InUseSet(s[..n], i, e);
      assert s[i := e][..n] == s[..n][i := e];
    } else {
      assert s[i := e][..n] == s[..n];
    }
  }

  lemma {:induction false} InUseAppendNull(s: seq<Entry?>)
    ensures InUse(s + [null]) == InUse(s)
  {
    assert (s + [null])[..|s|] == s;
  }

  lemma {:induction false} InUseFull(s: seq<Entry?>)
    ensures InUse(s) <= |s|
    ensures InUse(s) == |s| <==> forall i :: 0 <= i < |s| ==> s[i] != null
    decreases |s|
  {
    if |s| > 0 { InUseFull(s[..|s| - 1]); }
  }

  lemma {:induction false} StillApart(s: seq<Entry?>, t: seq<Entry?>, n: nat)
    requires Apart(s) && n < |t|
    requires forall k :: 0 <= k < |t| && k != n && t[k] != null ==> k < |s| && t[k] == s[k]
    requires forall k :: 0 <= k < |s| ==> Parts(s[k]) !! Parts(t[n])
    ensures Apart(t)
  {
    forall i, j | 0 <= i < j < |t| ensures Parts(t[i]) !! Parts(t[j]) {
      if t[i] != null && t[j] != null && i != n && j != n { assert Parts(s[i]) !! Parts(s[j]); }
      else if i == n && t[j] != null { assert Parts(s[j]) !! Parts(t[n]); }
      else if j == n && t[i] != null { assert Parts(s[i]) !! Parts(t[n]); }
    }
  }

  class Table {
    var channels: seq<Entry?>
    var chancount: nat

    /** Every entry sits at its own index, the count is right, and the table never outgrows its limit: it
        starts with one slot and grows by three, and 1000 is one more than a multiple of three. */
    ghost predicate Valid()
      reads this
    {
      && |channels| % CHAN_EXTEND_SIZE == 1 && |channels| <= MAX_CHANNELS
      && chancount == InUse(channels)
      && forall i :: 0 <= i < |channels| && channels[i] != null ==> channels[i].index == i
    }

    /** `chaninitialise`. */
    constructor ()
      ensures Valid() && chancount == 0
    {
      channels, chancount := [null], 0;
      new;
      InUseAppendNull([]);
      assert channels == [] + [null];
    }

    method FirstFree() returns (i: nat)
      ensures i <= |channels| && (i < |channels| ==> channels[i] == null)
      ensures forall k :: 0 <= k < i ==> channels[k] != null
    {
      i := 0;
      while i < |channels|
        invariant i <= |channels| && forall k :: 0 <= k < i ==> channels[k] != null
      {
        if channels[i] == null { return; }
        i := i + 1;
      }
    }

    method Extend()
      requires Valid() && |channels| < MAX_CHANNELS
      modifies this`channels
      ensures Valid() && |channels| == |old(channels)| + CHAN_EXTEND_SIZE && old(channels) <= channels
      ensures forall k :: |old(channels)| <= k < |channels| ==> channels[k] == null
    {
      for j := 0 to CHAN_EXTEND_SIZE
        invariant |channels| == |old(channels)| + j && old(channels) <= channels && InUse(channels) == chancount
        invariant forall k :: |old(channels)| <= k < |channels| ==> channels[k] == null
      {
        InUseAppendNull(channels);
        channels := channels + [null];
      }
      forall i | 0 <= i < |channels| && channels[i] != null ensures channels[i].index == i {
        assert channels[i] == old(channels)[i];
      }
    }

    /** `newchannel` fails exactly when MAX_CHANNELS channels are open; otherwise it takes the lowest free
        number and leaves every open channel where it is. */
    method NewChannel(t: ChanType, window: nat, tw: nat, tmax: nat) returns (c: Entry?)
      requires Valid() && 0 < window <= MAX_CBUF_SIZE
      modifies this
      ensures c != null ==> fresh(Parts(c)) && c.chan.Valid() && !c.chan.removed && c.chan.typ == t
      ensures c != null ==> forall k :: 0 <= k < |channels| && k != c.index && channels[k] != null ==>
                                          k < |old(channels)| && channels[k] == old(channels)[k]
      ensures Valid() && (c == null <==> old(chancount) == MAX_CHANNELS)
      ensures c == null ==> channels == old(channels) && chancount == old(chancount)
      ensures c != null ==> fresh(c) && chancount == old(chancount) + 1 && c.index < |channels| && channels[c.index] == c
      ensures c != null ==> forall k :: 0 <= k < c.index ==> k < |old(channels)| && old(channels)[k] != null
      ensures forall k :: 0 <= k < |old(channels)| && old(channels)[k] != null ==> k < |channels| && channels[k] == old(channels)[k]
    {
      var i := FirstFree();
      InUseFull(channels);
      if i == |channels| {
        if |channels| >= MAX_CHANNELS { return null; }
        Extend();
      }
      var chan := new Chan(t, window, tw, tmax);
      c := new Entry(i, chan);
      InUseSet(channels, i, c);
      channels := channels[i := c];
      chancount := chancount + 1;
    }

    /** `getchannel_msg`: the session ends on an unknown number. */
    method GetChannel(chan: nat) returns (c: Entry?)
      requires Valid()
      ensures c != null <==> chan < |channels| && channels[chan] != null
      ensures c != null ==> c == channels[chan] && c.index == chan
    {
      if chan >= |channels| || channels[chan] == null { return null; }
      c := channels[chan];
    }

    /** `remove_channel` takes out that channel and no other. */
    method RemoveChannel(c: Entry)
      requires Valid() && c.index < |channels| && channels[c.index] == c
      modifies this
      ensures Valid() && channels == old(channels)[c.index := null] && chancount == old(chancount) - 1
    {
      InUseSet(channels, c.index, null);
      InUseFull(channels[c.index := null]);
      channels := channels[c.index := null];
      chancount := chancount - 1;
    }

    /** Every channel in the table keeps its invariant and has not been removed. */
    ghost predicate Sound()
      reads this, set i | 0 <= i < |channels| && channels[i] != null :: channels[i].chan
      reads set i | 0 <= i < |channels| && channels[i] != null :: channels[i].chan.writebuf
      reads set i | 0 <= i < |channels| && channels[i] != null :: channels[i].chan.writebuf.data
    {
      && Valid() && Apart(channels)
      && forall i :: 0 <= i < |channels| && channels[i] != null ==> channels[i].chan.Valid() && !channels[i].chan.removed
    }

    ghost function Own(number: nat): set<object>
      reads this
    {
      if number < |channels| then Parts(channels[number]) else {}
    }

    /** A channel is opened. */
    method Open(t: ChanType, window: nat, tw: nat, tmax: nat) returns (c: Entry?)
      requires Sound() && 0 < window <= MAX_CBUF_SIZE
      modifies this
      ensures Sound() && (c == null <==> old(chancount) == MAX_CHANNELS)
    {
      c := NewChannel(t, window, tw, tmax);
      if c != null { StillApart(old(channels), channels, c.index); }
    }

    /** A message, or a turn of the main loop, for the channel with that number: the session ends if there is
        none; the channel leaves the table exactly when it is removed, and no other channel is touched. */
    method Dispatch(number: nat, e: Event) returns (halt: bool)
      requires Sound()
      requires number < |channels| && channels[number] != null ==> channels[number].chan.Admits(e)
      modifies this, Own(number)
      ensures old(number >= |channels| || channels[number] == null) ==> halt
      ensures Sound() && |channels| == |old(channels)|
      ensures forall k :: 0 <= k < |channels| && k != number ==> channels[k] == old(channels)[k]
      ensures old(number < |channels| && channels[number] != null) ==>
                channels[number] == if old(channels)[number].chan.removed then null else old(channels)[number]
    {
      var c := GetChannel(number);
      if c == null { return true; }
      halt := c.chan.Step(e);
      if c.chan.removed { RemoveChannel(c); }
    }
  }
}
