/** One server channel of common-channel.c: local input and output, flow control, EOF and CLOSE. */
module Channel {
  import opened Bytes
  import opened CircBuffer

  const FD_UNINIT: int := -2
  const FD_CLOSED: int := -1
  const TRANS_MAX_PAYLOAD_LEN: nat := 2048
  const TRANS_MAX_WINDOW: nat := 500000000
  const TRANS_MAX_WIN_INCR: nat := 500000000

  /** What the close code needs to know of a channel type. */
  datatype ChanType = ChanType(sepfds: bool, checkClose: bool, closeHandler: bool)

  /** Messages handed to `encrypt_packet`. */
  datatype Msg = Data(bytes: seq<byte>, ext: bool) | Adjust(incr: nat) | Eof | Close | Reply

  /** What read(2) and write(2) may answer. */
  datatype ReadResult = Bytes(b: seq<byte>) | EndOfFile | Interrupted | ReadError
  datatype WriteResult = Wrote(n: nat) | Again | WriteError

  /* ---- descriptors ---- */

  datatype Fds = Fds(readfd: int, writefd: int, errfd: int)

  datatype How = ShutRd | ShutWr | ShutRdWr

  /** `close_chan_fd` for a channel without `extrabuf`, where `errfd` is read from. */
  function CloseFd(sepfds: bool, f: Fds, fd: int, how: How): Fds {
    var closein, closeout := !sepfds || how != ShutRd, !sepfds || how == ShutRd;
    Fds(
      if closeout && fd == f.readfd then FD_CLOSED else f.readfd,
      if closein && fd == f.writefd then FD_CLOSED else f.writefd,
      if closeout && fd == f.errfd then FD_CLOSED else f.errfd)
  }

  /** The three calls at the end of `send_msg_channel_close`. */
  function CloseAll(sepfds: bool, f: Fds): Fds {
    var g := CloseFd(sepfds, f, f.readfd, ShutRd);
    var h := CloseFd(sepfds, g, g.errfd, ShutRdWr);
    CloseFd(sepfds, h, h.writefd, ShutWr)
  }

  /** Everything is closed after CLOSE, unless a type with separate descriptors has its own `errfd`:
      then `errfd` stays open and a later read from it would hit the assertion in `send_msg_channel_data`. */
  lemma {:induction false} CloseAllCloses(sepfds: bool, f: Fds)
    ensures CloseAll(sepfds, f).readfd == CloseAll(sepfds, f).writefd == FD_CLOSED
    ensures CloseAll(sepfds, f).errfd == FD_CLOSED <==> (sepfds ==> f.errfd == FD_CLOSED || f.errfd == f.readfd)
  {
  }

  /** What a type with separate descriptors keeps open; the server's own ones leave `errfd` closed. */
  lemma {:induction false} ErrfdSurvivesClose(f: Fds)
    ensures CloseAll(true, f) == Fds(FD_CLOSED, FD_CLOSED, if f.errfd == f.readfd then FD_CLOSED else f.errfd)
  {
  }

  datatype Flags = Flags(sentClose: bool, sentEof: bool, lateOpen: bool, started: bool)

  /** What was sent, the flags and the descriptors go together. */
  ghost predicate Consistent(sepfds: bool, f: Fds, sent: Log, c: Flags) {
    && Orderly(sent) && (c.lateOpen || NoDataAfterEof(sent))
    && (c.sentClose <==> HasClose(sent)) && (c.sentEof <==> HasEof(sent) || c.sentClose)
    && (c.sentClose ==> f.readfd < 0 && f.writefd < 0 && f.errfd < 0)
    && (HasEof(sent) && !c.lateOpen ==> f.readfd < 0 && f.errfd < 0)
    && (sepfds ==> f.errfd == FD_CLOSED)
    && (!c.started ==> !c.lateOpen && f.readfd < 0 && f.writefd < 0 && f.errfd < 0)
  }

  /* ---- sending data ---- */

  /** How much one data message may carry. */
  function MaxLen(transwindow: nat, transmaxpacket: nat, ext: bool): nat {
    Min(Min(transwindow, transmaxpacket), TRANS_MAX_PAYLOAD_LEN - 9 - if ext then 4 else 0)
  }

  /** What does not go back: CLOSE sent, the close handler run, data sent after EOF. */
  datatype Past = Past(sent: Log, sentClose: bool, handled: bool)

  ghost predicate Later(a: Past, b: Past) {
    (a.sentClose ==> b.sentClose) && (a.handled ==> b.handled) && (NoDataAfterEof(b.sent) ==> NoDataAfterEof(a.sent))
  }

  /** The descriptors, the send window and the messages sent. */
  datatype Out = Out(fds: Fds, transwindow: nat, sent: Log)

  /** What a read leads to: data to send, and whether to close the descriptor. */
  datatype Outcome = Outcome(d: seq<byte>, shut: bool)

  /** End of file, an error, or a short read while flushing closes the descriptor. */
  function ReadOutcome(maxlen: nat, flushing: bool, r: ReadResult): (p: Outcome)
    ensures |p.d| <= maxlen
  {
    var d := if r.Bytes? then r.b[..Min(|r.b|, maxlen)] else [];
    Outcome(d, maxlen > 0 && (if d == [] then r != Interrupted else flushing && |d| < maxlen))
  }

  /** Data read from a descriptor goes out in one message. */
  ghost function AfterRead(o: Out, sepfds: bool, flushing: bool, transmaxpacket: nat, ext: bool, r: ReadResult): Out {
    var p := ReadOutcome(MaxLen(o.transwindow, transmaxpacket, ext), flushing, r);
    Out(
      if p.shut then CloseFd(sepfds, o.fds, if ext then o.fds.errfd else o.fds.readfd, ShutRd) else o.fds,
      o.transwindow - |p.d|,
      if p.d == [] then o.sent else Then(o.sent, Data(p.d, ext)))
  }

  lemma {:induction false} AfterReadConsistent(o: Out, sepfds: bool, flushing: bool, transmaxpacket: nat, ext: bool,
                                               r: ReadResult, c: Flags)
    requires Consistent(sepfds, o.fds, o.sent, c) && (if ext then o.fds.errfd else o.fds.readfd) >= 0
    ensures var p := AfterRead(o, sepfds, flushing, transmaxpacket, ext, r);
            Consistent(sepfds, p.fds, p.sent, c) && (p.fds.writefd == o.fds.writefd || p.fds.writefd == FD_CLOSED)
  {
  }

  /** Reading regardless of readiness, if there is a descriptor and a window. */
  ghost function AfterFlush(o: Out, sepfds: bool, flushing: bool, transmaxpacket: nat, ext: bool, r: ReadResult): Out {
    if flushing && (if ext then o.fds.errfd else o.fds.readfd) >= 0 && o.transwindow > 0
    then AfterRead(o, sepfds, flushing, transmaxpacket, ext, r) else o
  }

  /* ---- flow control ---- */

  /** The receive window, the bytes written but not yet credited, and the bytes in the ring. */
  datatype Account = Account(rw: nat, done: nat, used: nat)

  /** Bytes written are credited to the peer once they are a third of the window. */
  function Credited(a: Account, window: nat): Account {
    if a.done >= window / 3 then Account(a.rw + a.done, 0, a.used) else a
  }

  /** The send window after a window adjust message. */
  function Adjusted(transwindow: nat, incr: nat): nat {
    Min(transwindow + Min(incr, TRANS_MAX_WIN_INCR), TRANS_MAX_WINDOW)
  }

  /* ---- what may be sent ---- */

  /** Messages in the order sent. */
  datatype Log = Empty | Then(before: Log, m: Msg)

  ghost function Msgs(sent: Log): seq<Msg> {
    if sent.Empty? then [] else Msgs(sent.before) + [sent.m]
  }

  ghost predicate HasEof(sent: Log) { sent.Then? && (sent.m == Eof || HasEof(sent.before)) }

  ghost predicate HasClose(sent: Log) { sent.Then? && (sent.m == Close || HasClose(sent.before)) }

  /** Nothing follows CLOSE and there is no second EOF. */
  ghost predicate Orderly(sent: Log) {
    sent.Then? ==> Orderly(sent.before) && !HasClose(sent.before) && (sent.m == Eof ==> !HasEof(sent.before))
  }

  ghost predicate NoDataAfterEof(sent: Log) {
    sent.Then? ==> NoDataAfterEof(sent.before) && (sent.m.Data? ==> !HasEof(sent.before))
  }

  lemma {:induction false} HasMeans(sent: Log)
    ensures (HasEof(sent) <==> Eof in Msgs(sent)) && (HasClose(sent) <==> Close in Msgs(sent))
  {
    if sent.Then? { HasMeans(sent.before); }
  }

  /** The same in terms of positions. */
  lemma {:induction false} OrderlyMeans(sent: Log, i: nat, j: nat)
    requires Orderly(sent) && i < j < |Msgs(sent)|
    ensures Msgs(sent)[i] != Close && (Msgs(sent)[i] == Eof ==> Msgs(sent)[j] != Eof)
    ensures NoDataAfterEof(sent) && Msgs(sent)[i] == Eof ==> !Msgs(sent)[j].Data?
  {
    var before := Msgs(sent.before);
    assert Msgs(sent)[i] == before[i];
    if j < |before| {
      OrderlyMeans(sent.before, i, j);
    } else {
      HasMeans(sent.before);
    }
  }

  lemma {:induction false} EofAt(sent: Log) returns (i: nat)
    requires HasEof(sent)
    ensures i < |Msgs(sent)| && Msgs(sent)[i] == Eof
  {
    if sent.m == Eof { i := |Msgs(sent.before)|; } else { i := EofAt(sent.before); }
  }

  lemma {:induction false} DataAfterEofMeans(sent: Log) returns (i: nat, j: nat)
    requires !NoDataAfterEof(sent)
    ensures i < j < |Msgs(sent)| && Msgs(sent)[i] == Eof && Msgs(sent)[j].Data?
  {
    if NoDataAfterEof(sent.before) {
      i := EofAt(sent.before);
      j := |Msgs(sent.before)|;
    } else {
      i, j := DataAfterEofMeans(sent.before);
    }
  }

  lemma {:induction false} DropBoth(c: seq<byte>, more: seq<byte>, n: nat, k: nat)
    requires n <= |c| + |more| && k == Min(|c|, n)
    ensures (c + more)[n..] == c[k..] + more[n - k..]
  {
    if n <= |c| {
      assert more[0..] == more;
    } else {
      assert c[k..] == [];
      assert (c + more)[n..] == more[n - |c|..];
    }
  }

  lemma {:induction false} TakeFrom(w: seq<byte>, c: seq<byte>, more: seq<byte>, n: nat, k: nat)
    requires n <= |c| + |more| && k == Min(|c|, n)
    ensures (w + (c + more)[..n]) + (c[k..] + more[n - k..]) == w + (c + more)
  {
    var all := c + more;
    DropBoth(c, more, n, k);
    assert all[..n] + all[n..] == all;
    Assoc(w, all[..n], all[n..]);
  }

  /** How much a write takes of what is offered: everything at once, or only the first part of the ring. */
  function Written(w: WriteResult, writev: bool, all: nat, front: nat): nat {
    if w.Wrote? then Min(w.n, if writev then all else front) else 0
  }

  /** The answers `check_close` gets from the channel type and from read(2). */
  datatype Check = Check(exited1: bool, exited2: bool, r1: ReadResult, r2: ReadResult, exitMsg: bool)

  /** What can happen to a channel: descriptors become ready, or a message arrives. */
  datatype Event =
    | Io(read: Option<ReadResult>, err: Option<ReadResult>, write: Option<WriteResult>, signal: bool, writev: bool, c: Check)
    | DataMsg(data: seq<byte>, w: WriteResult, writev: bool)
    | AdjustMsg(incr: nat)
    | EofMsg(c: Check)
    | CloseMsg(c: Check)
    | RequestMsg(reply: bool, start: Option<Fds>, forced: bool)

  class Chan {
    const typ: ChanType
    const window: nat                 // opts.recv_window
    const writebuf: Ring
    var recvwindow: nat
    var recvdonelen: nat
    var transwindow: nat
    var transmaxpacket: nat
    var fds: Fds
    var sentClose: bool
    var recvClose: bool
    var sentEof: bool
    var recvEof: bool
    var closeHandlerDone: bool
    var flushing: bool

    ghost var sent: Log               // handed to encrypt_packet, oldest first
    ghost var received: seq<byte>     // channel data accepted for the local side
    ghost var written: seq<byte>      // taken by the local descriptor
    var started: bool                 // the local descriptors have been set
    var cmd: bool                     // a forced command is recorded in chansess->cmd
    ghost var lateOpen: bool          // descriptors were set after our EOF
    ghost var failed: bool            // a write to the local side failed
    ghost var handlerRuns: nat        // calls of the type's close handler
    ghost var lateCheck: bool         // the type's check_close was called after the close handler
    var removed: bool                 // freed, no longer in the table

    function WindowExtend(): nat { window / 3 }

    /** Bytes received are written or in the ring; every byte of the window is accounted for. */
    ghost predicate Flow()
      reads this, writebuf, writebuf.data
    {
      && writebuf.Valid() && writebuf.size == window
      && recvwindow + recvdonelen + writebuf.used <= window
      && (!failed ==> recvwindow + recvdonelen + writebuf.used == window && written + writebuf.Contents() == received)
      && (recvdonelen < WindowExtend() || recvdonelen == 0)
      && (!started ==> !failed && received == [] && written == [])
      && (fds.writefd >= 0 ==> started)
    }

    ghost function Acct(): Account
      reads this, writebuf
    {
      Account(recvwindow, recvdonelen, writebuf.used)
    }

    ghost predicate Life()
      reads this
    {
      && Consistent(typ.sepfds, fds, sent, Flags(sentClose, sentEof, lateOpen, started))
      && handlerRuns == (if closeHandlerDone then 1 else 0) && (closeHandlerDone ==> typ.closeHandler)
      && (sentClose && typ.closeHandler ==> closeHandlerDone)
      && !lateCheck
      && (recvClose ==> recvEof)
    }

    ghost predicate Valid()
      reads this, writebuf, writebuf.data
    {
      Flow() && Life()
    }

    /** `newchannel`. */
    constructor (t: ChanType, recv_window: nat, tw: nat, tmax: nat)
      requires 0 < recv_window <= MAX_CBUF_SIZE
      ensures Valid() && !started && !cmd && !removed && !recvEof && !recvClose && sent == Empty && fresh(writebuf) && fresh(writebuf.data)
      ensures fds == Fds(FD_UNINIT, FD_UNINIT, FD_CLOSED) && !sentClose && !closeHandlerDone
      ensures typ == t && window == recv_window && recvwindow == recv_window && transwindow == tw && transmaxpacket == tmax
    {
      typ, window := t, recv_window;
      writebuf := new Ring(recv_window);
      recvwindow, recvdonelen, transwindow, transmaxpacket := recv_window, 0, tw, tmax;
      fds := Fds(FD_UNINIT, FD_UNINIT, FD_CLOSED);
      sentClose, recvClose, sentEof, recvEof, closeHandlerDone, flushing := false, false, false, false, false, false;
      sent, received, written, started, cmd, lateOpen, failed := Empty, [], [], false, false, false, false;
      handlerRuns, lateCheck, removed := 0, false, false;
    }

    /* ---- sending ---- */

    /** `send_msg_channel_eof`. */
    method SendEof()
      requires Life() && !sentEof && fds.readfd < 0 && fds.errfd < 0
      modifies this`sent, this`sentEof
      ensures Life() && sent == Then(old(sent), Eof) && sentEof
      ensures Later(old(Now()), Now())
    {
      sent := Then(sent, Eof);
      sentEof := true;
    }

    /** The type's close handler, which may report the exit status. */
    method RunCloseHandler(exitMsg: bool)
      requires Life() && !sentClose
      modifies this`sent, this`closeHandlerDone, this`handlerRuns
      ensures Life() && (typ.closeHandler ==> closeHandlerDone)
      ensures Later(old(Now()), Now())
      ensures sent == old(sent) || sent == Then(old(sent), Reply)
    {
      if typ.closeHandler && !closeHandlerDone {
        if exitMsg { sent := Then(sent, Reply); }
        closeHandlerDone := true;
        handlerRuns := handlerRuns + 1;
      }
    }

    /** `send_msg_channel_close`. */
    method SendClose(exitMsg: bool)
      requires Life() && !sentClose
      modifies this`sent, this`closeHandlerDone, this`handlerRuns, this`sentEof, this`sentClose, this`fds
      ensures Life() && sentClose && sentEof && (sent == Then(old(sent), Close) || sent == Then(Then(old(sent), Reply), Close))
      ensures Later(old(Now()), Now())
      ensures fds == Fds(FD_CLOSED, FD_CLOSED, FD_CLOSED)
    {
      RunCloseHandler(exitMsg);
      sent := Then(sent, Close);
      sentEof, sentClose := true, true;
      CloseAllCloses(typ.sepfds, fds);
      fds := CloseFd(typ.sepfds, fds, fds.readfd, ShutRd);
      fds := CloseFd(typ.sepfds, fds, fds.errfd, ShutRdWr);
      fds := CloseFd(typ.sepfds, fds, fds.writefd, ShutWr);
    }

    ghost function Now(): Past
      reads this
    {
      Past(sent, sentClose, closeHandlerDone)
    }

    ghost function Outgoing(): Out
      reads this
    {
      Out(fds, transwindow, sent)
    }

    /** `send_msg_channel_data`: the assertion that CLOSE has not been sent holds. */
    method SendData(ext: bool, r: ReadResult)
      requires Life() && (if ext then fds.errfd else fds.readfd) >= 0
      modifies this`sent, this`fds, this`transwindow
      ensures Life() && Outgoing() == AfterRead(old(Outgoing()), typ.sepfds, flushing, transmaxpacket, ext, r)
      ensures Later(old(Now()), Now())
      ensures fds.writefd == old(fds.writefd) || fds.writefd == FD_CLOSED
    {
      assert !sentClose;
      AfterReadConsistent(Outgoing(), typ.sepfds, flushing, transmaxpacket, ext, r, Flags(sentClose, sentEof, lateOpen, started));
      ReadAndSend(ext, r);
    }

    method ReadAndSend(ext: bool, r: ReadResult)
      modifies this`sent, this`fds, this`transwindow
      ensures Outgoing() == AfterRead(old(Outgoing()), typ.sepfds, flushing, transmaxpacket, ext, r)
    {
      var p := ReadOutcome(MaxLen(transwindow, transmaxpacket, ext), flushing, r);
      if p.d != [] {
        transwindow := transwindow - |p.d|;
        sent := Then(sent, Data(p.d, ext));
      }
      if p.shut {
        fds := CloseFd(typ.sepfds, fds, if ext then fds.errfd else fds.readfd, ShutRd);
      }
    }

    method SendMsg(m: Msg)
      requires Life() && !sentClose && m == Reply
      modifies this`sent
      ensures Life() && sent == Then(old(sent), m)
    {
      sent := Then(sent, m);
    }

    /* ---- receiving data ---- */

    /** Ring and descriptor while `more` is being handed over: the ring contents go first, then `more`. */
    ghost predicate Pending(more: seq<byte>)
      reads this, writebuf, writebuf.data
    {
      && writebuf.Valid() && writebuf.size == window && fds.writefd >= 0
      && recvwindow + recvdonelen + writebuf.used + |more| <= window
      && (!failed ==>
            && recvwindow + recvdonelen + writebuf.used + |more| == window
            && written + (writebuf.Contents() + more) == received)
    }

    /** n bytes were taken from the ring contents and then from `more`. */
    method Take(n: nat, more: seq<byte>) returns (consumed: nat)
      requires Pending(more) && n <= writebuf.used + |more|
      modifies this`recvdonelen, this`written, writebuf
      ensures consumed <= |more| && Pending(more[consumed..]) && recvdonelen == old(recvdonelen) + n
      ensures n <= old(writebuf.used) ==> consumed == 0
      ensures |written| == |old(written)| + n && writebuf.used + n == old(writebuf.used) + consumed
    {
      ghost var c := writebuf.Contents();
      var k := Min(writebuf.used, n);
      consumed := n - k;
      writebuf.IncrRead(k);
      written := written + (c + more)[..n];
      recvdonelen := recvdonelen + n;
      TakeFrom(old(written), c, more, n, k);
    }

    /** `writechannel_writev` and, with writev false, `writechannel_fallback`. */
    method WriteOut(more: seq<byte>, hasMore: bool, w: WriteResult, writev: bool) returns (ok: bool, consumed: nat)
      requires Life() && Pending(more) && (hasMore || more == [])
      modifies this`recvdonelen, this`written, this`fds, this`failed, writebuf
      ensures Life()
      ensures consumed <= |more| && (!writev ==> consumed == 0)
      ensures ok ==> Pending(more[consumed..]) && fds == old(fds) && failed == old(failed)
      ensures ok ==> recvdonelen == old(recvdonelen) + |written| - |old(written)|
      ensures ok ==> writebuf.used + |written| - |old(written)| == old(writebuf.used) + consumed
      ensures recvwindow + recvdonelen + writebuf.used + |more| <= window + consumed && recvdonelen >= old(recvdonelen)
      ensures !ok ==> failed && fds == CloseFd(typ.sepfds, old(fds), old(fds.writefd), ShutWr)
      ensures !ok ==> writebuf.Valid() && recvdonelen == old(recvdonelen) && consumed == 0 && writebuf.used == old(writebuf.used)
      ensures ok <==> !(w.WriteError? && (hasMore || !writev || old(writebuf.used) > 0))
      ensures |written| == |old(written)| + Written(w, writev, old(writebuf.used) + |more|, old(writebuf.Front()))
    {
      ok, consumed := true, 0;
      var p1, p2 := writebuf.ReadPtrs();
      var total := if writev then |p1| + |p2| + |more| else |p1|;
      if writev && |p1| == 0 && |p2| == 0 && !hasMore { return; }
      match w {
        case Again =>
        case Wrote(n) =>
          consumed := Take(Min(n, total), more);
        case WriteError =>
          FailWrite();
          ok := false;
      }
    }

    method FailWrite()
      requires Life()
      modifies this`fds, this`failed
      ensures Life() && failed && fds == CloseFd(typ.sepfds, old(fds), old(fds.writefd), ShutWr) && fds.writefd == FD_CLOSED
    {
      fds := CloseFd(typ.sepfds, fds, fds.writefd, ShutWr);
      failed := true;
    }

    /** Credit the peer with what was written, once it is a third of the window. */
    method MaybeAdjust()
      requires Life() && !sentClose
      modifies this`recvdonelen, this`recvwindow, this`sent
      ensures Life() && recvwindow + recvdonelen == old(recvwindow + recvdonelen)
      ensures recvdonelen < WindowExtend() || recvdonelen == 0
      ensures Acct() == Credited(old(Acct()), window)
      ensures sent == if old(recvdonelen) >= WindowExtend() then Then(old(sent), Adjust(old(recvdonelen))) else old(sent)
    {
      if recvdonelen >= WindowExtend() {
        sent := Then(sent, Adjust(recvdonelen));
        recvwindow := recvwindow + recvdonelen;
        recvdonelen := 0;
      }
    }

    /** `writechannel`: after it, less than RECV_WINDOWEXTEND bytes wait to be credited to the peer. */
    method WriteChannel(more: seq<byte>, hasMore: bool, w: WriteResult, writev: bool) returns (ok: bool, consumed: nat)
      requires Life() && Pending(more) && (hasMore || more == [])
      modifies this`recvdonelen, this`written, this`fds, this`failed, this`recvwindow, this`sent, writebuf
      ensures Life() && consumed <= |more| && (recvdonelen < WindowExtend() || recvdonelen == 0)
      ensures writebuf.Valid() && recvwindow + recvdonelen + writebuf.used + |more| <= window + consumed
      ensures if ok then Pending(more[consumed..]) && fds == old(fds) && failed == old(failed)
              else failed && fds.writefd == FD_CLOSED
      ensures recvwindow <= window && recvwindow <= writebuf.size - writebuf.used && Later(old(Now()), Now())
      ensures ok ==>
                && |written| >= |old(written)| && writebuf.used + |written| - |old(written)| == old(writebuf.used) + consumed
                && Acct() == Credited(Account(old(recvwindow), old(recvdonelen) + |written| - |old(written)|,
                                              writebuf.used), window)
      ensures !ok ==> Acct() == Credited(old(Acct()), window)
      ensures ok <==> !(w.WriteError? && (hasMore || !writev || old(writebuf.used) > 0))
      ensures |written| == |old(written)| + Written(w, writev, old(writebuf.used) + |more|, old(writebuf.Front()))
    {
      ok, consumed := WriteOut(more, hasMore, w, writev);
      MaybeAdjust();
    }

    /** Data within the window: what the local side does not take at once goes to the ring. */
    method Accept(data: seq<byte>, w: WriteResult, writev: bool)
      requires Valid() && fds.writefd >= 0 && |data| <= recvwindow
      modifies this`recvdonelen, this`written, this`fds, this`failed, this`recvwindow, this`sent, this`received
      modifies writebuf, writebuf.data
      ensures Valid() && received == old(received) + data && (failed <==> old(failed) || w.WriteError?)
      ensures Later(old(Now()), Now())
      ensures |written| == |old(written)| + Written(w, writev, old(writebuf.used) + |data|, old(writebuf.Front()))
      ensures !w.WriteError? ==>
                var m := |written| - |old(written)|;
                0 <= m <= old(writebuf.used) + |data| &&
                Acct() == Credited(Account(old(recvwindow) - |data|, old(recvdonelen) + m,
                                           old(writebuf.used) + |data| - m), window)
      ensures w.WriteError? ==>
                fds.writefd < 0 && Acct() == Credited(old(Account(recvwindow - |data|, recvdonelen, writebuf.used)), window)
      ensures !w.WriteError? ==> fds == old(fds)
    {
      Reserve(data);
      var ok, consumed := WriteChannel(data, true, w, writev);
      if ok { Keep(data[consumed..]); } else { Lost(data, consumed); }
    }

    /** After a failed write the books no longer balance, but stay within the window. */
    lemma {:induction false} Lost(data: seq<byte>, consumed: nat)
      requires writebuf.Valid() && writebuf.size == window && started && failed && fds.writefd == FD_CLOSED
      requires recvwindow + recvdonelen + writebuf.used + |data| <= window + consumed && consumed <= |data|
      requires recvdonelen < WindowExtend() || recvdonelen == 0
      ensures Flow()
    {
    }

    /** The data is taken from the window. */
    method Reserve(data: seq<byte>)
      requires Valid() && fds.writefd >= 0 && |data| <= recvwindow
      modifies this`recvwindow, this`received
      ensures Life() && Pending(data) && recvwindow == old(recvwindow) - |data| && received == old(received) + data
    {
      recvwindow := recvwindow - |data|;
      Assoc(written, writebuf.Contents(), data);
      received := received + data;
    }

    /** What was not written at once goes to the ring. */
    method Keep(rest: seq<byte>)
      requires Life() && Pending(rest) && started && (recvdonelen < WindowExtend() || recvdonelen == 0)
      modifies writebuf, writebuf.data
      ensures Valid() && writebuf.used == old(writebuf.used) + |rest|
    {
      var rounds := writebuf.Append(rest);
    }

    /** `common_recv_msg_channel_data`: the session ends on data after EOF and on data beyond the window, and
        on nothing else. */
    method RecvData(data: seq<byte>, w: WriteResult, writev: bool) returns (halt: bool)
      requires Valid()
      modifies this`recvdonelen, this`written, this`fds, this`failed, this`recvwindow, this`sent, this`received
      modifies writebuf, writebuf.data
      ensures Valid()
      ensures Later(old(Now()), Now())
      ensures halt <==> old(recvEof) || (old(fds.writefd) >= 0 && |data| > old(recvwindow))
      ensures received == if halt || old(fds.writefd) < 0 then old(received) else old(received) + data
      ensures !halt && old(fds.writefd) >= 0 ==>
                && (failed <==> old(failed) || w.WriteError?)
                && |written| == |old(written)| + Written(w, writev, old(writebuf.used) + |data|, old(writebuf.Front()))
      ensures !halt && old(fds.writefd) >= 0 && !w.WriteError? ==>
                var m := |written| - |old(written)|;
                0 <= m <= old(writebuf.used) + |data| &&
                Acct() == Credited(Account(old(recvwindow) - |data|, old(recvdonelen) + m,
                                           old(writebuf.used) + |data| - m), window)
      ensures !halt && old(fds.writefd) >= 0 && w.WriteError? ==>
                fds.writefd < 0 && Acct() == Credited(old(Account(recvwindow - |data|, recvdonelen, writebuf.used)), window)
      ensures halt || old(fds.writefd) < 0 || !w.WriteError? ==> fds == old(fds)
      ensures halt || old(fds.writefd) < 0 ==> Acct() == old(Acct())
    {
      halt := recvEof;
      if !recvEof && fds.writefd >= 0 {
        var maxdata := writebuf.GetAvail();
        halt := |data| > maxdata || recvwindow < |data|;
        if !halt { Accept(data, w, writev); }
      }
    }

    /* ---- closing ---- */

    predicate WritePending()
      reads this, writebuf
    {
      fds.writefd >= 0 && writebuf.used > 0
    }

    /** One descriptor for both directions, as with a pty or a socket, or none yet. */
    predicate Shared()
      reads this
    {
      !typ.sepfds && fds.readfd == fds.writefd && fds.errfd == FD_CLOSED
    }

    predicate NoReads()
      reads this
    {
      fds.readfd == fds.errfd == FD_CLOSED
    }

    /** A call of the type's check_close. */
    ghost method AskType()
      modifies this`lateCheck
      ensures lateCheck == (old(lateCheck) || closeHandlerDone)
    {
      lateCheck := lateCheck || closeHandlerDone;
    }

    /** The two uses of the type's check_close at the start of `check_close`, with its answers. */
    method MayClose(exited1: bool, exited2: bool) returns (closeAllowed: bool)
      requires Life()
      modifies this`lateCheck, this`flushing
      ensures Life() && closeAllowed == (!typ.checkClose || closeHandlerDone || exited2)
      ensures flushing == (old(flushing) || (typ.checkClose && !closeHandlerDone && exited1))
    {
      if !flushing && !closeHandlerDone && typ.checkClose {
        AskType();
        if exited1 { flushing := true; }
      }
      closeAllowed := !typ.checkClose || closeHandlerDone;
      if !closeAllowed {
        AskType();
        closeAllowed := exited2;
      }
    }

    /** Read what is left after the program has exited. */
    method FlushOne(ext: bool, r: ReadResult)
      requires Life()
      modifies this`sent, this`fds, this`transwindow
      ensures Life() && (fds.writefd == old(fds.writefd) || fds.writefd == FD_CLOSED)
      ensures Later(old(Now()), Now())
      ensures Outgoing() == AfterFlush(old(Outgoing()), typ.sepfds, flushing, transmaxpacket, ext, r)
    {
      if flushing && (if ext then fds.errfd else fds.readfd) >= 0 && transwindow > 0 { SendData(ext, r); }
    }

    method FlushBoth(r1: ReadResult, r2: ReadResult)
      requires Life()
      modifies this`sent, this`fds, this`transwindow
      ensures Life() && (fds.writefd == old(fds.writefd) || fds.writefd == FD_CLOSED)
      ensures Later(old(Now()), Now()) && (old(fds.readfd < 0 && fds.errfd < 0) ==> fds == old(fds))
    {
      FlushOne(false, r1);
      FlushOne(true, r2);
    }

    /** EOF when nothing more is to be sent, CLOSE when nothing more is to be received either. */
    method Finish(closeAllowed: bool, exitMsg: bool)
      requires Life()
      modifies this`sent, this`fds, this`sentEof, this`sentClose, this`closeHandlerDone, this`handlerRuns
      ensures Life() && (fds.writefd == old(fds.writefd) || fds.writefd == FD_CLOSED)
      ensures closeHandlerDone ==> old(closeHandlerDone) || sentClose
      ensures old(NoReads()) ==> NoReads()
      ensures Later(old(Now()), Now())
      ensures sentEof <==> old(sentEof || fds.readfd == fds.errfd == FD_CLOSED)
      ensures sentClose <==> old(sentClose || (fds == Fds(FD_CLOSED, FD_CLOSED, FD_CLOSED) && closeAllowed))
      ensures fds == old(fds) || (sentClose && fds == Fds(FD_CLOSED, FD_CLOSED, FD_CLOSED))
    {
      if !sentEof && fds.readfd == FD_CLOSED && fds.errfd == FD_CLOSED {
        SendEof();
      }
      if fds.readfd == FD_CLOSED && fds.writefd == FD_CLOSED && fds.errfd == FD_CLOSED && !sentClose && closeAllowed
         && !WritePending() {
        SendClose(exitMsg);
      }
    }

    /** `remove_channel`; a removed channel is not used again. */
    method Remove(exitMsg: bool)
      requires Life()
      modifies this`sent, this`closeHandlerDone, this`handlerRuns, this`removed
      ensures Life() && removed && (old(sentClose) ==> sent == old(sent))
      ensures Later(old(Now()), Now())
      ensures typ.closeHandler ==> closeHandlerDone && handlerRuns == 1
    {
      if !sentClose { RunCloseHandler(exitMsg); }
      removed := true;
    }

    /** The write descriptor is closed after EOF, or when the program has exited. */
    method CloseWrite(closeAllowed: bool)
      requires Life()
      modifies this`fds
      ensures Life() && (fds.writefd == old(fds.writefd) || fds.writefd == FD_CLOSED)
      ensures fds == if old((recvEof && !WritePending()) || (typ.checkClose && closeAllowed))
                     then CloseFd(typ.sepfds, old(fds), old(fds.writefd), ShutWr) else old(fds)
    {
      if (recvEof && !WritePending()) || (typ.checkClose && closeAllowed) {
        fds := CloseFd(typ.sepfds, fds, fds.writefd, ShutWr);
      }
    }

    /** EOF has been sent if there is nothing more to read, and CLOSE if there is nothing to write either. */
    ghost predicate Ended(closeAllowed: bool)
      reads this
    {
      && (fds.readfd == fds.errfd == FD_CLOSED ==> sentEof)
      && (fds == Fds(FD_CLOSED, FD_CLOSED, FD_CLOSED) && closeAllowed ==> sentClose)
    }

    /** The way through `check_close` on which the channel stays. */
    method Stay(closeAllowed: bool, r1: ReadResult, r2: ReadResult, exitMsg: bool)
      requires Life()
      modifies this`sent, this`fds, this`sentEof, this`sentClose, this`closeHandlerDone, this`handlerRuns, this`transwindow
      ensures Life() && (fds.writefd == old(fds.writefd) || fds.writefd == FD_CLOSED)
      ensures closeHandlerDone ==> old(closeHandlerDone) || sentClose
      ensures old(recvEof && !WritePending() && Shared()) ==> fds.readfd == fds.errfd == FD_CLOSED
      ensures old(NoReads()) ==> NoReads()
      ensures Later(old(Now()), Now())
      ensures Ended(closeAllowed)
      ensures old((recvEof && !WritePending()) || (typ.checkClose && closeAllowed)) ==> fds.writefd == FD_CLOSED
      ensures sentClose && !old(sentClose) ==> closeAllowed
    {
      CloseWrite(closeAllowed);
      FlushBoth(r1, r2);
      Finish(closeAllowed, exitMsg);
    }

    /** The way through `check_close` on which the channel goes. */
    method Go(exitMsg: bool)
      requires Life()
      modifies this`sent, this`fds, this`sentEof, this`sentClose, this`closeHandlerDone, this`handlerRuns, this`removed
      ensures Life() && removed && sentClose && fds.writefd < 0
      ensures old(NoReads()) ==> NoReads()
      ensures Later(old(Now()), Now())
    {
      if !sentClose { SendClose(exitMsg); }
      Remove(exitMsg);
    }

    /** The decisions of `check_close`; receiving is not affected. */
    method GoOrStay(exited1: bool, exited2: bool, r1: ReadResult, r2: ReadResult, exitMsg: bool)
      requires Life() && !removed
      modifies this`sent, this`fds, this`sentEof, this`sentClose, this`closeHandlerDone, this`handlerRuns
      modifies this`transwindow, this`removed, this`lateCheck, this`flushing
      ensures Life() && (fds.writefd == old(fds.writefd) || fds.writefd < 0)
      ensures closeHandlerDone ==> old(closeHandlerDone) || sentClose
      ensures !removed && old(recvEof && !WritePending() && Shared()) ==> fds.readfd == fds.errfd == FD_CLOSED
      ensures sentClose ==> old(sentClose) || !typ.checkClose || old(closeHandlerDone) || exited2
      ensures old(NoReads()) ==> NoReads()
      ensures Later(old(Now()), Now())
      ensures removed <==> old(recvClose && !WritePending() && (!typ.checkClose || closeHandlerDone || exited2))
      ensures removed ==> sentClose
      ensures Ended(!typ.checkClose || old(closeHandlerDone) || exited2)
      ensures !removed && old(recvEof && !WritePending()) ==> fds.writefd == FD_CLOSED
    {
      var closeAllowed := MayClose(exited1, exited2);
      if recvClose && !WritePending() && closeAllowed {
        Go(exitMsg);
      } else {
        Stay(closeAllowed, r1, r2, exitMsg);
      }
    }

    /** `check_close`: the channel goes away exactly when the peer has sent CLOSE, no data is waiting that
        could still be written, and the type agrees; by then CLOSE has been sent as well. */
    method CheckClose(exited1: bool, exited2: bool, r1: ReadResult, r2: ReadResult, exitMsg: bool)
      requires Valid() && !removed
      modifies this`sent, this`fds, this`sentEof, this`sentClose, this`closeHandlerDone, this`handlerRuns
      modifies this`transwindow, this`removed, this`lateCheck, this`flushing
      ensures Valid()
      ensures closeHandlerDone ==> old(closeHandlerDone) || sentClose
      ensures !removed && old(recvEof && !WritePending() && Shared()) ==> fds.readfd == fds.errfd == FD_CLOSED
      ensures sentClose ==> old(sentClose) || !typ.checkClose || old(closeHandlerDone) || exited2
      ensures old(NoReads()) ==> NoReads()
      ensures Later(old(Now()), Now())
      ensures removed <==> old(recvClose && !WritePending() && (!typ.checkClose || closeHandlerDone || exited2))
      ensures removed ==> sentClose && recvClose
      ensures Ended(!typ.checkClose || old(closeHandlerDone) || exited2)
      ensures !removed && old(recvEof && !WritePending()) ==> fds.writefd == FD_CLOSED
    {
      GoOrStay(exited1, exited2, r1, r2, exitMsg);
    }

    /* ---- events ---- */

    /** One channel's turn in `channelio`. */
    method ChannelIo(read: Option<ReadResult>, err: Option<ReadResult>, write: Option<WriteResult>, signal: bool,
                     writev: bool, c: Check)
      requires Valid() && !removed
      modifies this`sent, this`fds, this`sentEof, this`sentClose, this`closeHandlerDone, this`handlerRuns
      modifies this`transwindow, this`removed, this`lateCheck, this`flushing, this`recvdonelen, this`written
      modifies this`failed, this`recvwindow, writebuf
      ensures Valid() && (removed ==> sentClose && recvClose)
      ensures old(HasEof(sent) && WillSend(read)) ==> !NoDataAfterEof(sent)
      ensures old(WillEnd(read, err)) && write.None? ==> sentEof
      ensures sentClose ==> old(sentClose) || !typ.checkClose || old(closeHandlerDone) || c.exited2
      ensures closeHandlerDone ==> old(closeHandlerDone) || sentClose
      ensures Later(old(Now()), Now())
      ensures signal || (read.Some? && old(fds.readfd) >= 0) ==> Ended(!typ.checkClose || old(closeHandlerDone) || c.exited2)
    {
      var check := ReadReady(read, err);
      check := MaybeWrite(check, write, writev);
      if check || signal { CheckClose(c.exited1, c.exited2, c.r1, c.r2, c.exitMsg); }
    }

    method MaybeWrite(ready: bool, write: Option<WriteResult>, writev: bool) returns (check: bool)
      requires Valid()
      modifies this`recvdonelen, this`written, this`fds, this`failed, this`recvwindow, this`sent, writebuf
      ensures Valid() && (ready ==> check)
      ensures write.None? ==> fds == old(fds)
      ensures Later(old(Now()), Now())
    {
      check := ready;
      if fds.writefd >= 0 && write.Some? {
        WriteReady(write.value, writev);
        check := true;
      }
    }

    /** The read descriptors are ready. */
    method ReadReady(read: Option<ReadResult>, err: Option<ReadResult>) returns (check: bool)
      requires Valid()
      modifies this`sent, this`fds, this`transwindow
      ensures Valid() && (read.Some? && old(fds.readfd) >= 0 ==> check) && transwindow <= old(transwindow)
      ensures old(HasEof(sent) && WillSend(read)) ==> !NoDataAfterEof(sent)
      ensures old(WillEnd(read, err)) ==> NoReads()
      ensures Later(old(Now()), Now())
    {
      check := ReadBoth(read, err);
    }

    /** There is something to read, and the window lets it be sent. */
    predicate WillSend(read: Option<ReadResult>)
      reads this
    {
      && fds.readfd >= 0 && MaxLen(transwindow, transmaxpacket, false) > 0
      && read.Some? && read.value.Bytes? && read.value.b != []
    }

    /** The local side has nothing more to send, and the window lets us find out. */
    predicate WillEnd(read: Option<ReadResult>, err: Option<ReadResult>)
      reads this
    {
      && fds.readfd >= 0 && fds.errfd == FD_CLOSED && MaxLen(transwindow, transmaxpacket, false) > 0
      && read == Some(EndOfFile) && err.None?
    }

    method ReadBoth(read: Option<ReadResult>, err: Option<ReadResult>) returns (check: bool)
      requires Life()
      modifies this`sent, this`fds, this`transwindow
      ensures Life() && (fds.writefd == old(fds.writefd) || fds.writefd == FD_CLOSED)
      ensures old(HasEof(sent) && WillSend(read)) ==> !NoDataAfterEof(sent)
      ensures old(WillEnd(read, err)) ==> NoReads()
      ensures Later(old(Now()), Now())
      ensures (read.Some? && old(fds.readfd) >= 0 ==> check) && transwindow <= old(transwindow)
    {
      check := false;
      if fds.readfd >= 0 && read.Some? {
        SendData(false, read.value);
        check := true;
      }
      if fds.errfd >= 0 && err.Some? {
        SendData(true, err.value);
        check := true;
      }
    }

    /** The write descriptor is ready. */
    method WriteReady(w: WriteResult, writev: bool)
      requires Valid() && fds.writefd >= 0
      modifies this`recvdonelen, this`written, this`fds, this`failed, this`recvwindow, this`sent, writebuf
      ensures Valid() && (failed <==> old(failed) || (w.WriteError? && (!writev || old(writebuf.used) > 0)))
      ensures Later(old(Now()), Now())
      ensures |written| == |old(written)| + Written(w, writev, old(writebuf.used), old(writebuf.Front()))
      ensures !(w.WriteError? && (!writev || old(writebuf.used) > 0)) ==>
                var m := |written| - |old(written)|;
                0 <= m <= old(writebuf.used) &&
                Acct() == Credited(Account(old(recvwindow), old(recvdonelen) + m, old(writebuf.used) - m), window)
      ensures w.WriteError? && (!writev || old(writebuf.used) > 0) ==>
                fds.writefd < 0 && Acct() == Credited(old(Acct()), window)
      ensures !(w.WriteError? && (!writev || old(writebuf.used) > 0)) ==> fds == old(fds)
    {
      var none: seq<byte> := [];
      assert writebuf.Contents() + none == writebuf.Contents();
      var ok, consumed := WriteChannel(none, false, w, writev);
      assert none[consumed..] == none && writebuf.Contents() + none == writebuf.Contents();
    }

    method NoteEnd(close: bool)
      requires Valid()
      modifies this`recvEof, this`recvClose
      ensures Valid() && recvEof && recvClose == (old(recvClose) || close)
    {
      recvEof := true;
      recvClose := recvClose || close;
    }

    /** `recv_msg_channel_eof` and `recv_msg_channel_close`. */
    method RecvEnd(close: bool, c: Check)
      requires Valid() && !removed
      modifies this`sent, this`fds, this`sentEof, this`sentClose, this`closeHandlerDone, this`handlerRuns
      modifies this`transwindow, this`removed, this`lateCheck, this`flushing, this`recvEof, this`recvClose
      ensures Valid() && recvEof && recvClose == (old(recvClose) || close)
      ensures closeHandlerDone ==> old(closeHandlerDone) || sentClose
      ensures !removed && old(!WritePending() && Shared()) ==> fds.readfd == fds.errfd == FD_CLOSED && sentEof
      ensures sentClose ==> old(sentClose) || !typ.checkClose || old(closeHandlerDone) || c.exited2
      ensures Later(old(Now()), Now())
      ensures removed ==> sentClose && recvClose
      ensures removed <==> recvClose && old(!WritePending() && (!typ.checkClose || closeHandlerDone || c.exited2))
      ensures !removed && old(!WritePending()) ==> fds.writefd == FD_CLOSED
    {
      NoteEnd(close);
      CheckClose(c.exited1, c.exited2, c.r1, c.r2, c.exitMsg);
    }

    /** `recv_msg_channel_window_adjust`. */
    method RecvAdjust(incr: nat)
      requires Valid()
      modifies this`transwindow
      ensures Valid() && transwindow == Adjusted(old(transwindow), incr)
    {
      transwindow := transwindow + Min(incr, TRANS_MAX_WIN_INCR);
      transwindow := Min(transwindow, TRANS_MAX_WINDOW);
    }

    /** `recv_msg_channel_request` would let a shell be started: CLOSE has not been sent, the close handler has
        not run, and no forced command is recorded. A shell that is already started is no obstacle. */
    predicate MayStart()
      reads this
    {
      !sentClose && !closeHandlerDone && !cmd
    }

    /** The request handler or a completed connection sets the descriptors. */
    method SetFds(f: Fds, forced: bool)
      requires Valid() && !sentClose
      requires f.readfd >= 0 && f.writefd >= 0 && (typ.sepfds ==> f.errfd == FD_CLOSED)
      modifies this`fds, this`started, this`lateOpen, this`cmd
      ensures Valid() && fds == f && started && cmd == forced && lateOpen == (old(lateOpen) || HasEof(sent))
    {
      fds, started, cmd := f, true, forced;
      lateOpen := lateOpen || HasEof(sent);
    }

    /** `recv_msg_channel_request`: the handler may reply, and may start a program. */
    method RecvRequest(reply: bool, start: Option<Fds>, forced: bool)
      requires Valid() && Admits(RequestMsg(reply, start, forced))
      modifies this`sent, this`fds, this`started, this`lateOpen, this`cmd
      ensures Valid() && sent == (if reply && !old(sentClose) then Then(old(sent), Reply) else old(sent))
      ensures fds == if start.Some? && old(MayStart()) then start.value else old(fds)
      ensures cmd == if start.Some? && old(MayStart()) then forced else old(cmd)
      ensures lateOpen == old(lateOpen || StartsLate(RequestMsg(reply, start, forced)))
    {
      if !sentClose {
        if reply { SendMsg(Reply); }
        if start.Some? && MayStart() { SetFds(start.value, forced); }
      }
    }

    ghost predicate Admits(e: Event) {
      e.RequestMsg? && e.start.Some? ==>
        e.start.value.readfd >= 0 && e.start.value.writefd >= 0 && (typ.sepfds ==> e.start.value.errfd == FD_CLOSED)
    }

    /** The event is a request that starts a program after our EOF. */
    ghost predicate StartsLate(e: Event)
      reads this
    {
      e.RequestMsg? && e.start.Some? && MayStart() && HasEof(sent)
    }

    method Step(e: Event) returns (halt: bool)
      requires Valid() && !removed && Admits(e)
      modifies this, writebuf, writebuf.data
      ensures Valid() && (removed ==> sentClose && recvClose)
      ensures lateOpen == old(lateOpen || StartsLate(e)) && (MayStart() ==> old(MayStart()))
    {
      halt := false;
      match e {
        case Io(read, err, write, signal, writev, c) => ChannelIo(read, err, write, signal, writev, c);
        case DataMsg(data, w, writev) => halt := RecvData(data, w, writev);
        case AdjustMsg(incr) => RecvAdjust(incr);
        case EofMsg(c) => RecvEnd(false, c);
        case CloseMsg(c) => RecvEnd(true, c);
        case RequestMsg(reply, start, forced) => RecvRequest(reply, start, forced);
      }
    }

    /** Wherever our EOF has been sent and a program may be started, data can follow: the program is started, the
        peer opens the window, and the program writes something. */
    method Reopen(f: Fds, b: seq<byte>)
      requires Valid() && !removed && HasEof(sent) && MayStart() && transmaxpacket > 0 && b != []
      requires Admits(RequestMsg(false, Some(f), false))
      modifies this, writebuf
      ensures Valid() && !NoDataAfterEof(sent)
    {
      RecvRequest(false, Some(f), false);
      RecvAdjust(1);
      ChannelIo(Some(Bytes(b)), None, None, false, true, Check(false, false, EndOfFile, EndOfFile, false));
    }

    /** A session channel on which a program may be started can always come to send data after its EOF: a shell on
        a pty ends its output, which sends EOF but not CLOSE as long as no exit is recorded, and another is started. */
    method StartTwice(fd: nat, b: seq<byte>)
      requires Valid() && !removed && MayStart() && transmaxpacket > 0 && b != []
      requires typ.checkClose && !typ.sepfds
      modifies this, writebuf
      ensures Valid() && !NoDataAfterEof(sent)
    {
      var shell := Fds(fd, fd, FD_CLOSED);
      if !sentEof {
        RecvRequest(false, Some(shell), false);
        RecvAdjust(1);
        ChannelIo(Some(EndOfFile), None, None, false, true, Check(false, false, EndOfFile, EndOfFile, false));
      }
      Reopen(shell, b);
    }

    /** Every run: the invariants hold after each event until the channel is removed or the session ends. Data
        follows our EOF only if a program was started after it, which cannot happen any more once no program may
        be started. */
    method Run(events: seq<Event>)
      requires Valid() && !removed && forall i :: 0 <= i < |events| ==> Admits(events[i])
      modifies this, writebuf, writebuf.data
      ensures Valid() && (removed ==> sentClose && recvClose)
      ensures (forall i :: 0 <= i < |events| ==> !events[i].RequestMsg? || events[i].start.None?) || !old(MayStart()) ==>
                lateOpen == old(lateOpen)
      ensures !lateOpen ==> NoDataAfterEof(sent)
      ensures !old(lateOpen) && !old(MayStart()) ==> NoDataAfterEof(sent)
    {
      for i := 0 to |events|
        invariant Valid() && !removed && (MayStart() ==> old(MayStart()))
        invariant (forall k :: 0 <= k < i ==> !events[k].RequestMsg? || events[k].start.None?) || !old(MayStart()) ==>
                    lateOpen == old(lateOpen)
      {
        var halt := Step(events[i]);
        if halt || removed { return; }
      }
    }

    /** A closed window never comes with an empty ring: more than the window less the credit threshold is
        still to be written, and writing it will credit the peer. */
    lemma {:induction false} NoCreditDeadlock()
      requires Flow() && !failed && recvwindow == 0 && window > 0
      ensures writebuf.used > window - WindowExtend() || (WindowExtend() == 0 && writebuf.used == window)
    {
    }
  }

  /** The failing run: the peer sends EOF on a new session channel, so that we send ours and, as no program has
      exited, not CLOSE; then it asks for a shell. */
  method DataAfterEof() returns (chan: Chan, ghost i: nat, ghost j: nat)
    ensures fresh(chan) && chan.Valid()
    ensures i < j < |Msgs(chan.sent)| && Msgs(chan.sent)[i] == Eof && Msgs(chan.sent)[j].Data?
  {
    chan := new Chan(ChanType(false, true, true), 24576, 1000, 1000);
    chan.RecvEnd(false, Check(false, false, EndOfFile, EndOfFile, false));
    chan.Reopen(Fds(3, 3, FD_CLOSED), [65]);
    i, j := DataAfterEofMeans(chan.sent);
  }
}
