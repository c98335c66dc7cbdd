/** Two peers on one channel: credit-based flow control of sections 5.2 and 5.3 of RFC 4254, over every
    interleaving of sending, delivery, local writes and key re-exchange. */
module FlowControl {
  import opened Bytes
  import opened Channel

  const MAX_RECV_WINDOW: nat := 1024 * 1024

  /** Channel messages that carry or return credit; the sizes are all that matters here. */
  datatype Packet = Load(n: nat) | Credit(n: nat)

  /** One side: what it may send, what it has received, whether the local side takes data, whether all channel
      data has reached it so far, and the reply queue, which holds packets back during a key exchange. */
  datatype Peer = Peer(transwindow: nat, acct: Account, window: nat, open: bool, intact: bool, allowed: bool,
                       held: seq<Packet>)

  /** `ab` and `ba` are the packets under way. */
  datatype System = System(a: Peer, b: Peer, ab: seq<Packet>, ba: seq<Packet>, halted: bool)

  /** What side a may do. */
  datatype Action =
    | Send(n: nat)          // channel data
    | Deliver(n: nat)       // take the next packet; of channel data, n bytes go straight to the local side
    | Write(n: nat)         // the local side takes n bytes from the ring
    | Lose                  // take the next packet; writing the channel data fails
    | Break                 // writing from the ring fails
    | Shut                  // the local side takes no more data
    | Restart               // there is a new local side
    | Hold                  // our KEXINIT is sent
    | Release               // our NEWKEYS is sent
    | Flush                 // the reply queue goes out

  function Swap(s: System): System { System(s.b, s.a, s.ba, s.ab, s.halted) }

  /** `encrypt_packet`: to the reply queue during a key exchange, else out. */
  function Put(s: System, p: Packet): System {
    if s.a.allowed then s.(ab := s.ab + [p]) else s.(a := s.a.(held := s.a.held + [p]))
  }

  /** Credit for what was written, if there is enough of it. */
  function GiveCredit(s: System): System {
    var acct := s.a.acct;
    var t := s.(a := s.a.(acct := Credited(acct, s.a.window)));
    if acct.done >= s.a.window / 3 then Put(t, Credit(acct.done)) else t
  }

  /** len bytes are received and m bytes are written. */
  function Book(s: System, len: nat, m: nat): System
    requires len <= s.a.acct.rw && m <= s.a.acct.used + len
  {
    s.(a := s.a.(acct := Account(s.a.acct.rw - len, s.a.acct.done + m, s.a.acct.used + len - m)))
  }

  /** len bytes are taken from the window and lost with the local side. */
  function LoseBytes(s: System, len: nat): System
    requires len <= s.a.acct.rw
  {
    s.(a := s.a.(acct := s.a.acct.(rw := s.a.acct.rw - len), open := false, intact := false))
  }

  /** Channel data arrives: dropped if there is no local side, fatal beyond the window. The local side takes
      n bytes, or fails. */
  function TakeBytes(s: System, len: nat, n: Option<nat>): System {
    var p := s.a;
    if !p.open then s.(a := p.(intact := p.intact && len == 0))
    else if len > p.window - p.acct.used || len > p.acct.rw then s.(halted := true)
    else if n.None? then GiveCredit(LoseBytes(s, len))
    else GiveCredit(Book(s, len, Min(n.value, p.acct.used + len)))
  }

  function TakePacket(s: System, n: Option<nat>): System
    requires |s.ba| > 0
  {
    var t := s.(ba := s.ba[1..]);
    match s.ba[0]
    case Load(len) => TakeBytes(t, len, n)
    case Credit(k) => t.(a := s.a.(transwindow := Adjusted(s.a.transwindow, k)))
  }

  function Act(s: System, x: Action): System {
    var p := s.a;
    match x
    case Send(n) =>
      if 0 < n <= p.transwindow then Put(s.(a := p.(transwindow := p.transwindow - n)), Load(n)) else s
    case Deliver(n) => if |s.ba| > 0 then TakePacket(s, Some(n)) else s
    case Lose => if |s.ba| > 0 then TakePacket(s, None) else s
    case Write(n) =>
      if p.open && n <= p.acct.used
      then GiveCredit(Book(s, 0, n))
      else s
    case Break => GiveCredit(s.(a := p.(open := false)))
    case Shut => s.(a := p.(open := false))
    case Restart => s.(a := p.(open := true))
    case Hold => s.(a := p.(allowed := false))
    case Release => s.(a := p.(allowed := true))
    case Flush => if p.allowed then s.(a := p.(held := []), ab := s.ab + p.held) else s
  }

  /** One step of either side; a halted session stays halted. */
  function Step(s: System, left: bool, x: Action): System {
    if s.halted then s else if left then Act(s, x) else Swap(Act(Swap(s), x))
  }

  datatype Move = Move(left: bool, x: Action)

  function Run(s: System, moves: seq<Move>): System
    decreases |moves|
  {
    if |moves| == 0 then s else Run(Step(s, moves[0].left, moves[0].x), moves[1..])
  }

  function NewPeer(window: nat, peerWindow: nat): Peer {
    Peer(Min(peerWindow, TRANS_MAX_WINDOW), Account(window, 0, 0), window, true, true, true, [])
  }

  function Start(wa: nat, wb: nat): System {
    System(NewPeer(wa, wb), NewPeer(wb, wa), [], [], false)
  }

  /* ---- the invariant ---- */

  function Data(q: seq<Packet>): nat {
    if |q| == 0 then 0 else (if q[0].Load? then q[0].n else 0) + Data(q[1..])
  }

  function Credits(q: seq<Packet>): nat {
    if |q| == 0 then 0 else (if q[0].Credit? then q[0].n else 0) + Credits(q[1..])
  }

  lemma {:induction false} Sums(q: seq<Packet>, r: seq<Packet>)
    ensures Data(q + r) == Data(q) + Data(r) && Credits(q + r) == Credits(q) + Credits(r)
    decreases |q|
  {
    if |q| == 0 {
      assert q + r == r;
    } else {
      Sums(q[1..], r);
      assert (q + r)[1..] == q[1..] + r;
    }
  }

  /** Credit held by the sender or on its way, in either direction, held back or not. */
  function Outstanding(from: Peer, to: Peer, out: seq<Packet>, back: seq<Packet>): nat {
    from.transwindow + Data(from.held) + Data(out) + Credits(to.held) + Credits(back)
  }

  /** A receiver's books when the peer holds so much of its credit. */
  ghost predicate Counted(to: Peer, outstanding: nat) {
    && to.window <= TRANS_MAX_WINDOW && to.window <= TRANS_MAX_WIN_INCR
    && to.acct.rw + to.acct.done + to.acct.used <= to.window
    && outstanding <= to.acct.rw
    && (to.intact ==> to.acct.rw + to.acct.done + to.acct.used == to.window && outstanding == to.acct.rw)
  }

  ghost predicate Balanced(to: Peer, outstanding: nat) {
    Counted(to, outstanding) && (to.acct.done < to.window / 3 || to.acct.done == 0)
  }

  /** All of the credit a receiver has given is accounted for; while all data reaches its local side, none is lost. */
  ghost predicate Safe(from: Peer, to: Peer, out: seq<Packet>, back: seq<Packet>) {
    Balanced(to, Outstanding(from, to, out, back))
  }

  ghost predicate Inv(s: System) {
    !s.halted && Safe(s.a, s.b, s.ab, s.ba) && Safe(s.b, s.a, s.ba, s.ab)
  }

  lemma {:induction false} PutSums(s: System, p: Packet)
    ensures var t := Put(s, p);
            && Data(t.a.held) + Data(t.ab) == Data(s.a.held) + Data(s.ab) + (if p.Load? then p.n else 0)
            && Credits(t.a.held) + Credits(t.ab) == Credits(s.a.held) + Credits(s.ab) + (if p.Credit? then p.n else 0)
  {
    Sums(s.ab, [p]);
    Sums(s.a.held, [p]);
  }

  /** Writing n bytes and crediting them keeps the books straight. */
  lemma {:induction false} CreditKeeps(s: System)
    requires !s.halted && Safe(s.a, s.b, s.ab, s.ba)
    requires Counted(s.a, Outstanding(s.b, s.a, s.ba, s.ab))
    ensures Inv(GiveCredit(s))
  {
    var acct := s.a.acct;
    var t := s.(a := s.a.(acct := Credited(acct, s.a.window)));
    if acct.done >= s.a.window / 3 { PutSums(t, Credit(acct.done)); }
  }

  lemma {:induction false} SendKeeps(s: System, n: nat)
    requires Inv(s)
    ensures Inv(Act(s, Send(n)))
  {
    if 0 < n <= s.a.transwindow { PutSums(s.(a := s.a.(transwindow := s.a.transwindow - n)), Load(n)); }
  }

  lemma {:induction false} WriteKeeps(s: System, n: nat)
    requires Inv(s)
    ensures Inv(Act(s, Write(n)))
  {
    var p := s.a;
    if p.open && n <= p.acct.used {
      CreditKeeps(Book(s, 0, n));
    }
  }

  lemma {:induction false} BookKeeps(s: System, len: nat, m: nat)
    requires !s.halted && Safe(s.a, s.b, s.ab, s.ba) && m <= s.a.acct.used + len
    requires Counted(s.a, Outstanding(s.b, s.a, s.ba, s.ab) + len)
    ensures Inv(GiveCredit(Book(s, len, m)))
  {
    CreditKeeps(Book(s, len, m));
  }

  lemma {:induction false} LoseKeeps(s: System, len: nat)
    requires !s.halted && Safe(s.a, s.b, s.ab, s.ba)
    requires Counted(s.a, Outstanding(s.b, s.a, s.ba, s.ab) + len)
    ensures Inv(GiveCredit(LoseBytes(s, len)))
  {
    CreditKeeps(LoseBytes(s, len));
  }

  /** No packet is ever beyond the window: neither "Oversized packet" nor the window assertions. */
  lemma {:induction false} BytesKeep(s: System, len: nat, n: Option<nat>)
    requires !s.halted && Safe(s.a, s.b, s.ab, s.ba)
    requires Balanced(s.a, Outstanding(s.b, s.a, s.ba, s.ab) + len)
    ensures Inv(TakeBytes(s, len, n))
  {
    var p := s.a;
    if p.open {
      if n.None? { LoseKeeps(s, len); } else { BookKeeps(s, len, Min(n.value, p.acct.used + len)); }
    }
  }

  lemma {:induction false} TakeKeeps(s: System, n: Option<nat>)
    requires Inv(s)
    ensures |s.ba| > 0 ==> Inv(TakePacket(s, n))
  {
    if |s.ba| > 0 {
      var t := s.(ba := s.ba[1..]);
      assert [s.ba[0]] + t.ba == s.ba;
      Sums([s.ba[0]], t.ba);
      if s.ba[0].Load? { BytesKeep(t, s.ba[0].n, n); }
    }
  }

  lemma {:induction false} FlushKeeps(s: System)
    requires Inv(s)
    ensures Inv(Act(s, Flush))
  {
    Sums(s.ab, s.a.held);
  }

  lemma {:induction false} ActKeeps(s: System, x: Action)
    requires Inv(s)
    ensures Inv(Act(s, x))
  {
    match x
    case Send(n) => SendKeeps(s, n);
    case Deliver(n) => TakeKeeps(s, Some(n));
    case Lose => TakeKeeps(s, None);
    case Write(n) => WriteKeeps(s, n);
    case Break => CreditKeeps(s.(a := s.a.(open := false)));
    case Shut =>
    case Restart =>
    case Hold =>
    case Release =>
    case Flush => FlushKeeps(s);
  }

  lemma {:induction false} RunKeeps(s: System, moves: seq<Move>)
    requires Inv(s)
    ensures Inv(Run(s, moves))
    decreases |moves|
  {
    if |moves| > 0 {
      ActKeeps(s, moves[0].x);
      ActKeeps(Swap(s), moves[0].x);
      RunKeeps(Step(s, moves[0].left, moves[0].x), moves[1..]);
    }
  }

  /** In every run of two peers, no credit is created, and none is lost while all data reaches the local sides: what the
      sender may still send, what is under way and what was received add up to the window. No packet ever
      ends the session. */
  lemma {:induction false} FlowControlled(wa: nat, wb: nat, moves: seq<Move>)
    requires 0 < wa <= MAX_RECV_WINDOW && 0 < wb <= MAX_RECV_WINDOW
    ensures var s := Run(Start(wa, wb), moves);
            && !s.halted
            && s.a.transwindow + Data(s.a.held) + Data(s.ab) + Credits(s.b.held) + Credits(s.ba) <= s.b.acct.rw
            && (s.b.intact ==>
                  s.a.transwindow + Data(s.a.held) + Data(s.ab) + Credits(s.b.held) + Credits(s.ba)
                  + s.b.acct.done + s.b.acct.used == s.b.window == wb)
  {
    WindowsStay(Start(wa, wb), moves);
    RunKeeps(Start(wa, wb), moves);
  }

  predicate SameWindows(s: System, t: System) { s.a.window == t.a.window && s.b.window == t.b.window }

  lemma {:induction false} CreditWindows(s: System)
    ensures SameWindows(s, GiveCredit(s))
  {
  }

  lemma {:induction false} TakeWindows(s: System, n: Option<nat>)
    requires |s.ba| > 0
    ensures SameWindows(s, TakePacket(s, n))
  {
    var t := s.(ba := s.ba[1..]);
    if s.ba[0].Load? {
      var len, p := s.ba[0].n, t.a;
      if p.open && len <= p.acct.rw {
        CreditWindows(LoseBytes(t, len));
        if n.Some? { CreditWindows(Book(t, len, Min(n.value, p.acct.used + len))); }
      }
    }
  }

  lemma {:induction false} ActWindows(s: System, x: Action)
    ensures SameWindows(s, Act(s, x))
  {
    match x
    case Deliver(n) => if |s.ba| > 0 { TakeWindows(s, Some(n)); }
    case Lose => if |s.ba| > 0 { TakeWindows(s, None); }
    case Write(n) => if s.a.open && n <= s.a.acct.used { CreditWindows(Book(s, 0, n)); }
    case Break => CreditWindows(s.(a := s.a.(open := false)));
    case Send(n) =>
    case Shut =>
    case Restart =>
    case Hold =>
    case Release =>
    case Flush =>
  }

  lemma {:induction false} WindowsStay(s: System, moves: seq<Move>)
    ensures SameWindows(s, Run(s, moves))
    decreases |moves|
  {
    if |moves| > 0 {
      ActWindows(s, moves[0].x);
      ActWindows(Swap(s), moves[0].x);
      WindowsStay(Step(s, moves[0].left, moves[0].x), moves[1..]);
    }
  }

  /** The peers cannot starve each other: when a sender has no credit and nothing is under way, the receiver
      still has more than two thirds of its window to write, and writing it returns credit. */
  lemma {:induction false} NoDeadlock(wa: nat, wb: nat, moves: seq<Move>)
    requires 3 <= wa <= MAX_RECV_WINDOW && 3 <= wb <= MAX_RECV_WINDOW
    ensures var s := Run(Start(wa, wb), moves);
            s.b.intact && s.a.transwindow == 0 && s.a.held == s.ab == s.b.held == s.ba == [] ==>
              s.b.acct.used > wb - wb / 3
  {
    WindowsStay(Start(wa, wb), moves);
    RunKeeps(Start(wa, wb), moves);
  }

  /* ---- what a channel does is such a step ---- */

  /** The channel as one side sees it. */
  ghost predicate Matches(c: Chan, p: Peer)
    reads c, c.writebuf
  {
    c.transwindow == p.transwindow && c.Acct() == p.acct && c.window == p.window && (c.fds.writefd >= 0 <==> p.open)
  }

  /** What becomes of the side that takes a data packet. */
  ghost predicate Taken(p: Peer, len: nat, n: Option<nat>, t: Peer, halted: bool) {
    && (halted <==> p.open && (len > p.window - p.acct.used || len > p.acct.rw))
    && t.transwindow == p.transwindow && t.window == p.window
    && (!halted ==> t.open == (p.open && n.Some?))
    && (!p.open ==> t.acct == p.acct)
    && (p.open && !halted && n.None? ==>
          t.acct == Credited(Account(p.acct.rw - len, p.acct.done, p.acct.used), p.window))
    && (p.open && !halted && n.Some? ==>
          var m := Min(n.value, p.acct.used + len);
          t.acct == Credited(Account(p.acct.rw - len, p.acct.done + m, p.acct.used + len - m), p.window))
  }

  lemma {:induction false} TakeMeans(s: System, n: Option<nat>)
    requires |s.ba| > 0 && s.ba[0].Load? && !s.halted
    ensures var t := TakePacket(s, n); Taken(s.a, s.ba[0].n, n, t.a, t.halted)
  {
  }

  method RecvDataAs(c: Chan, ghost p: Peer, data: seq<byte>, w: WriteResult, writev: bool, ghost t: Peer, ghost halted: bool)
      returns (halt: bool)
    requires c.Valid() && Matches(c, p) && !c.recvEof
    requires Taken(p, |data|, if w.WriteError? then None else Some(Written(w, writev, c.writebuf.used + |data|, c.writebuf.Front())),
                   t, halted)
    modifies c`recvdonelen, c`written, c`fds, c`failed, c`recvwindow, c`sent, c`received, c.writebuf, c.writebuf.data
    ensures halt <==> halted
    ensures c.Valid() && (!halt ==> Matches(c, t))
  {
    halt := c.RecvData(data, w, writev);
  }

  /** Channel data is taken, or lost with the local side; the session ends as in the step. */
  method RecvDataSteps(c: Chan, ghost s: System, data: seq<byte>, w: WriteResult, writev: bool)
      returns (halt: bool, ghost x: Action)
    requires c.Valid() && Matches(c, s.a) && !c.recvEof && !s.halted && |s.ba| > 0 && s.ba[0] == Load(|data|)
    modifies c`recvdonelen, c`written, c`fds, c`failed, c`recvwindow, c`sent, c`received, c.writebuf, c.writebuf.data
    ensures halt <==> Act(s, x).halted
    ensures !halt ==> c.Valid() && Matches(c, Act(s, x).a)
  {
    ghost var n := Written(w, writev, c.writebuf.used + |data|, c.writebuf.Front());
    x := if w.WriteError? then Lose else Deliver(n);
    ghost var t := Act(s, x);
    TakeMeans(s, if w.WriteError? then None else Some(n));
    halt := RecvDataAs(c, s.a, data, w, writev, t.a, t.halted);
  }

  method WriteReadySteps(c: Chan, ghost s: System, w: WriteResult, writev: bool) returns (ghost x: Action)
    requires c.Valid() && Matches(c, s.a) && c.fds.writefd >= 0
    modifies c`recvdonelen, c`written, c`fds, c`failed, c`recvwindow, c`sent, c.writebuf
    ensures c.Valid() && Matches(c, Act(s, x).a)
  {
    ghost var n := Written(w, writev, c.writebuf.used, c.writebuf.Front());
    x := if w.WriteError? && (!writev || c.writebuf.used > 0) then Break else Write(n);
    c.WriteReady(w, writev);
  }

  method RecvAdjustSteps(c: Chan, ghost s: System, incr: nat)
    requires c.Valid() && Matches(c, s.a) && |s.ba| > 0 && s.ba[0] == Credit(incr)
    modifies c`transwindow
    ensures c.Valid() && Matches(c, Act(s, Deliver(0)).a)
  {
    c.RecvAdjust(incr);
  }

  /** Data read from the local side is sent within the window; a pty that ends takes its write side along. */
  method SendDataSteps(c: Chan, ghost s: System, ext: bool, r: ReadResult) returns (ghost n: nat)
    requires c.Life() && Matches(c, s.a) && (if ext then c.fds.errfd else c.fds.readfd) >= 0
    modifies c`sent, c`fds, c`transwindow
    ensures c.Life() && (c.sent == old(c.sent) || (c.sent.Then? && c.sent.m.Data? && |c.sent.m.bytes| == n))
    ensures Matches(c, Act(s, Send(n)).a) || Matches(c, Act(Act(s, Send(n)), Shut).a)
  {
    n := |ReadOutcome(MaxLen(c.transwindow, c.transmaxpacket, ext), c.flushing, r).d|;
    c.SendData(ext, r);
  }
}
