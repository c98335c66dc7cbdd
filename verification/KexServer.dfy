/** The server's side of a key exchange. */
module KexServer {
  import opened Kex
  import opened Bytes

  /** The next keys: which exchange they come from, and for which directions they wait to be installed. */
  datatype NewKeys = NewKeys(gen: nat, recvValid: bool, transValid: bool)

  /** A packet in the reply queue. */
  datatype Held = Held(typ: nat, id: nat)

  ghost function Ids(held: seq<Held>): seq<nat> {
    if |held| == 0 then [] else (if Ordinary(held[0].typ) then [held[0].id] else []) + Ids(held[1..])
  }

  lemma {:induction false} IdsOn(held: seq<Held>, h: Held)
    ensures Ids(held + [h]) == Ids(held) + if Ordinary(h.typ) then [h.id] else []
    decreases |held|
  {
    if |held| == 0 {
      assert held + [h] == [h] && [h][1..] == [];
    } else {
      IdsOn(held[1..], h);
      assert (held + [h])[1..] == held[1..] + [h];
      Assoc(if Ordinary(held[0].typ) then [held[0].id] else [], Ids(held[1..]), if Ordinary(h.typ) then [h.id] else []);
    }
  }

  lemma {:induction false} JoinEnd(t: seq<nat>, c: seq<nat>, h: seq<nat>, x: seq<nat>)
    ensures t + c + (h + x) == (t + c + h) + x
    ensures h == [] ==> t + (c + x) + h == (t + c + h) + x
  {
  }

  datatype Verdict = Skip | Drop | Handle | NotImplemented | Exit

  /** The checks of `process_packet` before a handler is looked up, in their order. */
  function Gate(requirenext: nat, ignorenext: bool, authdone: bool, typ: nat): Verdict {
    if Anytime(typ) then Skip
    else if typ == DISCONNECT then Exit
    else if requirenext != 0 && requirenext != typ then
      if 1 <= typ <= 49 && typ != SERVICE_REQUEST && typ != SERVICE_ACCEPT && typ != KEXINIT then NotImplemented else Exit
    else if ignorenext then Drop
    else if !authdone && typ > MAX_UNAUTH_PACKET_TYPE then Exit
    else Handle
  }

  /** What becomes of an ordinary packet: no handler is found, or its handler sends packets and may log the user in. */
  datatype Reaction = Unknown | Handled(replies: seq<Held>, login: bool)

  function Replies(r: Reaction): seq<Held> { if r.Handled? then r.replies else [] }

  /** A turn of the main loop, or the peer takes a packet. */
  datatype Event =
    | Loop(rekey: bool, early: seq<Held>, pkt: Option<Packet>, reaction: Reaction, late: seq<Held>)
    | Take

  ghost predicate AllOrdinary(packets: seq<Held>) {
    forall i :: 0 <= i < |packets| ==> Ordinary(packets[i].typ)
  }

  ghost predicate Plausible(e: Event) {
    e.Loop? ==> AllOrdinary(e.early) && AllOrdinary(Replies(e.reaction)) && AllOrdinary(e.late)
  }

  /** Packets leave in order and under the right keys, and no ordinary packet is lost or overtaken. */
  ghost predicate Streamed(seen: Place, wire: seq<Packet>, p: Place, taken: seq<nat>, held: seq<Held>, handed: seq<nat>) {
    && Leads(seen, wire, p) && NotAfter(seen, p)
    && taken + Contents(wire) + Ids(held) == handed && AllOrdinary(held)
  }

  class Server {
    var sentkexinit: bool
    var recvkexinit: bool
    var sentnewkeys: bool
    var recvnewkeys: bool
    var dataallowed: bool
    var requirenext: nat
    var ignorenext: bool
    var authdone: bool
    var newkeys: Option<NewKeys>
    var recvGen: nat                  // generation of ses.keys->recv
    var transGen: nat                 // generation of ses.keys->trans
    var exchanges: nat                // key exchanges completed
    var held: seq<Held>               // the reply queue
    var wire: seq<Packet>             // sent and not yet taken by the peer
    var halted: bool

    var peer: Peer                    // the peer, by what we have received from it
    var seen: Place                     // our place in what the peer has taken
    ghost var p: Place                  // our place in what we send
    ghost var taken: seq<nat>         // ordinary packets the peer has taken
    ghost var handed: seq<nat>        // ordinary packets handed to encrypt_packet

    ghost predicate Stream()
      reads this
    {
      Streamed(seen, wire, p, taken, held, handed)
    }

    /** The peer has sent its KEXDH_INIT and the server has thrown it away. */
    predicate Stuck()
      reads this
    {
      peer.at.phase.Last? && Misled(peer.guess)
    }

    /** How far the two places can be apart. */
    ghost predicate InStep()
      reads this
    {
      match peer.at.phase
      case Open => p == peer.at || p == Next(peer.at)
      case Init => p == peer.at
      case Last => p == if Stuck() then Place(peer.at.gen, Init) else Next(peer.at)
    }

    /** The next packet with the type required is to be dropped. */
    ghost predicate Guessed()
      reads this
    {
      && (peer.owed ==> peer.at.phase.Init? && peer.guess.Wrong? && GuessOk(peer.guess))
      && ignorenext == (peer.at.phase.Init? && (peer.owed || Misled(peer.guess)))
    }

    /** The flags say where the exchange is. */
    ghost predicate Flags()
      reads this
    {
      && exchanges == peer.at.gen && recvGen == peer.at.gen && transGen == p.gen
      && sentkexinit == (p != Place(exchanges, Open)) && recvkexinit == !peer.at.phase.Open?
      && sentnewkeys == (p == Place(exchanges + 1, Open)) && !recvnewkeys
      && dataallowed == p.phase.Open?
      && requirenext == (if peer.at == START then KEXINIT else if peer.at.phase.Open? then 0
                         else if peer.at.phase.Init? || Stuck() then KEXDH_INIT else NEWKEYS)
      && newkeys == (if !sentkexinit then None
                     else if sentnewkeys then Some(NewKeys(exchanges + 1, true, false))
                     else Some(NewKeys(0, false, false)))
    }

    ghost predicate Valid()
      reads this
    {
      !halted && Stream() && InStep() && Guessed() && Flags()
    }

    /** At the turn of the main loop nothing is held back without need. */
    ghost predicate Settled()
      reads this
    {
      dataallowed ==> held == []
    }

    /** No packet is held back or let through at the wrong time: data may flow except between our KEXINIT and
        our NEWKEYS, and then no ordinary packet goes out. */
    lemma {:induction false} DataAllowedExactly()
      requires Valid()
      ensures dataallowed <==> !(sentkexinit && !sentnewkeys)
    {
    }

    /** Once the peer has sent its KEXDH_INIT, the server has answered it and sent NEWKEYS exactly when there was
        no wrong guess or the packet sent on it was a KEXDH_INIT too. */
    lemma {:induction false} AnsweredExactly()
      requires Valid() && peer.at.phase.Last?
      ensures sentnewkeys <==> peer.guess.Fine? || peer.guess == Wrong(KEXDH_INIT)
      ensures !sentnewkeys ==> !dataallowed && requirenext == KEXDH_INIT && !NotAfter(peer.at, seen)
    {
    }

    /** `common_session_init` and `kexfirstinitialise`. */
    constructor ()
      ensures Valid() && Settled() && peer == Peer(START, Fine, false) && p == seen == START && taken == [] && wire == [] && handed == [] && !sentkexinit
    {
      sentkexinit, recvkexinit, sentnewkeys, recvnewkeys, dataallowed := false, false, false, false, true;
      requirenext, newkeys, recvGen, transGen, exchanges := KEXINIT, None, 0, 0, 0;
      ignorenext, authdone := false, false;
      held, wire, halted := [], [], false;
      peer, p, seen, taken, handed := Peer(START, Fine, false), START, START, [], [];
    }

    function Encrypted(typ: nat, id: nat): Packet
      reads this
    {
      Packet(typ, transGen, id, Fine)
    }

    /** The part of `encrypt_packet` that puts a packet on the wire. */
    method Transmit(typ: nat, id: nat)
      requires Leads(seen, wire, p) && NotAfter(seen, p) && MaySend(p, Encrypted(typ, id))
      modifies this`wire, this`p
      ensures Leads(seen, wire, p) && NotAfter(seen, p) && p == After(old(p), Encrypted(typ, id))
      ensures wire == old(wire) + [Encrypted(typ, id)]
      ensures Contents(wire) == Contents(old(wire)) + if Ordinary(typ) then [id] else []
    {
      LeadsOn(seen, wire, p, Encrypted(typ, id));
      ContentsOn(wire, Encrypted(typ, id));
      wire := wire + [Encrypted(typ, id)];
      p := After(p, Encrypted(typ, id));
    }

    /** `encrypt_packet` for a packet that is not held back during a key exchange. */
    method SendKex(typ: nat)
      requires Stream() && MaySend(p, Encrypted(typ, 0)) && !Ordinary(typ)
      modifies this`wire, this`p
      ensures Stream() && p == After(old(p), Encrypted(typ, 0)) && wire == old(wire) + [Encrypted(typ, 0)]
    {
      assert Contents(wire) + [] == Contents(wire);
      Transmit(typ, 0);
    }

    /** `encrypt_packet` for an ordinary packet: held back during a key exchange, else sent. */
    method SendOrdinary(typ: nat, id: nat)
      requires Valid() && Settled() && Ordinary(typ) && p != START
      modifies this`wire, this`p, this`held, this`handed
      ensures Valid() && Settled() && p == old(p) && handed == old(handed) + [id]
      ensures wire == if dataallowed then old(wire) + [Encrypted(typ, id)] else old(wire)
      ensures held == if dataallowed then [] else old(held) + [Held(typ, id)]
    {
      JoinEnd(taken, Contents(wire), Ids(held), [id]);
      if !dataallowed && !OkayKex(typ) {
        IdsOn(held, Held(typ, id));
        held := held + [Held(typ, id)];
      } else {
        Transmit(typ, id);
      }
      handed := handed + [id];
    }

    /* ---- the exchange ---- */

    /** `send_msg_kexinit`. */
    method SendKexinit()
      requires Valid() && Settled() && !sentkexinit
      modifies this`wire, this`p, this`dataallowed, this`sentkexinit, this`newkeys
      ensures Valid() && Settled() && p == Next(old(p)) && sentkexinit
      ensures wire == old(wire) + [Encrypted(KEXINIT, 0)]
    {
      SendKex(KEXINIT);
      dataallowed := false;
      sentkexinit := true;
      newkeys := Some(NewKeys(0, false, false));
      assert InStep() && Guessed();
      assert Flags();
    }

    /** `switch_keys`: the new keys are thrown away only when both directions use them. */
    method SwitchKeys()
      requires newkeys.Some? && !halted
      modifies this`recvGen, this`transGen, this`newkeys, this`halted, this`exchanges
      modifies this`sentkexinit, this`recvkexinit, this`sentnewkeys, this`recvnewkeys
      ensures halted <==> !old(sentkexinit && recvkexinit)
      ensures !halted ==>
                recvGen == if old(recvnewkeys && newkeys.value.recvValid) then old(newkeys.value.gen) else old(recvGen)
      ensures !halted ==>
                transGen == if old(sentnewkeys && newkeys.value.transValid) then old(newkeys.value.gen) else old(transGen)
      ensures !halted && old(sentnewkeys && recvnewkeys) ==>
                && newkeys == None && exchanges == old(exchanges) + 1
                && !sentkexinit && !recvkexinit && !sentnewkeys && !recvnewkeys
      ensures !halted && !old(sentnewkeys && recvnewkeys) ==>
                && newkeys == Some(NewKeys(old(newkeys.value.gen), old(newkeys.value.recvValid && !recvnewkeys),
                                           old(newkeys.value.transValid && !sentnewkeys)))
                && exchanges == old(exchanges) && sentkexinit == old(sentkexinit) && recvkexinit == old(recvkexinit)
                && sentnewkeys == old(sentnewkeys) && recvnewkeys == old(recvnewkeys)
    {
      if !(sentkexinit && recvkexinit) {
        halted := true;
        return;
      }
      if recvnewkeys && newkeys.value.recvValid {
        recvGen := newkeys.value.gen;
        newkeys := Some(newkeys.value.(recvValid := false));
      }
      if sentnewkeys && newkeys.value.transValid {
        transGen := newkeys.value.gen;
        newkeys := Some(newkeys.value.(transValid := false));
      }
      if sentnewkeys && recvnewkeys {
        newkeys := None;
        sentkexinit, recvkexinit, sentnewkeys, recvnewkeys := false, false, false, false;
        exchanges := exchanges + 1;
      }
    }

    /** `recv_msg_kexinit`, for a server: a packet sent on a guess it finds wrong is to be ignored. */
    method RecvKexinit(guess: Guess)
      requires Valid() && Settled() && peer.at.phase.Open? && GuessOk(guess)
      modifies this`wire, this`p, this`peer, this`dataallowed, this`sentkexinit, this`newkeys, this`requirenext
      modifies this`ignorenext, this`recvkexinit
      ensures Valid() && Settled() && peer == Peer(Next(old(peer).at), guess, guess.Wrong?) && NotAfter(old(p), p)
    {
      if !sentkexinit { SendKexinit(); }
      if !guess.Fine? { ignorenext := true; }
      requirenext := KEXDH_INIT;
      recvkexinit := true;
      peer := Peer(Next(peer.at), guess, guess.Wrong?);
    }

    /** `send_msg_newkeys`: NEWKEYS still goes out under the old keys. */
    method SendNewkeys()
      requires !halted && Stream() && transGen == p.gen && p.phase.Last? && sentkexinit && recvkexinit && !sentnewkeys && !recvnewkeys
      requires newkeys.Some? && transGen == exchanges
      modifies this`wire, this`p, this`sentnewkeys, this`dataallowed, this`newkeys
      modifies this`recvGen, this`transGen, this`halted, this`exchanges, this`sentkexinit, this`recvkexinit, this`recvnewkeys
      ensures !halted && Stream() && p == Next(old(p)) && sentnewkeys && dataallowed && transGen == old(transGen) + 1
      ensures newkeys == Some(NewKeys(old(exchanges) + 1, true, false))
      ensures wire == old(wire) + [old(Encrypted(NEWKEYS, 0))]
      ensures recvGen == old(recvGen) && exchanges == old(exchanges) && sentkexinit && recvkexinit && !recvnewkeys
    {
      SendKex(NEWKEYS);
      sentnewkeys := true;
      dataallowed := true;
      newkeys := Some(NewKeys(exchanges + 1, true, true));
      SwitchKeys();
    }

    /** `recv_msg_kexdh_init`: answer, then switch our own direction. */
    method RecvKexdhInit()
      requires Valid() && peer.at.phase.Init? && !ignorenext
      modifies this`wire, this`p, this`sentnewkeys, this`dataallowed, this`newkeys, this`requirenext, this`peer
      modifies this`recvGen, this`transGen, this`halted, this`exchanges, this`sentkexinit, this`recvkexinit, this`recvnewkeys
      ensures Valid() && peer == old(peer).(at := Next(old(peer).at)) && p == Next(Next(old(p))) && sentnewkeys
    {
      Answer();
      requirenext := NEWKEYS;
      peer := peer.(at := Next(peer.at));
    }

    /** KEXDH_REPLY and NEWKEYS. */
    method Answer()
      requires !halted && Stream() && transGen == p.gen && p.phase.Init? && sentkexinit && recvkexinit && !sentnewkeys && !recvnewkeys
      requires newkeys.Some? && transGen == exchanges
      modifies this`wire, this`p, this`sentnewkeys, this`dataallowed, this`newkeys
      modifies this`recvGen, this`transGen, this`halted, this`exchanges, this`sentkexinit, this`recvkexinit, this`recvnewkeys
      ensures !halted && Stream() && p == Next(Next(old(p))) && sentnewkeys && dataallowed && transGen == old(transGen) + 1
      ensures newkeys == Some(NewKeys(old(exchanges) + 1, true, false))
      ensures recvGen == old(recvGen) && exchanges == old(exchanges) && sentkexinit && recvkexinit && !recvnewkeys
    {
      SendKex(KEXDH_REPLY);
      SendNewkeys();
    }

    /** `recv_msg_newkeys`: switch the peer's direction and finish the exchange. */
    method RecvNewkeys()
      requires Valid() && Settled() && peer.at.phase.Last? && !Stuck()
      modifies this`recvGen, this`transGen, this`newkeys, this`halted, this`exchanges, this`peer, this`requirenext
      modifies this`sentkexinit, this`recvkexinit, this`sentnewkeys, this`recvnewkeys
      ensures Valid() && Settled() && peer == old(peer).(at := Next(old(peer).at))
      ensures old(newkeys).Some? && newkeys == None && recvGen == transGen == old(newkeys).value.gen
    {
      requirenext := 0;
      recvnewkeys := true;
      SwitchKeys();
      peer := peer.(at := Next(peer.at));
    }

    /** `maybe_flush_reply_queue`: everything held back goes out, in order. */
    method MaybeFlush()
      requires Valid() && p != START
      modifies this`held, this`wire, this`p
      ensures Valid() && Settled() && p == old(p)
    {
      if dataallowed {
        while |held| > 0
          invariant Valid() && p == old(p)
          decreases |held|
        {
          FlushOne();
        }
      }
    }

    method FlushOne()
      requires Valid() && dataallowed && |held| > 0 && p != START
      modifies this`held, this`wire, this`p
      ensures Valid() && p == old(p) && held == old(held)[1..]
    {
      ghost var h, rest := held[0], held[1..];
      JoinMiddle(taken, Contents(wire), [h.id], Ids(rest));
      Transmit(held[0].typ, held[0].id);
      held := held[1..];
    }

    /** The peer's next packet may be this one. */
    predicate Expected(pkt: Packet)
      reads this
    {
      ClientMaySend(peer, seen, authdone, pkt)
    }

    /** Which packets get past the gate: those allowed at any time are skipped, a packet sent on a wrong guess
        is dropped or answered with UNIMPLEMENTED, and a KEXDH_INIT after the latter is dropped. */
    lemma {:induction false} GateIs(pkt: Packet)
      requires Valid() && Expected(pkt)
      ensures recvGen == pkt.gen && (Stuck() ==> Anytime(pkt.typ))
      ensures Gate(requirenext, ignorenext, authdone, pkt.typ) ==
              if Anytime(pkt.typ) then Skip
              else if peer.owed then if pkt.typ == KEXDH_INIT then Drop else NotImplemented
              else if peer.at.phase.Init? && Misled(peer.guess) then Drop
              else Handle
    {
    }

    /** `process_packet` on the next packet of a conforming peer: it is decrypted with the keys it was
        encrypted with, passes the gate, and moves the exchange on. */
    method ProcessPacket(pkt: Packet, reaction: Reaction)
      requires Valid() && Settled() && p != START && Expected(pkt) && AllOrdinary(Replies(reaction))
      modifies this
      ensures Valid() && peer == ClientAfter(old(peer), pkt) && old(recvGen) == pkt.gen && NotAfter(old(p), p)
      ensures taken == old(taken) && seen == old(seen)
      ensures handed == if Ordinary(pkt.typ) then old(handed) + Ids(Replies(reaction)) else old(handed)
    {
      GateIs(pkt);
      var verdict := Gate(requirenext, ignorenext, authdone, pkt.typ);
      if verdict == Drop {
        ignorenext := false;
        peer := ClientAfter(peer, pkt);
      } else if verdict == NotImplemented {
        SendKex(UNIMPLEMENTED);
        peer := ClientAfter(peer, pkt);
      } else if verdict == Handle {
        Dispatch(pkt, reaction);
      }
    }

    /** The handlers of `process_packet`; UNIMPLEMENTED is the answer to a type that has none. */
    method Dispatch(pkt: Packet, reaction: Reaction)
      requires Valid() && Settled() && p != START && Expected(pkt) && AllOrdinary(Replies(reaction))
      requires !Anytime(pkt.typ) && !ignorenext && !Stuck()
      modifies this
      ensures Valid() && peer == ClientAfter(old(peer), pkt) && NotAfter(old(p), p)
      ensures taken == old(taken) && seen == old(seen)
      ensures handed == if Ordinary(pkt.typ) then old(handed) + Ids(Replies(reaction)) else old(handed)
    {
      if pkt.typ == KEXINIT { RecvKexinit(pkt.guess); }
      else if pkt.typ == KEXDH_INIT { RecvKexdhInit(); }
      else if pkt.typ == NEWKEYS { RecvNewkeys(); }
      else { React(pkt.typ, reaction); }
    }

    method React(typ: nat, reaction: Reaction)
      requires Valid() && Settled() && p != START && AllOrdinary(Replies(reaction))
      modifies this`wire, this`p, this`held, this`handed, this`authdone
      ensures Valid() && Settled() && p == old(p) && handed == old(handed) + Ids(Replies(reaction))
      ensures authdone <==> old(authdone) || (typ == USERAUTH_REQUEST && reaction.Handled? && reaction.login)
    {
      match reaction {
        case Unknown =>
          SendKex(UNIMPLEMENTED);
        case Handled(replies, login) =>
          SendAll(replies);
          if typ == USERAUTH_REQUEST && login { authdone := true; }
      }
    }

    method SendAll(packets: seq<Held>)
      requires Valid() && Settled() && p != START && AllOrdinary(packets)
      modifies this`wire, this`p, this`held, this`handed
      ensures Valid() && Settled() && p == old(p) && handed == old(handed) + Ids(packets)
    {
      for i := 0 to |packets|
        invariant Valid() && Settled() && p == old(p) && handed == old(handed) + Ids(packets[..i])
      {
        SendOrdinary(packets[i].typ, packets[i].id);
        IdsOn(packets[..i], packets[i]);
        assert packets[..i] + [packets[i]] == packets[..i + 1];
      }
      assert packets[..|packets|] == packets;
    }

    /** One turn of `session_loop`: timeouts, a packet, the reply queue, the channels. */
    method Turn(rekey: bool, early: seq<Held>, pkt: Option<Packet>, reaction: Reaction, late: seq<Held>)
      requires Valid() && Settled() && p != START && (pkt.Some? ==> Expected(pkt.value))
      requires AllOrdinary(early)
      requires AllOrdinary(Replies(reaction))
      requires AllOrdinary(late)
      modifies this
      ensures Valid() && Settled() && p != START && peer == (if pkt.Some? then ClientAfter(old(peer), pkt.value) else old(peer))
      ensures pkt.Some? ==> old(recvGen) == pkt.value.gen
      ensures taken == old(taken) && seen == old(seen) && (rekey ==> p != Place(old(exchanges), Open))
      ensures handed == old(handed) + Ids(early)
                        + (if pkt.Some? && Ordinary(pkt.value.typ) then Ids(Replies(reaction)) else []) + Ids(late)
    {
      CheckTimeouts(rekey, early);
      Receive(pkt, reaction);
      SendAll(late);
    }

    /** `checktimeouts`: rekeying and keepalives. */
    method CheckTimeouts(rekey: bool, early: seq<Held>)
      requires Valid() && Settled() && p != START && AllOrdinary(early)
      modifies this`wire, this`p, this`held, this`handed, this`dataallowed, this`sentkexinit, this`newkeys
      ensures Valid() && Settled() && p != START && (rekey ==> sentkexinit)
      ensures handed == old(handed) + Ids(early)
    {
      if rekey && !sentkexinit { SendKexinit(); }
      SendAll(early);
    }

    /** A packet, if one has arrived, and then the reply queue. */
    method Receive(pkt: Option<Packet>, reaction: Reaction)
      requires Valid() && Settled() && p != START && (pkt.Some? ==> Expected(pkt.value)) && AllOrdinary(Replies(reaction))
      modifies this
      ensures Valid() && Settled() && NotAfter(old(p), p)
      ensures peer == if pkt.Some? then ClientAfter(old(peer), pkt.value) else old(peer)
      ensures pkt.Some? ==> old(recvGen) == pkt.value.gen
      ensures taken == old(taken) && seen == old(seen)
      ensures handed == old(handed) + (if pkt.Some? && Ordinary(pkt.value.typ) then Ids(Replies(reaction)) else [])
    {
      assert handed + [] == handed;
      if pkt.Some? { ProcessPacket(pkt.value, reaction); }
      MaybeFlush();
    }

    /** The peer takes the next packet; it changes its receiving keys after our NEWKEYS, so in generation
        seen.gen it can decrypt it. */
    method PeerTakes() returns (pkt: Packet)
      requires Valid() && |wire| > 0
      modifies this`wire, this`seen, this`taken
      ensures Valid() && old(wire) == [pkt] + wire && pkt.gen == old(seen).gen && seen == After(old(seen), pkt)
      ensures taken == old(taken) + if Ordinary(pkt.typ) then [pkt.id] else []
      ensures Ordinary(pkt.typ) ==> old(seen).phase.Open?
    {
      pkt := wire[0];
      Assoc(taken, if Ordinary(pkt.typ) then [pkt.id] else [], Contents(wire[1..]));
      LeadsForward(After(seen, pkt), wire[1..], p);
      wire := wire[1..];
      seen := After(seen, pkt);
      taken := taken + if Ordinary(pkt.typ) then [pkt.id] else [];
    }

    /** A packet the peer may not send now does not come. */
    method OneEvent(e: Event)
      requires Valid() && Settled() && p != START && Plausible(e)
      modifies this
      ensures Valid() && Settled() && p != START
      ensures old(Stuck()) ==> peer == old(peer)
    {
      match e {
        case Loop(rekey, early, pkt, reaction, late) =>
          if pkt.None? || Expected(pkt.value) { Turn(rekey, early, pkt, reaction, late); }
        case Take => if |wire| > 0 { var packet := PeerTakes(); }
      }
    }

    /** Every run with a conforming peer, over any number of key exchanges started by either side. An exchange
        that is stuck stays so, and while it is, no ordinary packet goes out. */
    method Run(events: seq<Event>)
      requires Valid() && Settled() && p != START
      requires forall i :: 0 <= i < |events| ==> Plausible(events[i])
      modifies this
      ensures Valid() && Settled() && taken <= handed
      ensures old(Stuck()) ==> Stuck() && exchanges == old(exchanges) && !dataallowed
    {
      for i := 0 to |events|
        invariant Valid() && Settled() && p != START
        invariant old(Stuck()) ==> peer == old(peer)
      {
        OneEvent(events[i]);
      }
      JoinEnd(taken, [], Contents(wire), Ids(held));
    }

    /** The peer takes all that is on the wire. */
    method TakeAll()
      requires Valid()
      modifies this`wire, this`seen, this`taken
      ensures Valid() && seen == p && wire == []
    {
      while |wire| > 0
        invariant Valid()
      {
        var packet := PeerTakes();
      }
    }

    method Comes(typ: nat, guess: Guess)
      requires Valid() && Settled() && p != START && Expected(Packet(typ, peer.at.gen, 0, guess)) && !Ordinary(typ)
      modifies this
      ensures Valid() && Settled() && p != START && peer == ClientAfter(old(peer), Packet(typ, old(peer).at.gen, 0, guess))
    {
      Turn(false, [], Some(Packet(typ, peer.at.gen, 0, guess)), Unknown, []);
    }

    /** A whole exchange, started by the peer: it completes exactly when the packet sent on a wrong guess, if
        there is one, is a KEXDH_INIT. */
    method Exchange(guess: Guess)
      requires Valid() && Settled() && p != START && peer.at.phase.Open? && GuessOk(guess)
      modifies this
      ensures Valid() && Settled()
      ensures exchanges == old(exchanges) + (if guess.Fine? || guess == Wrong(KEXDH_INIT) then 1 else 0)
      ensures !(guess.Fine? || guess == Wrong(KEXDH_INIT)) ==> Stuck() && wire == []
    {
      Comes(KEXINIT, guess);
      if guess.Wrong? { Comes(guess.typ, Fine); }
      Comes(KEXDH_INIT, Fine);
      TakeAll();
      if !Misled(guess) { Comes(NEWKEYS, Fine); }
    }
  }

  /** The failing run: a new session whose peer guesses diffie-hellman-group-exchange and sends its first packet,
      of type 34. It is answered with UNIMPLEMENTED, the KEXDH_INIT that follows is dropped, and the server has
      nothing more to send while it waits for another. */
  method StallsOnGroupExchange() returns (s: Server)
    ensures fresh(s) && s.Valid() && s.Stuck() && s.exchanges == 0 && s.wire == [] && s.requirenext == KEXDH_INIT
  {
    s := new Server();
    s.SendKexinit();
    s.Exchange(Wrong(34));
  }

  lemma {:induction false} JoinMiddle(t: seq<nat>, c: seq<nat>, x: seq<nat>, r: seq<nat>)
    ensures t + (c + x) + r == t + c + (x + r)
  {
  }
}
