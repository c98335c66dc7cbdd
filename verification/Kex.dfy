/** Key exchanges of common-kex.c, svr-kex.c, process-packet.c and the reply queue of packet.c, against a peer
    that follows section 7 of RFC 4253. */
module Kex {
  import opened Bytes

  const DISCONNECT: nat := 1
  const IGNORE: nat := 2
  const UNIMPLEMENTED: nat := 3
  const DEBUG: nat := 4
  const SERVICE_REQUEST: nat := 5
  const SERVICE_ACCEPT: nat := 6
  const KEXINIT: nat := 20
  const NEWKEYS: nat := 21
  const KEXDH_INIT: nat := 30
  const KEXDH_REPLY: nat := 31
  const USERAUTH_REQUEST: nat := 50
  const MAX_UNAUTH_PACKET_TYPE: nat := 60

  /** What a KEXINIT says about a packet sent on a guess (first_kex_packet_follows): nothing, or a right guess;
      a guess both sides find wrong, and the type of the packet sent on it; or a guess which only the server
      finds wrong, so that the peer sends its KEXDH_INIT once. */
  datatype Guess = Fine | Wrong(typ: nat) | Unshared

  /** A packet under way: its type, the generation of the keys it was encrypted with, its contents, and for a
      KEXINIT the guess. */
  datatype Packet = Packet(typ: nat, gen: nat, id: nat, guess: Guess)

  /** `packet_is_okay_kex`. */
  predicate OkayKex(typ: nat) {
    typ < USERAUTH_REQUEST && typ != SERVICE_REQUEST && typ != SERVICE_ACCEPT && typ != KEXINIT
  }

  /** Service, user authentication and connection messages: what section 7.1 of RFC 4253 forbids between
      KEXINIT and NEWKEYS, apart from KEXINIT itself. */
  predicate Ordinary(typ: nat) {
    typ == SERVICE_REQUEST || typ == SERVICE_ACCEPT || typ >= USERAUTH_REQUEST
  }

  /** Messages allowed at any time. */
  predicate Anytime(typ: nat) { typ == IGNORE || typ == UNIMPLEMENTED || typ == DEBUG }

  /* ---- what a conforming side sends ---- */

  /** Where a side is between two of its NEWKEYS: before its KEXINIT, before its KEXDH_INIT or KEXDH_REPLY, or
      before NEWKEYS. */
  datatype Phase = Open | Init | Last

  /** A side's place in its own stream of packets. Every packet up to NEWKEYS, and NEWKEYS itself, is encrypted
      with the keys of its generation. */
  datatype Place = Place(gen: nat, phase: Phase)

  const START := Place(0, Open)

  function Next(at: Place): Place {
    match at.phase
    case Open => Place(at.gen, Init)
    case Init => Place(at.gen, Last)
    case Last => Place(at.gen + 1, Open)
  }

  predicate NotAfter(a: Place, b: Place) {
    a.gen < b.gen || (a.gen == b.gen && (a.phase.Open? || b.phase.Last? || a.phase == b.phase))
  }

  /** What a server sends. */
  predicate MaySend(at: Place, p: Packet) {
    && p.gen == at.gen
    && (Anytime(p.typ)
        || match at.phase {
             case Open => p.typ == KEXINIT || (Ordinary(p.typ) && at != START)
             case Init => p.typ == KEXDH_REPLY
             case Last => p.typ == NEWKEYS
           })
  }

  function After(at: Place, p: Packet): Place {
    if Ordinary(p.typ) || Anytime(p.typ) then at else Next(at)
  }

  /** A client: its place, the guess of its last KEXINIT, and whether the packet sent on a wrong guess is still
      to come. */
  datatype Peer = Peer(at: Place, guess: Guess, owed: bool)

  /** What a client sends when it has taken the server's packets up to place `seen`: a packet on a wrong guess
      comes right after KEXINIT, and NEWKEYS only after the server's KEXDH_REPLY. */
  predicate ClientMaySend(peer: Peer, seen: Place, authdone: bool, p: Packet) {
    && p.gen == peer.at.gen
    && (Anytime(p.typ)
        || match peer.at.phase {
             case Open =>
               || (p.typ == KEXINIT && GuessOk(p.guess))
               || (Ordinary(p.typ) && peer.at != START && (p.typ > MAX_UNAUTH_PACKET_TYPE ==> authdone))
             case Init => p.typ == if peer.owed && peer.guess.Wrong? then peer.guess.typ else KEXDH_INIT
             case Last => p.typ == NEWKEYS && NotAfter(peer.at, seen)
           })
  }

  /** A packet sent on a guess has one of the types set apart for key exchange methods. */
  predicate GuessOk(guess: Guess) { guess.Wrong? ==> 30 <= guess.typ <= 49 }

  function ClientAfter(peer: Peer, p: Packet): Peer {
    if Ordinary(p.typ) || Anytime(p.typ) then peer
    else if p.typ == KEXINIT then Peer(Next(peer.at), p.guess, p.guess.Wrong?)
    else if peer.owed then peer.(owed := false)
    else peer.(at := Next(peer.at))
  }

  /** The server does not answer the client's KEXDH_INIT: it drops it in place of the packet sent on the guess. */
  predicate Misled(guess: Guess) {
    guess.Unshared? || (guess.Wrong? && guess.typ != KEXDH_INIT)
  }

  /** The packets lead from one place to the other. */
  ghost predicate Leads(from: Place, packets: seq<Packet>, to: Place)
    decreases |packets|
  {
    if |packets| == 0 then from == to
    else MaySend(from, packets[0]) && Leads(After(from, packets[0]), packets[1..], to)
  }

  lemma {:induction false} LeadsOn(from: Place, packets: seq<Packet>, to: Place, p: Packet)
    requires Leads(from, packets, to) && MaySend(to, p)
    ensures Leads(from, packets + [p], After(to, p))
    decreases |packets|
  {
    if |packets| == 0 {
      assert packets + [p] == [p] && [p][1..] == [];
    } else {
      LeadsOn(After(from, packets[0]), packets[1..], to, p);
      assert (packets + [p])[1..] == packets[1..] + [p];
    }
  }

  lemma {:induction false} LeadsForward(from: Place, packets: seq<Packet>, to: Place)
    requires Leads(from, packets, to)
    ensures NotAfter(from, to)
    decreases |packets|
  {
    if |packets| > 0 { LeadsForward(After(from, packets[0]), packets[1..], to); }
  }

  /** The contents of the ordinary packets. */
  ghost function Contents(packets: seq<Packet>): seq<nat> {
    if |packets| == 0 then []
    else (if Ordinary(packets[0].typ) then [packets[0].id] else []) + Contents(packets[1..])
  }

  lemma {:induction false} ContentsOn(packets: seq<Packet>, p: Packet)
    ensures Contents(packets + [p]) == Contents(packets) + if Ordinary(p.typ) then [p.id] else []
    decreases |packets|
  {
    if |packets| == 0 {
      assert packets + [p] == [p] && [p][1..] == [];
    } else {
      ContentsOn(packets[1..], p);
      assert (packets + [p])[1..] == packets[1..] + [p];
      Assoc(if Ordinary(packets[0].typ) then [packets[0].id] else [], Contents(packets[1..]),
            if Ordinary(p.typ) then [p.id] else []);
    }
  }
}
