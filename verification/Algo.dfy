/** Algorithm negotiation of common-algo.c: `buf_put_algolist` and `buf_match_algo`, section 7.1 of RFC 4253. */
module Algo {
  import opened Bytes

  const MAX_PROPOSED_ALGO: nat := 20
  const MAX_NAME_LEN: nat := 64
  const ALGOLIST_SIZE: nat := 300
  const KEXGUESS2_ALGO_NAME: string := "kexguess2@matt.ucc.asn.au"
  const NUL: char := 0 as char

  datatype Algorithm = Algorithm(name: string, usable: bool)

  /** The names in use, in order of preference. */
  function Usable(algos: seq<Algorithm>): seq<string> {
    if |algos| == 0 then []
    else (if algos[0].usable then [algos[0].name] else []) + Usable(algos[1..])
  }

  /* ---- printing ---- */

  function Join(names: seq<string>): string {
    if |names| == 0 then "" else if |names| == 1 then names[0] else names[0] + "," + Join(names[1..])
  }

  lemma {:induction false} JoinOn(names: seq<string>, n: string)
    ensures Join(names + [n]) == if |names| == 0 then n else Join(names) + "," + n
    decreases |names|
  {
    if |names| > 1 {
      JoinOn(names[1..], n);
      assert (names + [n])[1..] == names[1..] + [n];
      assert names[0] + "," + (Join(names[1..]) + "," + n) == (names[0] + "," + Join(names[1..])) + "," + n;
    } else if |names| == 1 {
      assert (names + [n])[1..] == [n];
    }
  }

  lemma {:induction false} UsableOn(algos: seq<Algorithm>, a: Algorithm)
    ensures Usable(algos + [a]) == Usable(algos) + if a.usable then [a.name] else []
    decreases |algos|
  {
    if |algos| == 0 {
      assert algos + [a] == [a] && [a][1..] == [];
    } else {
      UsableOn(algos[1..], a);
      assert (algos + [a])[1..] == algos[1..] + [a];
      Assoc(if algos[0].usable then [algos[0].name] else [], Usable(algos[1..]), if a.usable then [a.name] else []);
    }
  }

  /** `buf_put_algolist`: the names in use, separated by commas; the session ends if they do not fit the buffer. */
  method PutAlgolist(algos: seq<Algorithm>) returns (list: Option<string>)
    ensures list == if |Join(Usable(algos))| <= ALGOLIST_SIZE then Some(Join(Usable(algos))) else None
  {
    var out, doneFirst := "", false;
    for i := 0 to |algos|
      invariant out == Join(Usable(algos[..i])) && doneFirst == (|Usable(algos[..i])| > 0)
    {
      assert algos[..i] + [algos[i]] == algos[..i + 1];
      UsableOn(algos[..i], algos[i]);
      if algos[i].usable {
        JoinOn(Usable(algos[..i]), algos[i].name);
        assert "" + algos[i].name == algos[i].name;
        if doneFirst { out := out + ","; }
        doneFirst := true;
        out := out + algos[i].name;
      } else {
        assert Usable(algos[..i]) + [] == Usable(algos[..i]);
      }
    }
    assert algos[..|algos|] == algos;
    list := if |out| <= ALGOLIST_SIZE then Some(out) else None;
  }

  /* ---- parsing ---- */

  /** A C string ends at its first NUL. */
  function CString(s: string): string {
    if |s| == 0 || s[0] == NUL then "" else [s[0]] + CString(s[1..])
  }

  /** The names in s when `count` names have been started and `cur` is what has been seen of the last one; nothing
      if there is a NUL. The last name that fits takes all of the rest. */
  function Split(s: string, cur: string, count: nat): Option<seq<string>>
    decreases |s|
  {
    if count >= MAX_PROPOSED_ALGO then Some([CString(cur + s)])
    else if |s| == 0 then Some([cur])
    else if s[0] == NUL then None
    else if s[0] == ',' then
      var rest := Split(s[1..], "", count + 1);
      if rest.Some? then Some([cur] + rest.value) else None
    else Split(s[1..], cur + [s[0]], count)
  }

  /** Names as the protocol has them: not empty, no comma, no NUL. */
  predicate Plain(n: string) { |n| > 0 && ',' !in n && NUL !in n }

  predicate AllPlain(names: seq<string>) { forall i :: 0 <= i < |names| ==> Plain(names[i]) }

  lemma {:induction false} CStringPlain(s: string)
    requires NUL !in s
    ensures CString(s) == s
    decreases |s|
  {
    if |s| > 0 { CStringPlain(s[1..]); }
  }

  /** A name before a comma, or at the end. */
  lemma {:induction false} SplitName(n: string, tail: string, cur: string, count: nat)
    requires ',' !in n && NUL !in n && NUL !in cur && count < MAX_PROPOSED_ALGO
    requires tail == "" || tail[0] == ','
    ensures Split(n + tail, cur, count) == Split(tail, cur + n, count)
    decreases |n|
  {
    if |n| == 0 {
      assert n + tail == tail && cur + n == cur;
    } else {
      assert (n + tail)[1..] == n[1..] + tail && (n + tail)[0] == n[0];
      SplitName(n[1..], tail, cur + [n[0]], count);
      assert cur + [n[0]] + n[1..] == cur + n;
    }
  }

  lemma {:induction false} SplitJoin(names: seq<string>, count: nat)
    requires AllPlain(names) && |names| > 0 && count >= 1 && count + |names| <= MAX_PROPOSED_ALGO + 1
    ensures Split(Join(names), "", count) == Some(names)
    decreases |names|
  {
    var n := names[0];
    if |names| == 1 {
      assert "" + n == n && n + "" == n && names == [n];
      if count >= MAX_PROPOSED_ALGO { CStringPlain(n); } else { SplitName(n, "", "", count); }
    } else {
      var tail := "," + Join(names[1..]);
      assert Join(names) == n + tail;
      SplitName(n, tail, "", count);
      assert "" + n == n;
      SplitJoin(names[1..], count + 1);
      assert tail[1..] == Join(names[1..]);
      assert [n] + names[1..] == names;
    }
  }

  /** The loop that cuts the received list into names. */
  method ParseNames(list: string) returns (names: Option<seq<string>>)
    ensures names == if |list| > MAX_PROPOSED_ALGO * (MAX_NAME_LEN + 1) then None else Split(list, "", 1)
  {
    if |list| > MAX_PROPOSED_ALGO * (MAX_NAME_LEN + 1) { return None; }
    var done, cur, i := [], "", 0;
    assert list[0..] == list;
    ghost var whole := Split(list, "", 1);
    if whole.Some? { assert [] + whole.value == whole.value; }
    while i < |list| && |done| + 1 < MAX_PROPOSED_ALGO
      invariant 0 <= i <= |list| && |done| + 1 <= MAX_PROPOSED_ALGO
      invariant var rest := Split(list[i..], cur, |done| + 1);
                Split(list, "", 1) == if rest.Some? then Some(done + rest.value) else None
    {
      ghost var rest := Split(list[i + 1..], "", |done| + 2);
      assert list[i..][1..] == list[i + 1..];
      if list[i] == NUL { return None; }
      if list[i] == ',' {
        if rest.Some? { assert done + ([cur] + rest.value) == (done + [cur]) + rest.value; }
        done, cur := done + [cur], "";
      } else {
        cur := cur + [list[i]];
      }
      i := i + 1;
    }
    var last := if |done| + 1 >= MAX_PROPOSED_ALGO then CString(cur + list[i..]) else cur;
    names := Some(done + [last]);
  }

  /* ---- matching ---- */

  /** Positions of a match in the client's and the server's list. */
  datatype Match = Match(i: nat, j: nat)

  /** Names to compare; an algorithm that is not usable has none. */
  type Names = seq<Option<string>>

  predicate Same(cli: Names, srv: Names, i: nat, j: nat) {
    i < |cli| && j < |srv| && cli[i].Some? && cli[i] == srv[j]
  }

  /** The first match: no other in an earlier row, nor earlier in its row. */
  ghost predicate First(cli: Names, srv: Names, m: Option<Match>) {
    match m
    case None => forall i: nat, j: nat :: !Same(cli, srv, i, j)
    case Some(Match(i, j)) =>
      && Same(cli, srv, i, j)
      && (forall i': nat, j': nat :: i' < i ==> !Same(cli, srv, i', j'))
      && (forall j': nat :: j' < j ==> !Same(cli, srv, i, j'))
  }

  method FindMatch(cli: Names, srv: Names) returns (m: Option<Match>)
    ensures First(cli, srv, m)
  {
    for i := 0 to |cli|
      invariant forall i': nat, j': nat :: i' < i ==> !Same(cli, srv, i', j')
    {
      for j := 0 to |srv|
        invariant forall j': nat :: j' < j ==> !Same(cli, srv, i, j')
      {
        if srv[j].Some? && cli[i].Some? && srv[j].value == cli[i].value {
          return Some(Match(i, j));
        }
      }
    }
    m := None;
  }

  /** The names that are there. */
  ghost function Somes(names: Names): seq<string> {
    if |names| == 0 then [] else (if names[0].Some? then [names[0].value] else []) + Somes(names[1..])
  }

  lemma {:induction false} SomesIn(names: Names, n: string)
    ensures n in Somes(names) <==> Some(n) in names
    decreases |names|
  {
    if |names| > 0 {
      SomesIn(names[1..], n);
      assert names == [names[0]] + names[1..];
    }
  }

  /** The rule of RFC 4253: the first name of the client that the server has too. */
  ghost function Pick(cs: seq<string>, ss: seq<string>): Option<string> {
    if |cs| == 0 then None else if cs[0] in ss then Some(cs[0]) else Pick(cs[1..], ss)
  }

  lemma {:induction false} PickSkips(cs: seq<string>, d: seq<string>, ss: seq<string>)
    requires forall k :: 0 <= k < |cs| ==> cs[k] !in ss
    ensures Pick(cs + d, ss) == Pick(d, ss)
    decreases |cs|
  {
    if |cs| == 0 {
      assert cs + d == d;
    } else {
      PickSkips(cs[1..], d, ss);
      assert (cs + d)[1..] == cs[1..] + d;
    }
  }

  lemma {:induction false} SomesJoin(a: Names, b: Names)
    ensures Somes(a + b) == Somes(a) + Somes(b)
    decreases |a|
  {
    if |a| == 0 {
      assert a + b == b;
    } else {
      SomesJoin(a[1..], b);
      assert (a + b)[1..] == a[1..] + b;
    }
  }

  lemma {:induction false} RowWithout(cli: Names, srv: Names, i: nat, n: string)
    requires i < |cli| && cli[i] == Some(n) && forall j: nat :: !Same(cli, srv, i, j)
    ensures Some(n) !in srv
  {
    forall j: nat | j < |srv| ensures srv[j] != Some(n) { assert !Same(cli, srv, i, j); }
  }

  /** No name of an earlier row is among the server's. */
  lemma {:induction false} NoneBefore(cli: Names, srv: Names, i: nat)
    requires i <= |cli| && forall i': nat, j': nat :: i' < i ==> !Same(cli, srv, i', j')
    ensures forall k :: 0 <= k < |Somes(cli[..i])| ==> Somes(cli[..i])[k] !in Somes(srv)
  {
    var cs := Somes(cli[..i]);
    forall k | 0 <= k < |cs| ensures cs[k] !in Somes(srv) {
      SomesIn(cli[..i], cs[k]);
      SomesIn(srv, cs[k]);
      var i' :| 0 <= i' < i && cli[..i][i'] == Some(cs[k]);
      RowWithout(cli, srv, i', cs[k]);
    }
  }

  /** The search finds what the rule says. */
  lemma {:induction false} FirstIsPick(cli: Names, srv: Names, m: Option<Match>)
    requires First(cli, srv, m)
    ensures Pick(Somes(cli), Somes(srv)) == if m.Some? then cli[m.value.i] else None
  {
    var i := if m.Some? then m.value.i else |cli|;
    NoneBefore(cli, srv, i);
    assert cli[..i] + cli[i..] == cli;
    SomesJoin(cli[..i], cli[i..]);
    PickSkips(Somes(cli[..i]), Somes(cli[i..]), Somes(srv));
    if m.Some? {
      SomesIn(srv, cli[i].value);
      assert srv[m.value.j] in srv;
      assert Somes(cli[i..])[0] == cli[i].value;
    }
  }

  /** Names received are all there; local names only where usable. */
  function Remote(names: seq<string>): Names { seq(|names|, k requires 0 <= k < |names| => Some(names[k])) }

  function Local(algos: seq<Algorithm>): Names {
    seq(|algos|, k requires 0 <= k < |algos| => if algos[k].usable then Some(algos[k].name) else None)
  }

  lemma {:induction false} SomesRemote(names: seq<string>)
    ensures Somes(Remote(names)) == names
    decreases |names|
  {
    if |names| > 0 {
      SomesRemote(names[1..]);
      assert Remote(names)[1..] == Remote(names[1..]);
      assert [names[0]] + names[1..] == names;
    }
  }

  lemma {:induction false} SomesLocal(algos: seq<Algorithm>)
    ensures Somes(Local(algos)) == Usable(algos)
    decreases |algos|
  {
    if |algos| > 0 {
      SomesLocal(algos[1..]);
      assert Local(algos)[1..] == Local(algos[1..]);
    }
  }

  datatype Guess = Look | No | Yes

  /** `kexguess2` after the look at the peer's names. */
  function Looked(g: Guess, names: seq<string>): Guess {
    if g != Look then g else if KEXGUESS2_ALGO_NAME in names then Yes else No
  }

  /** `goodguess` for a match. */
  function GoodGuess(g: Guess, m: Option<Match>): bool {
    m.Some? && (if g == Yes then m.value.i == 0 else m.value.i == 0 && m.value.j == 0)
  }

  /** `buf_match_algo`: the algorithm chosen is the first of the client's that the server has too. */
  method MatchAlgo(server: bool, list: string, algos: seq<Algorithm>, guess: Guess)
    returns (chosen: Option<string>, guess': Guess, good: bool, ghost m: Option<Match>)
    ensures |list| > MAX_PROPOSED_ALGO * (MAX_NAME_LEN + 1) || Split(list, "", 1) == None ==> chosen == None && !good
    ensures |list| <= MAX_PROPOSED_ALGO * (MAX_NAME_LEN + 1) && Split(list, "", 1).Some? ==>
              var names := Split(list, "", 1).value;
              && chosen == (if server then Pick(names, Usable(algos)) else Pick(Usable(algos), names))
              && guess' == Looked(guess, names) && good == GoodGuess(guess', m)
              && (if server then First(Remote(names), Local(algos), m) else First(Local(algos), Remote(names), m))
  {
    chosen, guess', good, m := None, guess, false, None;
    var names := ParseNames(list);
    if names.None? { return; }
    guess' := Looked(guess, names.value);
    var remote, local := Remote(names.value), Local(algos);
    var cli, srv := if server then remote else local, if server then local else remote;
    var found := FindMatch(cli, srv);
    FirstIsPick(cli, srv, found);
    SomesRemote(names.value);
    SomesLocal(algos);
    m := found;
    good := GoodGuess(guess', found);
    if found.Some? { chosen := cli[found.value.i]; }
  }

  /* ---- both ends ---- */

  /** What the peer reads of a printed list. */
  function Parsed(algos: seq<Algorithm>): seq<string> {
    if Usable(algos) == [] then [""] else Usable(algos)
  }

  /** What the peer reads from a printed list: the names in use, or one empty name. */
  lemma {:induction false} ParsePrinted(algos: seq<Algorithm>)
    requires AllPlain(Usable(algos)) && |algos| <= MAX_PROPOSED_ALGO
    ensures Split(Join(Usable(algos)), "", 1) == Some(Parsed(algos))
  {
    UsableLength(algos);
    if Usable(algos) != [] { SplitJoin(Usable(algos), 1); }
  }

  lemma {:induction false} UsableLength(algos: seq<Algorithm>)
    ensures |Usable(algos)| <= |algos|
  {
    if |algos| > 0 { UsableLength(algos[1..]); }
  }

  lemma {:induction false} PickNothing(cs: seq<string>)
    requires AllPlain(cs)
    ensures Pick(cs, [""]) == Pick(cs, []) == None
    decreases |cs|
  {
    if |cs| > 0 {
      assert Plain(cs[0]);
      PickNothing(cs[1..]);
    }
  }

  /** Client and server choose the same algorithm, the first usable one of the client that the server can use
      too, or both find none. */
  lemma {:induction false} PeersAgree(client: seq<Algorithm>, server: seq<Algorithm>)
    requires AllPlain(Usable(client)) && AllPlain(Usable(server))
    requires |client| <= MAX_PROPOSED_ALGO && |server| <= MAX_PROPOSED_ALGO
    ensures var fromClient, fromServer := Split(Join(Usable(client)), "", 1), Split(Join(Usable(server)), "", 1);
            && fromClient.Some? && fromServer.Some?
            && Pick(fromClient.value, Usable(server)) == Pick(Usable(client), Usable(server))
            && Pick(Usable(client), fromServer.value) == Pick(Usable(client), Usable(server))
  {
    ParsePrinted(client);
    ParsePrinted(server);
    PickNothing(Usable(client));
    if Usable(client) == [] {
      assert forall k :: 0 <= k < |Usable(server)| ==> Plain(Usable(server)[k]);
      assert Pick([""], Usable(server)) == None;
    }
  }

  /* ---- the verdicts on a guessed packet ---- */

  /** Whether a side applies the looser rule: its peer's key exchange list has the marker. */
  predicate Looser(peerKex: seq<Algorithm>) { KEXGUESS2_ALGO_NAME in Usable(peerKex) }

  lemma {:induction false} LooserIsYes(peerKex: seq<Algorithm>)
    ensures Looked(Look, Parsed(peerKex)) == Yes <==> Looser(peerKex)
  {
  }

  lemma {:induction false} FirstRow(cli: Names, srv: Names, m: Option<Match>)
    requires First(cli, srv, m)
    ensures m.Some? && m.value.i == 0 <==> |cli| > 0 && cli[0].Some? && cli[0] in srv
    ensures m.Some? && m.value.i == 0 && m.value.j == 0 <==> Same(cli, srv, 0, 0)
  {
    if |cli| > 0 && cli[0].Some? && cli[0] in srv {
      var j: nat :| j < |srv| && srv[j] == cli[0];
      assert Same(cli, srv, 0, j);
    }
  }

  lemma {:induction false} FirstUsable(algos: seq<Algorithm>)
    ensures |Usable(algos)| > 0 ==> |algos| > 0
    ensures |algos| > 0 && algos[0].usable ==> |Usable(algos)| > 0 && Usable(algos)[0] == algos[0].name
  {
  }

  /** What the server finds: it sees the client's usable names, and its own list with gaps. */
  predicate ServerVerdict(loose: bool, client: seq<Algorithm>, server: seq<Algorithm>) {
    var uc, us := Usable(client), Usable(server);
    |uc| > 0 && uc[0] in us && (loose || (server != [] && server[0].usable && uc[0] == us[0]))
  }

  /** What the client finds: it sees its own list with gaps, and the server's usable names. */
  predicate ClientVerdict(loose: bool, client: seq<Algorithm>, server: seq<Algorithm>) {
    var uc, us := Usable(client), Usable(server);
    |uc| > 0 && uc[0] in us && client != [] && client[0].usable && (loose || uc[0] == us[0])
  }

  lemma {:induction false} ServerFinds(kexClient: seq<Algorithm>, client: seq<Algorithm>, server: seq<Algorithm>, m: Option<Match>)
    requires AllPlain(Usable(client)) && AllPlain(Usable(server)) && First(Remote(Parsed(client)), Local(server), m)
    ensures GoodGuess(Looked(Look, Parsed(kexClient)), m) <==> ServerVerdict(Looser(kexClient), client, server)
  {
    var cli, srv := Remote(Parsed(client)), Local(server);
    LooserIsYes(kexClient);
    FirstRow(cli, srv, m);
    SomesLocal(server);
    SomesIn(srv, Parsed(client)[0]);
    FirstUsable(server);
    assert forall k :: 0 <= k < |Usable(server)| ==> Plain(Usable(server)[k]);
    if |srv| > 0 && srv[0].Some? { assert srv[0] in srv; }
  }

  lemma {:induction false} ClientFinds(kexServer: seq<Algorithm>, client: seq<Algorithm>, server: seq<Algorithm>, m: Option<Match>)
    requires AllPlain(Usable(client)) && AllPlain(Usable(server)) && First(Local(client), Remote(Parsed(server)), m)
    ensures GoodGuess(Looked(Look, Parsed(kexServer)), m) <==> ClientVerdict(Looser(kexServer), client, server)
  {
    var cli, srv := Local(client), Remote(Parsed(server));
    LooserIsYes(kexServer);
    FirstRow(cli, srv, m);
    FirstUsable(client);
    SomesRemote(Parsed(server));
    if |client| > 0 {
      SomesIn(srv, client[0].name);
      if client[0].usable { assert Plain(Usable(client)[0]); }
    }
    assert srv[0] in srv;
  }

  /** When the two sides disagree on whether the first packet was guessed right: the client's first usable name is one
      the server has, and the gaps and rules make a difference. All of it is known before the exchange. */
  predicate Disagree(kexClient: seq<Algorithm>, kexServer: seq<Algorithm>, client: seq<Algorithm>, server: seq<Algorithm>) {
    var uc, us := Usable(client), Usable(server);
    && |uc| > 0 && uc[0] in us && client != [] && server != []
    && var strict := uc[0] == us[0];
       (Looser(kexClient) || (server[0].usable && strict)) != (client[0].usable && (Looser(kexServer) || strict))
  }

  /** For all lists: `kexClient` and `kexServer` are the key exchange lists, which decide on the rule, `client` and
      `server` are those or the host key lists. */
  lemma {:induction false} GuessesAgree(kexClient: seq<Algorithm>, kexServer: seq<Algorithm>,
                                        client: seq<Algorithm>, server: seq<Algorithm>, ms: Option<Match>, mc: Option<Match>)
    requires AllPlain(Usable(client)) && AllPlain(Usable(server))
    requires First(Remote(Parsed(client)), Local(server), ms) && First(Local(client), Remote(Parsed(server)), mc)
    ensures GoodGuess(Looked(Look, Parsed(kexClient)), ms) == GoodGuess(Looked(Look, Parsed(kexServer)), mc)
            <==> !Disagree(kexClient, kexServer, client, server)
  {
    ServerFinds(kexClient, client, server, ms);
    ClientFinds(kexServer, client, server, mc);
    FirstUsable(client);
    FirstUsable(server);
  }

  /** A side that alone offers the marker: both first entries usable, both sides know the client's choice, and yet they
      disagree, for any two different names. */
  lemma {:induction false} OneSidedMarker(a: string, b: string)
    requires Plain(a) && Plain(b) && a != b
    ensures var marker := [Algorithm(KEXGUESS2_ALGO_NAME, true)];
            && Disagree(marker, [], [Algorithm(a, true), Algorithm(b, true)], [Algorithm(b, true), Algorithm(a, true)])
            && Disagree([], marker, [Algorithm(a, true), Algorithm(b, true)], [Algorithm(b, true), Algorithm(a, true)])
  {
    var marker := [Algorithm(KEXGUESS2_ALGO_NAME, true)];
    var client, server := [Algorithm(a, true), Algorithm(b, true)], [Algorithm(b, true), Algorithm(a, true)];
    assert marker[1..] == [] && Usable(marker) == [KEXGUESS2_ALGO_NAME];
    assert client[1..] == [Algorithm(b, true)] && server[1..] == [Algorithm(a, true)];
    assert Usable(client) == [a, b] && Usable(server) == [b, a];
  }

  /** An unusable first entry: a host key type that the server has disabled, under the strict rule, or one that the client
      has disabled, under either rule. */
  lemma {:induction false} UnusableFirst(a: string, b: string, kexClient: seq<Algorithm>, kexServer: seq<Algorithm>)
    requires Plain(a) && Plain(b) && Looser(kexClient) == Looser(kexServer)
    ensures Disagree(kexClient, kexServer, [Algorithm(a, false), Algorithm(b, true)], [Algorithm(b, true)])
    ensures Disagree(kexClient, kexServer, [Algorithm(b, true)], [Algorithm(a, false), Algorithm(b, true)]) <==> !Looser(kexClient)
  {
    var gap, one := [Algorithm(a, false), Algorithm(b, true)], [Algorithm(b, true)];
    assert gap[1..] == one && one[1..] == [];
    assert Usable(one) == [b] && Usable(gap) == [b];
  }

  /* ---- the whole negotiation ---- */

  ghost predicate Proper(algos: seq<Algorithm>) {
    AllPlain(Usable(algos)) && |algos| <= MAX_PROPOSED_ALGO
  }

  /** What one side makes of the other's list. */
  datatype Found = Found(chosen: Option<string>, guess: Guess, good: bool)

  /** Both sides read the other's list for one kind of algorithm, with the rule `gs` or `gc` they have found so far. */
  method MatchBoth(client: seq<Algorithm>, server: seq<Algorithm>, gs: Guess, gc: Guess)
    returns (fs: Option<Found>, fc: Option<Found>, ghost ms: Option<Match>, ghost mc: Option<Match>)
    requires Proper(client) && Proper(server)
    ensures fs.Some? == fc.Some? == (|Join(Usable(client))| <= ALGOLIST_SIZE && |Join(Usable(server))| <= ALGOLIST_SIZE)
    ensures fs.Some? ==>
              && fs.value.chosen == fc.value.chosen == Pick(Usable(client), Usable(server))
              && fs.value.guess == Looked(gs, Parsed(client)) && fc.value.guess == Looked(gc, Parsed(server))
              && fs.value.good == GoodGuess(fs.value.guess, ms) && fc.value.good == GoodGuess(fc.value.guess, mc)
              && First(Remote(Parsed(client)), Local(server), ms) && First(Local(client), Remote(Parsed(server)), mc)
  {
    fs, fc, ms, mc := None, None, None, None;
    var fromClient := PutAlgolist(client);
    var fromServer := PutAlgolist(server);
    if fromClient.None? || fromServer.None? { return; }
    ParsePrinted(client);
    ParsePrinted(server);
    PeersAgree(client, server);
    var chosen, guess, good;
    chosen, guess, good, ms := MatchAlgo(true, fromClient.value, server, gs);
    fs := Some(Found(chosen, guess, good));
    chosen, guess, good, mc := MatchAlgo(false, fromServer.value, client, gc);
    fc := Some(Found(chosen, guess, good));
  }

  /** The first two lists of `read_kex_algos` on both sides: the same choices, and for each list the verdicts agree
      exactly when the lists say so. */
  method Negotiate(kexClient: seq<Algorithm>, kexServer: seq<Algorithm>, client: seq<Algorithm>, server: seq<Algorithm>)
    returns (ks: Option<Found>, kc: Option<Found>, hs: Option<Found>, hc: Option<Found>)
    requires Proper(kexClient) && Proper(kexServer) && Proper(client) && Proper(server)
    ensures ks.Some? == kc.Some? && hs.Some? == hc.Some? && (hs.Some? ==> ks.Some?)
    ensures ks.Some? ==>
              && ks.value.chosen == kc.value.chosen == Pick(Usable(kexClient), Usable(kexServer))
              && (ks.value.good == kc.value.good <==> !Disagree(kexClient, kexServer, kexClient, kexServer))
    ensures hs.Some? ==>
              && hs.value.chosen == hc.value.chosen == Pick(Usable(client), Usable(server))
              && (hs.value.good == hc.value.good <==> !Disagree(kexClient, kexServer, client, server))
  {
    hs, hc := None, None;
    ghost var ms, mc;
    ks, kc, ms, mc := MatchBoth(kexClient, kexServer, Look, Look);
    if ks.Some? {
      GuessesAgree(kexClient, kexServer, kexClient, kexServer, ms, mc);
      hs, hc, ms, mc := MatchBoth(client, server, ks.value.guess, kc.value.guess);
      if hs.Some? { GuessesAgree(kexClient, kexServer, client, server, ms, mc); }
    }
  }
}
