/**
 * The whole life of an honest pair, from creation: the handshake phases, then
 * the channels, in one statement over every run of the bytes.
 */
module Lifetime {
  import opened Base
  import opened Mux
  import opened Wire
  import opened WirePdu
  import opened Crypto
  import opened Transcript
  import opened Engine
  import opened EngineInput
  import opened Pair
  import opened PairRun
  import opened Handshake
  import opened Agreement
  import L = EngineLife
  import N = Net
  import P = EngineProof
  import S = NetSafety
  import T = Table
  import V = NetLaws
  import W = NetTerms

  // ------------------------------------------------------------------
  // Creation
  // ------------------------------------------------------------------

  /** A server and a client as their hosts would configure them for each other. */
  predicate Matching(cr: Suite, ida: Ident, idb: Ident, serverPk: Option<Key32>, pin: Option<Key32>) {
    && ida.role == Server && idb.role == Client
    && ida.serverSk.Some? && serverPk == Some(cr.signPk(ida.serverSk.value))
    && idb.clientSk.Some? && idb.clientPk == Some(cr.signPk(idb.clientSk.value))
    && (idb.acceptAny || pin == serverPk)
    && ida.cfg.maxRecord >= 3 + CLAIMS_MAX && idb.cfg.maxRecord >= 3 + CLAIMS_MAX
    && ida.cfg.maxChannels <= MAX_CHANNELS && idb.cfg.maxChannels <= MAX_CHANNELS
  }

  /** Two fresh sessions on empty links. */
  function Fresh(cr: Suite, ida: Ident, idb: Ident, serverPk: Option<Key32>, pin: Option<Key32>,
                 ephA: Key32, ephB: Key32, headerA: Header24, headerB: Header24): Pair
    requires Matching(cr, ida, idb, serverPk, pin)
  {
    Pair(Create(cr, ida, serverPk, ephA, headerA).value, Create(cr, idb, pin, ephB, headerB).value, [], [], 0, 0, NOTHING, NOTHING)
  }

  lemma FreshStarts(cr: Suite, ida: Ident, idb: Ident, serverPk: Option<Key32>, pin: Option<Key32>,
                    ephA: Key32, ephB: Key32, headerA: Header24, headerB: Header24)
    requires Matching(cr, ida, idb, serverPk, pin)
    ensures AtPhase(cr, Fresh(cr, ida, idb, serverPk, pin, ephA, ephB, headerA, headerB), 0, [])
  {
    var n := Fresh(cr, ida, idb, serverPk, pin, ephA, ephB, headerA, headerB);
    CreatedServer(cr, ida, serverPk, ephA, headerA);
    CreatedClient(cr, idb, pin, ephB, headerB);
    hide Create, ClientHelloBody, Parse;
    NothingToParse(Limit(n.a.c));
    NothingToParse(Limit(n.b.c));
    assert [] + [] + n.b.c.out == n.b.c.out;
  }

  lemma CreatedServer(cr: Suite, id: Ident, serverPk: Option<Key32>, ephSk: Key32, header: Header24)
    requires id.role == Server && serverPk.Some? && id.serverSk.Some?
    ensures var s := Create(cr, id, serverPk, ephSk, header);
      s == Some(Side(Blank(id, serverPk).(ephPk := cr.kxPk(ephSk), ephSk := ephSk, header := header, hs := WaitPeerHello), []))
  {
  }

  lemma CreatedClient(cr: Suite, id: Ident, pin: Option<Key32>, ephSk: Key32, header: Header24)
    requires id.role == Client && (id.acceptAny || pin.Some?)
    ensures var s := Create(cr, id, pin, ephSk, header);
      var c := Blank(id, pin).(ephPk := cr.kxPk(ephSk), ephSk := ephSk, header := header, hs := WaitPeerHello);
      s == Some(Side(c.(out := Frame(ClientHelloBody(c))), []))
  {
    var c := Blank(id, pin).(ephPk := cr.kxPk(ephSk), ephSk := ephSk, header := header);
    assert |ClientHelloBody(c)| == 140;
    hide EncodeHello, Frame;
    assert AppendClear(c, ClientHelloBody(c)) == Some(c.(out := [] + Frame(ClientHelloBody(c))));
    assert [] + Frame(ClientHelloBody(c)) == Frame(ClientHelloBody(c));
  }

  // ------------------------------------------------------------------
  // From the handshake into the channels
  // ------------------------------------------------------------------

  /** A history that starts with what the host was told of the handshake. */
  function Begun(c: Ctx): N.Hist {
    N.Hist(map[], {}, [], c.log, {})
  }

  /** The Net a pair enters when the server accepts. */
  function Opening(n: Pair, claims: bytes): N.Net {
    N.Net(N.Peer(Server, n.a.c.id.cfg, Ready, map[], 0), N.Peer(Client, n.b.c.id.cfg, Auth, map[], 0),
          [AuthOk(claims)], [], Begun(n.a.c), Begun(n.b.c))
  }

  lemma EmptyShows(p: N.Peer)
    requires p.chans == map[] && p.next == 0
    ensures T.Shows(T.EMPTY, p)
  {
    hide T.EMPTY, T.Counted;
    L.EmptyTable(p.cfg.maxChannels);
    T.EmptyIsBlank();
  }

  /** What phase 6 says of the two contexts, one fact at a time. */
  lemma SixIs(cr: Suite, n: Pair, claims: bytes)
    requires AtPhase(cr, n, 6, claims)
    ensures var a, b, s2c, c2s := n.a.c, n.b.c, S2c(cr, n.a.c, n.b.c), C2s(cr, n.a.c, n.b.c);
      && a.table == T.EMPTY && b.table == T.EMPTY && a.id.role == Server && b.id.role == Client
      && a.id.cfg.maxChannels <= MAX_CHANNELS && b.id.cfg.maxChannels <= MAX_CHANNELS && b.id.cfg.maxRecord >= 3 + CLAIMS_MAX
      && a.state == Ready && b.state == Auth && a.hs == Done && b.hs == Done && |claims| <= CLAIMS_MAX
      && a.push == Some(Later(s2c, 1)) && b.pull == Some(s2c) && b.push == Some(Later(c2s, 1)) && a.pull == Some(Later(c2s, 1))
      && n.b.inp + n.ab + a.out == SealFrame(cr, s2c, AuthOk(claims)) && n.a.inp + n.ba + b.out == []
      && Uncounted(n) && S.Greetings(a.log) && S.Greetings(b.log)
  {
    hide Keys, Transcripted, Settled, DevicePdu, SealFrame, DeviceEvent;
  }

  lemma SealedOne(cr: Suite, st: Stream, p: Pdu)
    requires Legal(p)
    ensures Sealed(cr, st, [p]) == SealFrame(cr, st, p) && Sealed(cr, st, []) == []
  {
    assert Sealed(cr, st, [p]) == SealFrame(cr, st, p) + Sealed(cr, Later(st, 1), []);
  }

  lemma OpeningBegins(cr: Suite, n: Pair, claims: bytes)
    requires AtPhase(cr, n, 6, claims)
    ensures S.Begins(Opening(n, claims))
    ensures Related(cr, n, Opening(n, claims), S2c(cr, n.a.c, n.b.c), Later(C2s(cr, n.a.c, n.b.c), 1))
  {
    hide AtPhase, C2s, S2c, T.Shows, SealFrame, Sealed;
    SixIs(cr, n, claims);
    var m := Opening(n, claims);
    EmptyShows(m.a);
    EmptyShows(m.b);
    SealedOne(cr, S2c(cr, n.a.c, n.b.c), AuthOk(claims));
    SealedOne(cr, Later(C2s(cr, n.a.c, n.b.c), 1), AuthOk(claims));
  }

  /** Still shaking hands. */
  ghost predicate Greeting(cr: Suite, n: Pair) {
    exists k: nat, claims: bytes :: k <= 5 && AtPhase(cr, n, k, claims)
  }

  /** The bytes stand for a careful run of Net from where the channels begin. */
  ghost predicate Channelled(cr: Suite, n: Pair, careful: bool) {
    exists m: N.Net, moves: seq<N.Move>, sab: Stream, sba: Stream ::
      Reached(cr, n, careful, m, moves, sab, sba)
  }

  ghost predicate Reached(cr: Suite, n: Pair, careful: bool, m: N.Net, moves: seq<N.Move>, sab: Stream, sba: Stream) {
    && S.Begins(m) && (careful ==> S.Compatible(m) && S.CarefulRun(m, moves))
    && Related(cr, n, N.Run(m, moves), sab, sba)
  }

  /** Each side takes whatever the other can send. */
  predicate Sized(n: Pair) {
    var x, y := n.a.c.id.cfg.maxRecord, n.b.c.id.cfg.maxRecord;
    (x <= y || 9 + DATA_MAX <= y) && (y <= x || 9 + DATA_MAX <= x)
  }

  lemma StepKeepsConfig(cr: Suite, n: Pair, move: Move)
    ensures Sized(n) == Sized(Step(cr, n, move))
  {
    StepKeepsIds(cr, n, move);
    hide Step;
  }

  /** Channels stay channels, whatever the hosts do. */
  lemma ReachedStep(cr: Suite, n: Pair, careful: bool, m: N.Net, moves: seq<N.Move>, sab: Stream, sba: Stream, move: Move)
    requires StreamLaw(cr) && Reached(cr, n, careful, m, moves, sab, sba) && IdsLeft(Step(cr, n, move))
    requires careful ==> CarefulMove(n, move)
    ensures Channelled(cr, Step(cr, n, move), careful)
  {
    hide Step, Related, N.Run, S.CarefulRun, S.Begins, S.Compatible, CarefulMove;
    var more, sab', sba' := StepFollows(cr, n, N.Run(m, moves), sab, sba, move);
    RunMore(m, moves, more);
    assert Reached(cr, Step(cr, n, move), careful, m, moves + more, sab', sba');
  }

  lemma {:induction false} ChannelledRun(cr: Suite, n: Pair, careful: bool, moves: seq<Move>)
    requires StreamLaw(cr) && Channelled(cr, n, careful) && IdsLeft(Run(cr, n, moves)) && (careful ==> CarefulRun(cr, n, moves))
    ensures Channelled(cr, Run(cr, n, moves), careful)
    decreases |moves|
  {
    hide Step, Reached, CarefulMove;
    if moves != [] {
      IdsOnlyGrow(cr, Step(cr, n, moves[0]), moves[1..]);
      var m, netMoves, sab, sba :| Reached(cr, n, careful, m, netMoves, sab, sba);
      ReachedStep(cr, n, careful, m, netMoves, sab, sba, moves[0]);
      ChannelledRun(cr, Step(cr, n, moves[0]), careful, moves[1..]);
    }
  }

  lemma SixIsChannelled(cr: Suite, n: Pair, claims: bytes, careful: bool)
    requires AtPhase(cr, n, 6, claims) && (careful ==> Sized(n))
    ensures Channelled(cr, n, careful)
  {
    OpeningBegins(cr, n, claims);
    var m := Opening(n, claims);
    RunNone(m);
    DeliveriesAreCareful(m, []);
    hide AtPhase, Related, S.Begins, N.Run, S.CarefulRun;
    assert Reached(cr, n, careful, m, [], S2c(cr, n.a.c, n.b.c), Later(C2s(cr, n.a.c, n.b.c), 1));
  }

  lemma {:induction false} LifeRun(cr: Suite, n: Pair, moves: seq<Move>)
    requires Ideal(cr) && Greeting(cr, n) && Sized(n) && CarefulRun(cr, n, moves) && IdsLeft(Run(cr, n, moves))
    ensures var d := Run(cr, n, moves); Greeting(cr, d) || Channelled(cr, d, true)
    decreases |moves|
  {
    if moves != [] {
      var k, claims :| k <= 5 && AtPhase(cr, n, k, claims);
      hide Step, Reached, CarefulMove, AtPhase, Sized, Ideal;
      var n' := Step(cr, n, moves[0]);
      var k', claims' := PhaseStep(cr, n, k, claims, moves[0]);
      StepKeepsConfig(cr, n, moves[0]);
      if k' <= 5 {
        LifeRun(cr, n', moves[1..]);
      } else {
        SixIsChannelled(cr, n', claims', true);
        IdealStream(cr);
        ChannelledRun(cr, n', true, moves[1..]);
      }
    }
  }

  lemma GreetingIsWell(cr: Suite, n: Pair)
    requires Greeting(cr, n)
    ensures n.a.c.state != Error && n.b.c.state != Error
  {
    var k, claims :| k <= 5 && AtPhase(cr, n, k, claims);
    EarlyStates(cr, n, k, claims);
  }

  lemma ChannelledIsWell(cr: Suite, n: Pair)
    requires Channelled(cr, n, true) && IdsLeft(n)
    ensures n.a.c.state != Error && n.b.c.state != Error
  {
    var m, moves, sab, sba :| Reached(cr, n, true, m, moves, sab, sba);
    hide S.Begins, S.Compatible, S.CarefulRun, N.Run, Sends, T.Shows;
    S.HonestPairsAreSafe(m, moves);
  }

  /**
   * The whole life: from creation, over every run of the bytes - any calls,
   * any interleaving, any sizes of output and input - in which the hosts keep
   * the rules, neither side ever enters ERROR.
   */
  lemma HonestLife(cr: Suite, ida: Ident, idb: Ident, serverPk: Option<Key32>, pin: Option<Key32>,
                   ephA: Key32, ephB: Key32, headerA: Header24, headerB: Header24, moves: seq<Move>)
    requires Ideal(cr) && Matching(cr, ida, idb, serverPk, pin)
    requires ida.cfg.maxRecord <= idb.cfg.maxRecord || 9 + DATA_MAX <= idb.cfg.maxRecord
    requires idb.cfg.maxRecord <= ida.cfg.maxRecord || 9 + DATA_MAX <= ida.cfg.maxRecord
    requires var n := Fresh(cr, ida, idb, serverPk, pin, ephA, ephB, headerA, headerB);
      CarefulRun(cr, n, moves) && IdsLeft(Run(cr, n, moves))
    ensures var d := Run(cr, Fresh(cr, ida, idb, serverPk, pin, ephA, ephB, headerA, headerB), moves);
      d.a.c.state != Error && d.b.c.state != Error
  {
    var n := Fresh(cr, ida, idb, serverPk, pin, ephA, ephB, headerA, headerB);
    CreatedServer(cr, ida, serverPk, ephA, headerA);
    CreatedClient(cr, idb, pin, ephB, headerB);
    FreshStarts(cr, ida, idb, serverPk, pin, ephA, ephB, headerA, headerB);
    assert Sized(n);
    hide Fresh, AtPhase, Ideal, Reached;
    LifeRun(cr, n, moves);
    if Greeting(cr, Run(cr, n, moves)) { GreetingIsWell(cr, Run(cr, n, moves)); }
    else { ChannelledIsWell(cr, Run(cr, n, moves)); }
  }

  // ------------------------------------------------------------------
  // What the hosts are given
  // ------------------------------------------------------------------

  /** The bytes on their way from A to B are the PDUs q, sealed in order; while B runs, from where it will open the next. */
  ghost predicate OnTheWay(cr: Suite, n: Pair, q: seq<Pdu>) {
    exists st: Stream :: Sends(cr, n.a.c, st, n.b.inp + n.ab, q) && (!Stopped(n.b.c) ==> n.b.c.pull == Some(st))
  }

  /** Host A was told that its channel k has the peer r. */
  predicate Peers(n: Pair, k: u32, r: u32) {
    W.PeerTold(n.a.c.log, k, r)
  }

  /** What channel_send accepted on k is what host B was given on r, and then what is on its way, in order. */
  predicate Conveyed(n: Pair, q: seq<Pdu>, k: u32, r: u32) {
    N.SentOn(n.ra.sent, k) == N.GotOn(n.b.c.log, r) + N.DataTo(q, r)
  }

  /** The receiver's window is what may still be sent, and what is on its way - modulo 2^32, and where exact, as a number. */
  predicate Balances(recvWindow: u32, sendWindow: u32, data: nat, credit: nat, exact: bool) {
    var total := sendWindow + data + credit;
    recvWindow == total % U32 && (exact ==> recvWindow == total && sendWindow + credit < U32)
  }

  /** The window of B's slot r against A's slot k and what is on its way in both directions, exactly unless host B overflowed it. */
  predicate InCredit(n: Pair, qab: seq<Pdu>, qba: seq<Pdu>, k: u32, r: u32) {
    var x, y := T.Look(n.a.c.table, Some(k)), T.Look(n.b.c.table, Some(r));
    x.Some? && y.Some? && (x.value.state == Opened || x.value.state == Pending) ==>
      Balances(y.value.recvWindow, x.value.sendWindow, N.BytesTo(qab, r), N.CreditTo(qba, k), r !in n.rb.wrapped)
  }

  /** Direction A to B: every pair conveys in credit, pairs are pairs for good, and nothing strays or follows an EOF. */
  ghost predicate Faithful(n: Pair, qab: seq<Pdu>, qba: seq<Pdu>) {
    && (forall k, r :: Peers(n, k, r) ==> Conveyed(n, qab, k, r) && InCredit(n, qab, qba, k, r))
    && (forall k, l, r :: Peers(n, k, r) && Peers(n, l, r) ==> k == l)
    && (forall k, l, r :: Peers(n, k, r) && Peers(Flip(n), r, l) ==> l == k)
    && (forall r :: (forall k :: !Peers(n, k, r)) ==> N.GotOn(n.b.c.log, r) == [])
    && (forall i, j :: 0 <= i < j < |n.b.c.log| && n.b.c.log[i].ChannelEof? && n.b.c.log[j].ChannelData? ==>
          n.b.c.log[i].id != n.b.c.log[j].id)
  }

  lemma RelatedConveys(cr: Suite, n: Pair, m: N.Net, sab: Stream, sba: Stream, k: u32, r: u32)
    requires Related(cr, n, m, sab, sba) && V.Reachable(m) && V.Pairs(m, k, r)
    ensures Conveyed(n, m.ab, k, r)
  {
    assert n.ra.sent == m.ha.sent && n.b.c.log == m.hb.log;
    hide V.Reachable, Related, N.SentOn, N.GotOn, N.DataTo, V.Pairs;
    V.DeliveryIsOrdered(m, k, r);
  }

  lemma RelatedInCredit(cr: Suite, n: Pair, m: N.Net, sab: Stream, sba: Stream, k: u32, r: u32)
    requires Related(cr, n, m, sab, sba) && V.Reachable(m) && V.Pairs(m, k, r)
    ensures InCredit(n, m.ab, m.ba, k, r)
  {
    assert n.rb.wrapped == m.hb.wrapped;
    RelatedLooks(cr, n, m, sab, sba, k, r);
    hide V.Reachable, T.Look, Related, V.Pairs, N.BytesTo, N.CreditTo, Balances;
    if k in m.a.chans && r in m.b.chans && (m.a.chans[k].state == Opened || m.a.chans[k].state == Pending) {
      NetBalances(m, k, r);
    }
  }

  lemma NetBalances(m: N.Net, k: u32, r: u32)
    requires V.Reachable(m) && V.Pairs(m, k, r) && k in m.a.chans && r in m.b.chans
    requires m.a.chans[k].state == Opened || m.a.chans[k].state == Pending
    ensures Balances(m.b.chans[r].recvWindow, m.a.chans[k].sendWindow, N.BytesTo(m.ab, r), N.CreditTo(m.ba, k), r !in m.hb.wrapped)
  {
    V.CreditIsConserved(m, k, r);
    hide V.Reachable;
  }

  lemma RelatedLooks(cr: Suite, n: Pair, m: N.Net, sab: Stream, sba: Stream, k: u32, r: u32)
    requires Related(cr, n, m, sab, sba)
    ensures T.Look(n.a.c.table, Some(k)) == N.Look(m.a, Some(k)) && T.Look(n.b.c.table, Some(r)) == N.Look(m.b, Some(r))
  {
    T.LookShows(n.a.c.table, m.a, Some(k));
    T.LookShows(n.b.c.table, m.b, Some(r));
    hide T.Look, T.Shows, Sends;
  }

  /** Host A has been told of every pairing, and of no other. */
  ghost predicate ToldOf(n: Pair, m: N.Net) {
    forall k, r :: Peers(n, k, r) <==> V.Pairs(m, k, r)
  }

  lemma RelatedPairs(cr: Suite, n: Pair, m: N.Net, sab: Stream, sba: Stream)
    requires Related(cr, n, m, sab, sba) && V.Reachable(m) && ToldOf(n, m)
    ensures forall k, r :: Peers(n, k, r) ==> Conveyed(n, m.ab, k, r) && InCredit(n, m.ab, m.ba, k, r)
  {
    hide Related, V.Reachable, Conveyed, InCredit, Peers, V.Pairs;
    forall k, r | Peers(n, k, r) ensures Conveyed(n, m.ab, k, r) && InCredit(n, m.ab, m.ba, k, r) {
      RelatedConveys(cr, n, m, sab, sba, k, r);
      RelatedInCredit(cr, n, m, sab, sba, k, r);
    }
  }

  lemma RelatedIsFaithful(cr: Suite, n: Pair, m: N.Net, sab: Stream, sba: Stream)
    requires Related(cr, n, m, sab, sba) && V.Reachable(m) && ToldOf(n, m) && ToldOf(Flip(n), N.Flip(m))
    ensures Faithful(n, m.ab, m.ba)
  {
    assert n.b.c.log == m.hb.log;
    RelatedPairs(cr, n, m, sab, sba);
    V.ReachableIsLawful(m);
    hide Related, V.Reachable, Conveyed, InCredit, Peers;
    forall k, l, r | Peers(n, k, r) && Peers(n, l, r) ensures k == l { V.PairsAreUnique(m, k, l, r); }
    forall k, l, r | Peers(n, k, r) && Peers(Flip(n), r, l) ensures l == k { V.PairsAreUnique(m, k, k, r); }
    forall r | forall k :: !Peers(n, k, r) ensures N.GotOn(n.b.c.log, r) == [] { V.NothingStray(m, r); }
    hide V.Pairs, ToldOf;
  }

  lemma TheyAreTold(cr: Suite, n: Pair, m: N.Net, moves: seq<N.Move>, sab: Stream, sba: Stream)
    requires Reached(cr, n, false, m, moves, sab, sba) && IdsLeft(n)
    ensures var d := N.Run(m, moves);
      V.Reachable(d) && ToldOf(n, d) && ToldOf(Flip(n), N.Flip(d)) && Related(cr, n, d, sab, sba)
  {
    var d := N.Run(m, moves);
    assert n.a.c.log == d.ha.log && n.b.c.log == d.hb.log && N.Flip(d).ha == d.hb;
    assert V.Leads(m, moves, d);
    hide Related, N.Run, S.Begins, V.Leads, V.Pairs, W.PeerTold;
    forall k, r ensures (Peers(n, k, r) <==> V.Pairs(d, k, r)) && (Peers(Flip(n), k, r) <==> V.Pairs(N.Flip(d), k, r)) {
      W.HostsAreToldTheTruth(m, moves, k, r);
    }
  }

  lemma RelatedOnTheWay(cr: Suite, n: Pair, m: N.Net, sab: Stream, sba: Stream)
    requires Related(cr, n, m, sab, sba)
    ensures OnTheWay(cr, n, m.ab) && OnTheWay(cr, Flip(n), m.ba)
  {
    hide Shows, Sends;
  }

  /** Both directions, with what is on its way. */
  ghost predicate Delivers(cr: Suite, n: Pair) {
    exists qab, qba :: OnTheWay(cr, n, qab) && OnTheWay(cr, Flip(n), qba) && Faithful(n, qab, qba) && Faithful(Flip(n), qba, qab)
  }

  lemma ChannelledDelivers(cr: Suite, n: Pair)
    requires Channelled(cr, n, false) && IdsLeft(n)
    ensures Delivers(cr, n)
  {
    hide Reached, OnTheWay, Faithful;
    var m, netMoves, sab, sba :| Reached(cr, n, false, m, netMoves, sab, sba);
    BothWays(cr, n, m, netMoves, sab, sba);
  }

  lemma BothWays(cr: Suite, n: Pair, m: N.Net, moves: seq<N.Move>, sab: Stream, sba: Stream)
    requires Reached(cr, n, false, m, moves, sab, sba) && IdsLeft(n)
    ensures exists qab, qba :: OnTheWay(cr, n, qab) && OnTheWay(cr, Flip(n), qba) && Faithful(n, qab, qba) && Faithful(Flip(n), qba, qab)
  {
    hide Reached, Related, OnTheWay, Faithful, V.Reachable, ToldOf;
    TheyAreTold(cr, n, m, moves, sab, sba);
    var d := N.Run(m, moves);
    RelatedOnTheWay(cr, n, d, sab, sba);
    RelatedIsFaithful(cr, n, d, sab, sba);
    FlipRelated(cr, n, d, sab, sba);
    V.ReachableIsLawful(d);
    FlipTwice(d);
    assert Flip(Flip(n)) == n;
    RelatedIsFaithful(cr, Flip(n), N.Flip(d), sba, sab);
    assert N.Flip(d).ab == d.ba && N.Flip(d).ba == d.ab;
  }

  /** Short of AUTH nothing is careless, and in it only leaving and turning the client down are. */
  lemma Careless(cr: Suite, n: Pair, k: nat, claims: bytes, move: Move)
    requires AtPhase(cr, n, k, claims) && 3 <= k <= 5 && !CarefulMove(n, move)
    ensures move.MoveA? ==>
      (move.w.Calls? && move.w.call.CallDisconnect?) || (move.w.Decides? && !move.w.accept && Decidable(n.a.c, move.w.claims))
    ensures move.MoveB? ==> k >= 4 && move.w.Calls? && move.w.call.CallDisconnect?
  {
    EarlyStates(cr, n, k, claims);
    assert n.b.c.id.role == Client by { EarlyIsBare(cr, n, k, claims); }
    hide AtPhase;
    if move.w.Calls? && !move.w.call.CallDisconnect? {
      CarefulEarly(cr, if move.MoveA? then n.a.c else n.b.c, move.w.call);
    }
    hide CallOutcome;
  }

  lemma CarefulEarly(cr: Suite, c: Ctx, call: Call)
    requires (c.state == Hello || c.state == SsHeader || c.state == Auth || c.state == Closed) && !call.CallDisconnect?
    ensures Careful(c, Calls(call))
  {
    EarlyCallsRefused(cr, c, call);
    CallReturns(cr, c, call);
    hide HostCall, CallOutcome;
  }

  lemma EarlyIsUnpaired(cr: Suite, n: Pair, k: nat, claims: bytes)
    requires AtPhase(cr, n, k, claims)
    ensures Unpaired(n)
  {
    hide Settled, ServerAt, ClientAt, ToServer, ToClient;
  }

  /** From creation a run either comes to channels, or its client is never accepted. */
  lemma {:induction false} ChannelsOrNone(cr: Suite, n: Pair, k: nat, claims: bytes, moves: seq<Move>)
    requires Ideal(cr) && AtPhase(cr, n, k, claims) && k <= 5 && IdsLeft(Run(cr, n, moves))
    ensures var d := Run(cr, n, moves); Unpaired(d) || Channelled(cr, d, false)
    decreases |moves|
  {
    hide ActA, AtPhase, Ideal, CarefulMove, Unpaired, Channelled, Late;
    if moves == [] {
      EarlyIsUnpaired(cr, n, k, claims);
    } else {
      var n' := Step(cr, n, moves[0]);
      if k <= 2 || CarefulMove(n, moves[0]) {
        var k', claims' := PhaseStep(cr, n, k, claims, moves[0]);
        hide Step;
        if k' <= 5 {
          ChannelsOrNone(cr, n', k', claims', moves[1..]);
        } else {
          SixIsChannelled(cr, n', claims', false);
          IdealStream(cr);
          ChannelledRun(cr, n', false, moves[1..]);
        }
      } else {
        Careless(cr, n, k, claims, moves[0]);
        var f;
        match moves[0] {
          case MoveA(w) => f := ServerDeparts(cr, n, k, claims, w);
          case MoveB(w) => f := ClientDeparts(cr, n, k, claims, w.call);
        }
        hide Step;
        DriftRun(cr, n', f, moves[1..]);
      }
    }
  }

  /**
   * What reaches the hosts, from creation, in every run of the bytes - early
   * goodbyes, rejections, closes, failures and all.  Either no
   * channel was paired and no chunk accepted, as when the client never was; or,
   * in both directions, what a channel was given to send is what its peer's
   * host was given, then what is in flight, in order, and credit is conserved.
   * No record ever failed to open.
   */
  lemma BytesDeliver(cr: Suite, ida: Ident, idb: Ident, serverPk: Option<Key32>, pin: Option<Key32>,
                     ephA: Key32, ephB: Key32, headerA: Header24, headerB: Header24, moves: seq<Move>)
    requires Ideal(cr) && Matching(cr, ida, idb, serverPk, pin)
    requires IdsLeft(Run(cr, Fresh(cr, ida, idb, serverPk, pin, ephA, ephB, headerA, headerB), moves))
    ensures var d := Run(cr, Fresh(cr, ida, idb, serverPk, pin, ephA, ephB, headerA, headerB), moves);
      Intact(d.a.c.log) && Intact(d.b.c.log) && (Unpaired(d) || Delivers(cr, d))
  {
    var n := Fresh(cr, ida, idb, serverPk, pin, ephA, ephB, headerA, headerB);
    FreshStarts(cr, ida, idb, serverPk, pin, ephA, ephB, headerA, headerB);
    hide Fresh, AtPhase, Ideal, Run, Unpaired, Channelled, Delivers, Intact, Agreeing, HostAccepted;
    SessionsAgree(cr, ida, idb, serverPk, pin, ephA, ephB, headerA, headerB, moves);
    AgreeingIsIntact(cr, Run(cr, n, moves).a.c, Run(cr, n, moves).b.c);
    ChannelsOrNone(cr, n, 0, [], moves);
    if Channelled(cr, Run(cr, n, moves), false) { ChannelledDelivers(cr, Run(cr, n, moves)); }
  }

  /** From the server's acceptance on there are channels, whatever the hosts do. */
  lemma AcceptedDelivers(cr: Suite, n: Pair, claims: bytes, moves: seq<Move>)
    requires Ideal(cr) && AtPhase(cr, n, 6, claims) && IdsLeft(Run(cr, n, moves))
    ensures Delivers(cr, Run(cr, n, moves))
  {
    SixIsChannelled(cr, n, claims, false);
    IdealStream(cr);
    hide AtPhase, Channelled, Ideal, StreamLaw, Run, Delivers;
    ChannelledRun(cr, n, false, moves);
    ChannelledDelivers(cr, Run(cr, n, moves));
  }

  lemma AgreeingIsIntact(cr: Suite, a: Ctx, b: Ctx)
    requires Agreeing(cr, a, b)
    ensures Intact(a.log) && Intact(b.log)
  {
  }

  /**
   * The same without a word on what is in flight: in every run from creation,
   * what host B was given on a channel is a prefix of what channel_send
   * accepted on its peer, and all of it once nothing is on its way.
   */
  lemma DeliveredInOrder(cr: Suite, ida: Ident, idb: Ident, serverPk: Option<Key32>, pin: Option<Key32>,
                         ephA: Key32, ephB: Key32, headerA: Header24, headerB: Header24, moves: seq<Move>, k: u32, r: u32)
    requires Ideal(cr) && Matching(cr, ida, idb, serverPk, pin)
    requires IdsLeft(Run(cr, Fresh(cr, ida, idb, serverPk, pin, ephA, ephB, headerA, headerB), moves))
    ensures var d := Run(cr, Fresh(cr, ida, idb, serverPk, pin, ephA, ephB, headerA, headerB), moves);
      (Peers(d, k, r) ==> InOrder(d, k, r)) && (Peers(Flip(d), k, r) ==> InOrder(Flip(d), k, r))
  {
    var d := Run(cr, Fresh(cr, ida, idb, serverPk, pin, ephA, ephB, headerA, headerB), moves);
    BytesDeliver(cr, ida, idb, serverPk, pin, ephA, ephB, headerA, headerB, moves);
    hide Fresh, Ideal, Run, OnTheWay, Faithful, InOrder;
    if Unpaired(d) {
      hide *;
      NoPeers(d, k, r);
    } else {
      var qab, qba :| OnTheWay(cr, d, qab) && OnTheWay(cr, Flip(d), qba) && Faithful(d, qab, qba) && Faithful(Flip(d), qba, qab);
      hide Peers, Unpaired;
      if Peers(d, k, r) { FaithfulInOrder(cr, d, qab, qba, k, r); }
      if Peers(Flip(d), k, r) { FaithfulInOrder(cr, Flip(d), qba, qab, k, r); }
    }
  }

  /** Given on r is a prefix of accepted on k, and with nothing on its way all of it. */
  predicate InOrder(n: Pair, k: u32, r: u32) {
    var got, sent := N.GotOn(n.b.c.log, r), N.SentOn(n.ra.sent, k);
    got <= sent && (n.b.inp + n.ab + n.a.c.out == [] ==> got == sent)
  }

  lemma NoPeers(n: Pair, k: u32, r: u32)
    requires Unpaired(n)
    ensures !Peers(n, k, r) && !Peers(Flip(n), k, r)
  {
  }

  lemma FaithfulInOrder(cr: Suite, n: Pair, qab: seq<Pdu>, qba: seq<Pdu>, k: u32, r: u32)
    requires OnTheWay(cr, n, qab) && Faithful(n, qab, qba) && Peers(n, k, r)
    ensures InOrder(n, k, r)
  {
    assert Conveyed(n, qab, k, r);
    hide Faithful, Peers;
    var st :| Sends(cr, n.a.c, st, n.b.inp + n.ab, qab);
    if qab != [] { SomethingSealed(cr, st, qab); }
  }

  lemma SomethingSealed(cr: Suite, st: Stream, q: seq<Pdu>)
    requires AllLegal(q) && q != []
    ensures Sealed(cr, st, q) != []
  {
    hide PutU32;
  }

  lemma FreshIsPresent(cr: Suite, ida: Ident, idb: Ident, serverPk: Option<Key32>, pin: Option<Key32>,
                       ephA: Key32, ephB: Key32, headerA: Header24, headerB: Header24)
    requires Matching(cr, ida, idb, serverPk, pin)
    ensures Present(Fresh(cr, ida, idb, serverPk, pin, ephA, ephB, headerA, headerB))
  {
    CreatedServer(cr, ida, serverPk, ephA, headerA);
    CreatedClient(cr, idb, pin, ephB, headerB);
    hide Create, ClientHelloBody, Frame;
  }

  /**
   * Liveness from creation: deliveries in pieces of any size and the host's
   * acceptance come to an end, and then both sides are READY in one session.
   */
  lemma FreshPairCompletes(cr: Suite, ida: Ident, idb: Ident, serverPk: Option<Key32>, pin: Option<Key32>,
                           ephA: Key32, ephB: Key32, headerA: Header24, headerB: Header24, moves: seq<Move>)
    requires Ideal(cr) && Matching(cr, ida, idb, serverPk, pin)
    requires AllProductive(cr, Fresh(cr, ida, idb, serverPk, pin, ephA, ephB, headerA, headerB), moves)
    ensures |moves| < 8 * CAP
    ensures var d := Run(cr, Fresh(cr, ida, idb, serverPk, pin, ephA, ephB, headerA, headerB), moves);
      (forall m: Move :: !Productive(d, m)) ==> Established(d.a.c, d.b.c)
  {
    var n := Fresh(cr, ida, idb, serverPk, pin, ephA, ephB, headerA, headerB);
    FreshStarts(cr, ida, idb, serverPk, pin, ephA, ephB, headerA, headerB);
    FreshIsPresent(cr, ida, idb, serverPk, pin, ephA, ephB, headerA, headerB);
    hide Fresh, AtPhase, Ideal, AllProductive, Established, Productive, Present, Run;
    IdealStream(cr);
    FramesAreShort(cr, n, 0, []);
    HandshakeCompletes(cr, n, 0, [], moves);
  }

  // ------------------------------------------------------------------
  // What the two agree on
  // ------------------------------------------------------------------

  /**
   * Session agreement, from creation, in every run of the bytes and whatever
   * either host does.  Once both are past HELLO they hold one transcript and
   * one pair of direction keys.  If the server has a device, it is this
   * client's, verified over that transcript with the client's own user and
   * device names.  If the client is READY, that is so, and the server's host
   * accepted.  And no signature and no record ever fails.
   */
  lemma SessionsAgree(cr: Suite, ida: Ident, idb: Ident, serverPk: Option<Key32>, pin: Option<Key32>,
                      ephA: Key32, ephB: Key32, headerA: Header24, headerB: Header24, moves: seq<Move>)
    requires Ideal(cr) && Matching(cr, ida, idb, serverPk, pin)
    ensures var d := Run(cr, Fresh(cr, ida, idb, serverPk, pin, ephA, ephB, headerA, headerB), moves);
      && Agreeing(cr, d.a.c, d.b.c)
      && (d.b.c.state == Ready ==> HostAccepted(moves))
  {
    var n := Fresh(cr, ida, idb, serverPk, pin, ephA, ephB, headerA, headerB);
    FreshStarts(cr, ida, idb, serverPk, pin, ephA, ephB, headerA, headerB);
    hide Fresh, AtPhase, Ideal, HostAccepted, Vouched, Run;
    RunAgrees(cr, n, 0, [], moves);
  }

  /**
   * A client that is READY: the server verified this client's device with its
   * own user and device names over the transcript both hold, its host was
   * told and accepted, and both hold the same keys.
   */
  lemma ReadyClientWasAccepted(cr: Suite, ida: Ident, idb: Ident, serverPk: Option<Key32>, pin: Option<Key32>,
                               ephA: Key32, ephB: Key32, headerA: Header24, headerB: Header24, moves: seq<Move>)
    requires Ideal(cr) && Matching(cr, ida, idb, serverPk, pin)
    requires Run(cr, Fresh(cr, ida, idb, serverPk, pin, ephA, ephB, headerA, headerB), moves).b.c.state == Ready
    ensures HostAccepted(moves)
    ensures var d := Run(cr, Fresh(cr, ida, idb, serverPk, pin, ephA, ephB, headerA, headerB), moves);
      && d.a.c.auth.complete && d.a.c.auth.decided && OneSecret(d.a.c, d.b.c) && Vouched(cr, d.a.c, d.b.c)
      && d.a.c.peerId == idb.clientPk
  {
    SessionsAgree(cr, ida, idb, serverPk, pin, ephA, ephB, headerA, headerB, moves);
    var n := Fresh(cr, ida, idb, serverPk, pin, ephA, ephB, headerA, headerB);
    assert n.b.c.id == idb by { CreatedClient(cr, idb, pin, ephB, headerB); hide Create; }
    RunKeepsIds(cr, n, moves);
    hide Fresh, Ideal, HostAccepted, Run;
  }

  lemma {:induction false} RunKeepsIds(cr: Suite, n: Pair, moves: seq<Move>)
    ensures Run(cr, n, moves).a.c.id == n.a.c.id && Run(cr, n, moves).b.c.id == n.b.c.id
    decreases |moves|
  {
    hide Step;
    if moves != [] {
      StepKeepsIds(cr, n, moves[0]);
      RunKeepsIds(cr, Step(cr, n, moves[0]), moves[1..]);
    }
  }
  // ------------------------------------------------------------------
  // What the server heard
  // ------------------------------------------------------------------

  /** A doing of side A, as an operation of its session. */
  function OpOf(n: Pair, w: Doing): L.Op {
    match w
    case Calls(call) => L.OpCall(call)
    case Decides(accept, claims) => L.OpDecide(accept, claims)
    case Gives(max) => L.OpOutput(max)
    case Takes(k) => L.OpFeed(n.ba[..Min(k, |n.ba|)])
  }

  /** What a run of the pair does to the server. */
  function ServerOps(cr: Suite, n: Pair, moves: seq<Move>): seq<L.Op>
    decreases |moves|
  {
    if moves == [] then []
    else (if moves[0].MoveA? then [OpOf(n, moves[0].w)] else []) + ServerOps(cr, Step(cr, n, moves[0]), moves[1..])
  }

  lemma ActIsOp(cr: Suite, n: Pair, w: Doing)
    ensures ActA(cr, n, w).a == L.Do(cr, n.a, OpOf(n, w))
  {
    hide HostCall, Decide, Feed;
  }

  lemma FirstOp(cr: Suite, s: Side, op: L.Op, ops: seq<L.Op>)
    ensures L.RunOps(cr, s, [op] + ops) == L.RunOps(cr, L.Do(cr, s, op), ops)
  {
    hide L.Do;
    assert ([op] + ops)[1..] == ops;
  }

  lemma {:induction false} RunIsOps(cr: Suite, n: Pair, moves: seq<Move>)
    ensures Run(cr, n, moves).a == L.RunOps(cr, n.a, ServerOps(cr, n, moves))
    decreases |moves|
  {
    hide ActA, L.Do;
    if moves != [] {
      RunIsOps(cr, Step(cr, n, moves[0]), moves[1..]);
      var rest := ServerOps(cr, Step(cr, n, moves[0]), moves[1..]);
      match moves[0] {
        case MoveA(w) => ActIsOp(cr, n, w); FirstOp(cr, n.a, OpOf(n, w), rest); hide L.RunOps;
        case MoveB(w) => OthersStay(cr, n, w); assert [] + rest == rest;
      }
    }
  }

  /** r is an AUTH_DEVICE with this client's key, and its user and device as a host sees them. */
  predicate NamesClient(r: P.Receipt, idb: Ident) {
    && r.p.AuthDevice? && Some(r.p.pk) == idb.clientPk
    && CString(r.p.user) == CString(idb.user[..Min(|idb.user|, USER_MAX)])
    && CString(r.p.device) == CString(idb.device[..Min(|idb.device|, DEVICE_ID_MAX)])
  }

  /**
   * What a server of an honest pair decides on is what its feeds took: among
   * the bytes is a record that opened to an AUTH_DEVICE with this client's
   * key, user and device, whose signature verifies over the server's own
   * transcript; and its host decided once at most.
   */
  lemma ServerHeardClient(cr: Suite, ida: Ident, idb: Ident, serverPk: Option<Key32>, pin: Option<Key32>,
                          ephA: Key32, ephB: Key32, headerA: Header24, headerB: Header24, moves: seq<Move>)
    requires Ideal(cr) && Matching(cr, ida, idb, serverPk, pin)
    ensures var n := Fresh(cr, ida, idb, serverPk, pin, ephA, ephB, headerA, headerB);
      var a, ops := Run(cr, n, moves).a.c, ServerOps(cr, n, moves);
      && L.CountDecisions(cr, n.a, ops) <= 1
      && (P.Claimed(a) ==> exists r :: P.DeviceSpoke(cr, a, P.Heard(cr, n.a, ops), r) && NamesClient(r, idb))
  {
    var n := Fresh(cr, ida, idb, serverPk, pin, ephA, ephB, headerA, headerB);
    var d, ops := Run(cr, n, moves), ServerOps(cr, n, moves);
    assert n.b.c.id == idb && n.a == Create(cr, ida, serverPk, ephA, headerA).value && Creatable(ida, serverPk) by {
      CreatedClient(cr, idb, pin, ephB, headerB);
      hide Create;
    }
    IdealStream(cr);
    SessionsAgree(cr, ida, idb, serverPk, pin, ephA, ephB, headerA, headerB, moves);
    hide Fresh, Ideal, Run, HostAccepted, ServerOps, StreamLaw, Create, L.RunOps, P.Heard, L.CountDecisions, L.CountAccepts;
    hide Agreeing, P.Sincere, P.DeviceSpoke, NamesClient, Creatable;
    RunIsOps(cr, n, moves);
    RunKeepsIds(cr, n, moves);
    P.Authentication(cr, ida, serverPk, ephA, headerA, ops);
    HeardNames(cr, d.a.c, d.b.c, P.Heard(cr, n.a, ops), L.CountDecisions(cr, n.a, ops), L.CountAccepts(cr, n.a, ops));
  }

  lemma HeardNames(cr: Suite, a: Ctx, b: Ctx, heard: bytes, decisions: nat, accepts: nat)
    requires P.Sincere(cr, a, heard, decisions, accepts) && Agreeing(cr, a, b) && a.id.role == Server
    ensures decisions <= 1
    ensures P.Claimed(a) ==> exists r :: P.DeviceSpoke(cr, a, heard, r) && NamesClient(r, b.id)
  {
    if P.Claimed(a) {
      assert P.DeviceProven(cr, a, heard) && Vouched(cr, a, b);
      hide P.Sincere, Agreeing, BuildTAuth, DevicePdu, CString, Encode, Frame;
      var r :| P.DeviceSpoke(cr, a, heard, r);
      assert AuthDeviceEvent(r.p.pk, CString(r.p.user), CString(r.p.device)) == DeviceEvent(b);
      assert NamesClient(r, b.id);
    }
  }
}
