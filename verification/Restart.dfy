/**
 * sodchan_reset: whatever has happened to a session, it is then a created one
 * again, with its configuration and the pin it holds; and two sessions that
 * were made for each other are so again.
 */
module Restart {
  import opened Base
  import opened Wire
  import opened Transcript
  import opened Crypto
  import opened Engine
  import opened Pair
  import opened Handshake
  import opened Lifetime
  import A = Agreement
  import K = EngineKeys
  import L = EngineLife
  import T = Table

  /**
   * sodchan_create fails for a server without its key pair, and for a client
   * that has no pin and does not accept any server, and for no other reason.
   */
  lemma CreationNeedsKeys(cr: Suite, id: Ident, serverPk: Option<Key32>, ephSk: Key32, header: Header24)
    ensures Create(cr, id, serverPk, ephSk, header).None? <==>
      if id.role == Server then serverPk.None? || id.serverSk.None? else serverPk.None? && !id.acceptAny
  {
    hide StartHandshake, Blank;
  }

  /** Identity and pin survive, and nothing else: the session is as one created with them. */
  lemma ResetIsCreation(cr: Suite, s: Side, ephSk: Key32, header: Header24)
    ensures var d := Reset(cr, s, ephSk, header);
      && d.c.id == s.c.id && d.c.serverPk == s.c.serverPk && d.inp == []
      && (Creatable(s.c.id, s.c.serverPk) ==> Some(d) == Create(cr, s.c.id, s.c.serverPk, ephSk, header))
  {
    hide EncodeHello, Frame, T.EMPTY;
  }

  /**
   * Reset after any run, against any peer, of a created session.  The pin is
   * the one it was created with, save that a client that accepts any server
   * keeps the last one it met; the session is a created one again, and all
   * that holds of created sessions holds of it.
   */
  lemma ResetAfterAnyRun(cr: Suite, id: Ident, pin: Option<Key32>, eph: Key32, header: Header24, ops: seq<L.Op>,
                         eph': Key32, header': Header24)
    requires StreamLaw(cr) && Creatable(id, pin)
    ensures var s := L.RunOps(cr, Create(cr, id, pin, eph, header).value, ops); var d := Reset(cr, s, eph', header');
      && d.c.id == id && (id.role == Server || !id.acceptAny ==> d.c.serverPk == pin)
      && Creatable(id, d.c.serverPk) && Some(d) == Create(cr, id, d.c.serverPk, eph', header')
      && L.Inv(d.c) && K.Derived(cr, d.c) && K.Keyed(d.c)
  {
    var s0 := Create(cr, id, pin, eph, header).value;
    var s := L.RunOps(cr, s0, ops);
    L.CreatedIsSound(cr, id, pin, eph, header);
    hide L.Inv, L.RunOps, Create, Reset, K.Derived, StreamLaw, L.CountDecisions, L.CountAccepts;
    L.RunsKeep(cr, s0, ops);
    ResetIsCreation(cr, s, eph', header');
    L.CreatedIsSound(cr, id, s.c.serverPk, eph', header');
    K.CreatedDerives(cr, id, s.c.serverPk, eph', header');
  }

  // ------------------------------------------------------------------
  // Both sides
  // ------------------------------------------------------------------

  /** Both sides keep who they are. */
  predicate SamePair(n: Pair, d: Pair) {
    && d.a.c.id == n.a.c.id && d.b.c.id == n.b.c.id
    && (n.a.c.id.role == Server || !n.a.c.id.acceptAny ==> d.a.c.serverPk == n.a.c.serverPk)
    && (n.b.c.id.role == Server || !n.b.c.id.acceptAny ==> d.b.c.serverPk == n.b.c.serverPk)
  }

  lemma StepKeepsPair(cr: Suite, n: Pair, move: Move)
    requires StreamLaw(cr) && L.Inv(n.a.c) && L.Inv(n.b.c)
    ensures var d := Step(cr, n, move); SamePair(n, d) && L.Inv(d.a.c) && L.Inv(d.b.c)
  {
    var w := move.w;
    ActIsOp(cr, n, w);
    ActIsOp(cr, Flip(n), w);
    L.DoKeeps(cr, n.a, OpOf(n, w));
    L.DoKeeps(cr, n.b, OpOf(Flip(n), w));
    OtherStays(cr, n, w);
    OtherStays(cr, Flip(n), w);
    hide L.Inv, L.Do, ActA, L.Decides, L.Accepts;
  }

  lemma OtherStays(cr: Suite, n: Pair, w: Doing)
    ensures ActA(cr, n, w).b == n.b
  {
    hide HostCall, Decide, Feed, IdsUsed, IdsBetween, Noted;
  }

  lemma {:induction false} RunKeepsPair(cr: Suite, n: Pair, moves: seq<Move>)
    requires StreamLaw(cr) && L.Inv(n.a.c) && L.Inv(n.b.c)
    ensures SamePair(n, Run(cr, n, moves))
    decreases |moves|
  {
    hide L.Inv, Step;
    if moves != [] {
      StepKeepsPair(cr, n, moves[0]);
      RunKeepsPair(cr, Step(cr, n, moves[0]), moves[1..]);
    }
  }

  /** Both sides reset, and joined by new links. */
  function Rejoined(cr: Suite, n: Pair, ephA: Key32, ephB: Key32, headerA: Header24, headerB: Header24): Pair {
    Pair(Reset(cr, n.a, ephA, headerA), Reset(cr, n.b, ephB, headerB), [], [], 0, 0, NOTHING, NOTHING)
  }

  /**
   * Whatever has become of a pair that was made for each other, once both are
   * reset it is a fresh pair made for each other: every result from creation
   * holds of it again.
   */
  lemma RejoinedIsFresh(cr: Suite, ida: Ident, idb: Ident, serverPk: Option<Key32>, pin: Option<Key32>,
                        ephA: Key32, ephB: Key32, headerA: Header24, headerB: Header24, moves: seq<Move>,
                        ephA': Key32, ephB': Key32, headerA': Header24, headerB': Header24)
    requires StreamLaw(cr) && Matching(cr, ida, idb, serverPk, pin)
    ensures var d := Run(cr, Fresh(cr, ida, idb, serverPk, pin, ephA, ephB, headerA, headerB), moves);
      var pin' := d.b.c.serverPk;
      && (!idb.acceptAny ==> pin' == pin) && Matching(cr, ida, idb, serverPk, pin')
      && Rejoined(cr, d, ephA', ephB', headerA', headerB') == Fresh(cr, ida, idb, serverPk, pin', ephA', ephB', headerA', headerB')
  {
    var n := Fresh(cr, ida, idb, serverPk, pin, ephA, ephB, headerA, headerB);
    var d := Run(cr, n, moves);
    L.CreatedIsSound(cr, ida, serverPk, ephA, headerA);
    L.CreatedIsSound(cr, idb, pin, ephB, headerB);
    hide L.Inv, Run, Create, Reset, StreamLaw;
    RunKeepsPair(cr, n, moves);
    ResetIsCreation(cr, d.a, ephA', headerA');
    ResetIsCreation(cr, d.b, ephB', headerB');
  }

  /** So the second life completes and agrees as the first did, whatever became of the first. */
  lemma SecondLife(cr: Suite, ida: Ident, idb: Ident, serverPk: Option<Key32>, pin: Option<Key32>,
                   ephA: Key32, ephB: Key32, headerA: Header24, headerB: Header24, moves: seq<Move>,
                   ephA': Key32, ephB': Key32, headerA': Header24, headerB': Header24, again: seq<Move>)
    requires Ideal(cr) && Matching(cr, ida, idb, serverPk, pin)
    ensures var d := Run(cr, Fresh(cr, ida, idb, serverPk, pin, ephA, ephB, headerA, headerB), moves);
      var e := Rejoined(cr, d, ephA', ephB', headerA', headerB');
      && A.Agreeing(cr, Run(cr, e, again).a.c, Run(cr, e, again).b.c)
      && (AllProductive(cr, e, again) ==> |again| < 8 * CAP)
      && (AllProductive(cr, e, again) && (forall m: Move :: !Productive(Run(cr, e, again), m)) ==>
            Established(Run(cr, e, again).a.c, Run(cr, e, again).b.c))
  {
    IdealStream(cr);
    RejoinedIsFresh(cr, ida, idb, serverPk, pin, ephA, ephB, headerA, headerB, moves, ephA', ephB', headerA', headerB');
    var d := Run(cr, Fresh(cr, ida, idb, serverPk, pin, ephA, ephB, headerA, headerB), moves);
    var e := Rejoined(cr, d, ephA', ephB', headerA', headerB');
    hide Ideal, StreamLaw, Matching, Fresh, Rejoined, Run, AllProductive, Productive, Established, A.Agreeing;
    SessionsAgree(cr, ida, idb, serverPk, d.b.c.serverPk, ephA', ephB', headerA', headerB', again);
    if AllProductive(cr, e, again) {
      FreshPairCompletes(cr, ida, idb, serverPk, d.b.c.serverPk, ephA', ephB', headerA', headerB', again);
    }
  }
}
