/**
 * Exactly when a close or an overflowing adjust is safe, with the peer in
 * view: for every pair that careful hosts can reach, the call is followed by
 * no ERROR on any careful run if and only if nothing that needs the channel,
 * or no longer fits its window, is in flight or may still be sent.
 */
module NetExact {
  import opened Base
  import opened Mux
  import opened Net
  import opened NetBinding
  import opened NetLimits
  import C = NetCredit
  import S = NetSafety
  import V = NetLaws
  import W = NetTerms

  predicate Well(n: Net) {
    n.a.state != Error && n.b.state != Error
  }

  /** No careful run from here leads to ERROR. */
  ghost predicate Safe(n: Net) {
    forall moves: seq<Move> :: S.CarefulRun(n, moves) && IdsLeft(Run(n, moves)) ==> Well(Run(n, moves))
  }

  // ------------------------------------------------------------------
  // The order of things on a link
  // ------------------------------------------------------------------

  /**
   * Direction A to B: a side in AUTH has announced nothing, one that may still
   * speak has not said goodbye, and after a goodbye comes no DATA or CONFIRM.
   */
  ghost predicate Orderly(n: Net) {
    && (n.a.state == Auth ==> n.ha.offered == {} && n.ha.bind == map[])
    && (S.MaySpeak(n.a) ==> forall i :: 0 <= i < |n.ab| ==> !n.ab[i].Disconnect?)
    && (forall i, j :: 0 <= i < j < |n.ab| && n.ab[i].Disconnect? ==> !n.ab[j].Data? && !n.ab[j].Confirm?)
    && (forall k :: k in n.a.chans && n.a.chans[k].state == Opening ==> !n.a.chans[k].localEof)
  }

  lemma CallOrder(p: Peer, c: Call, s: Sink)
    ensures var o := CallOutcome(p, c, s);
      && (o.state == p.state || o.state == Draining || o.state == Closed) && |o.push| <= 1
      && (o.push != [] && o.push[0].Disconnect? ==> o.state == Draining)
      && (o.push != [] && (o.push[0].Data? || o.push[0].Confirm?) ==> p.state == Ready)
      && (c.CallOpen? && o.rc == Ok ==> p.state == Ready)
      && (o.eff.Put? ==> o.eff.id in p.chans && (o.eff.ch.state == Opening ==>
            p.chans[o.eff.id].state == Opening && o.eff.ch.localEof == p.chans[o.eff.id].localEof))
      && (o.eff.Add? ==> !o.eff.ch.localEof)
  {
    hide Segments, PushRc;
  }

  lemma CallOrderly(n: Net, c: Call, s: Sink)
    requires Orderly(n) && Orderly(Flip(n))
    ensures Orderly(CallA(n, c, s)) && Orderly(Flip(CallA(n, c, s)))
  {
    CallOrder(n.a, c, s);
    CallNames(n.ha, n.a, c, CallOutcome(n.a, c, s));
    hide CallOutcome, NoteCall;
  }

  lemma ReceiveOrder(p: Peer, m: Pdu, s: Sink)
    requires p.state != Error && p.state != Closed
    ensures var o := ReceiveOutcome(p, m, s);
      && o.state != Auth && |o.push| <= 1 && (o.push != [] ==> o.push[0].OpenFail? || o.push[0].Pong?)
      && (o.state == p.state || o.state == Error || o.state == Closed || (p.state == Auth && o.state == Ready))
      && (m.Disconnect? ==> o.state == Closed || o.state == Error)
      && (o.eff.Put? ==> o.eff.id in p.chans && o.eff.ch.localEof == p.chans[o.eff.id].localEof)
      && (o.eff.Put? && o.eff.ch.state == Opening ==> p.chans[o.eff.id].state == Opening)
      && (o.eff.Add? ==> o.eff.ch.state == Pending)
  {
    hide Segments, PushRc;
  }

  lemma DeliverOrderly(n: Net, s: Sink)
    requires Orderly(n) && Orderly(Flip(n)) && n.ba != [] && n.a.state != Error && n.a.state != Closed
    ensures Orderly(DeliverA(n, s)) && Orderly(Flip(DeliverA(n, s)))
  {
    hide Orderly, ReceiveOutcome, NoteReceive, Apply;
    var n', o := DeliverA(n, s), ReceiveOutcome(n.a, n.ba[0], s);
    AnswerOrderly(n, n', n.ba[0], s);
    ShorterOrderly(Flip(n), Flip(n'));
  }

  /** What A comes to be, and what it answers. */
  lemma AnswerOrderly(n: Net, n': Net, m: Pdu, s: Sink)
    requires Orderly(n) && n.a.state != Error && n.a.state != Closed
    requires var o := ReceiveOutcome(n.a, m, s); n'.a == Apply(n.a, o) && n'.ab == n.ab + o.push
    ensures Orderly(n')
  {
    var o := ReceiveOutcome(n.a, m, s);
    ReceiveOrder(n.a, m, s);
    AppliedOpenings(n.a, o);
    S.ApplyParts(n.a, o);
    AnswerOnLink(n.ab, o.push);
    hide ReceiveOutcome, Apply;
  }

  lemma AnswerOnLink(q: seq<Pdu>, p: seq<Pdu>)
    requires |p| <= 1 && (p != [] ==> p[0].OpenFail? || p[0].Pong?)
    requires forall i, j :: 0 <= i < j < |q| && q[i].Disconnect? ==> !q[j].Data? && !q[j].Confirm?
    ensures var r := q + p; forall i, j :: 0 <= i < j < |r| && r[i].Disconnect? ==> !r[j].Data? && !r[j].Confirm?
    ensures (forall i :: 0 <= i < |q| ==> !q[i].Disconnect?) ==> forall i :: 0 <= i < |q + p| ==> !(q + p)[i].Disconnect?
  {
  }

  lemma AppliedOpenings(p: Peer, o: Outcome)
    requires forall k :: k in p.chans && p.chans[k].state == Opening ==> !p.chans[k].localEof
    requires o.eff.Put? ==> o.eff.id in p.chans && o.eff.ch.localEof == p.chans[o.eff.id].localEof
    requires o.eff.Put? && o.eff.ch.state == Opening ==> p.chans[o.eff.id].state == Opening
    requires o.eff.Add? ==> o.eff.ch.state == Pending
    ensures forall k :: k in Apply(p, o).chans && Apply(p, o).chans[k].state == Opening ==> !Apply(p, o).chans[k].localEof
  {
  }

  lemma ShorterOrderly(n: Net, n': Net)
    requires Orderly(n) && n'.a == n.a && n'.ha == n.ha && (n'.ab == n.ab || (n.ab != [] && n'.ab == n.ab[1..]))
    ensures Orderly(n')
  {
    var d := |n.ab| - |n'.ab|;
    assert forall i :: 0 <= i < |n'.ab| ==> n'.ab[i] == n.ab[i + d];
  }

  // ------------------------------------------------------------------
  // What careful hosts can reach
  // ------------------------------------------------------------------

  ghost predicate Course(n: Net) {
    && S.Lawful(n) && S.Sound(n) && S.Compatible(n) && Orderly(n) && Orderly(Flip(n)) && W.Limited(n) && W.Limited(Flip(n))
  }

  lemma FlipCourse(n: Net)
    requires Course(n)
    ensures Course(Flip(n))
  {
    assert Flip(Flip(n)) == n;
    hide Agreed, S.Legible, S.Alive, S.Funded, C.Credit, W.Limited, Orderly;
  }

  lemma StepOrderly(n: Net, m: Move)
    requires Orderly(n) && Orderly(Flip(n))
    ensures Orderly(Step(n, m)) && Orderly(Flip(Step(n, m)))
  {
    var f := Flip(n);
    assert Flip(f) == n;
    hide Orderly, CallOutcome, ReceiveOutcome, NoteCall, NoteReceive;
    match m {
      case MoveA(ActCall(c, s)) => CallOrderly(n, c, s);
      case MoveB(ActCall(c, s)) => CallOrderly(f, c, s);
      case MoveA(ActDeliver(s)) => if n.ba != [] && n.a.state != Error && n.a.state != Closed { DeliverOrderly(n, s); }
      case MoveB(ActDeliver(s)) => if f.ba != [] && f.a.state != Error && f.a.state != Closed { DeliverOrderly(f, s); }
    }
  }

  lemma StepLimited(n: Net, m: Move)
    requires W.Limited(n) && W.Limited(Flip(n))
    ensures W.Limited(Step(n, m)) && W.Limited(Flip(Step(n, m)))
  {
    W.RunLimited(n, [m]);
    hide Step, W.Limited;
    assert [m][1..] == [] && Run(n, [m]) == Run(Step(n, m), []) == Step(n, m);
  }

  lemma StepCourse(n: Net, m: Move)
    requires Course(n) && S.CarefulMove(n, m) && IdsLeft(Step(n, m))
    ensures Course(Step(n, m))
  {
    hide S.Lawful, S.Sound, S.Compatible, Orderly, W.Limited, Step, S.CarefulMove;
    S.StepSound(n, m);
    S.StepCompatible(n, m);
    StepOrderly(n, m);
    StepLimited(n, m);
  }

  lemma {:induction false} RunCourse(n: Net, moves: seq<Move>)
    requires Course(n) && S.CarefulRun(n, moves) && IdsLeft(Run(n, moves))
    ensures Course(Run(n, moves))
    decreases |moves|
  {
    hide Step, Course, S.CarefulMove;
    if moves != [] {
      IdsOnlyGrow(Step(n, moves[0]), moves[1..]);
      StepCourse(n, moves[0]);
      RunCourse(Step(n, moves[0]), moves[1..]);
    }
  }

  lemma BeginCourse(n: Net)
    requires S.Begins(n) && S.Compatible(n)
    ensures Course(n)
  {
    S.BeginLawful(n);
    hide S.Lawful, S.Sound;
  }

  /** A careful run from the beginning led here, with A as either side. */
  ghost predicate WellReached(d: Net) {
    IdsLeft(d) && exists n: Net, moves: seq<Move> :: S.Begins(n) && S.Compatible(n) && S.CarefulRun(n, moves) && V.Leads(n, moves, d)
  }

  lemma ReachedCourse(d: Net)
    requires WellReached(d)
    ensures Course(d)
  {
    var n, moves :| S.Begins(n) && S.Compatible(n) && S.CarefulRun(n, moves) && V.Leads(n, moves, d);
    hide S.Begins, S.Compatible, S.CarefulRun, Course, Run;
    BeginCourse(n);
    var e := Run(n, moves);
    SeenFromEither(d, e);
    RunCourse(n, moves);
    FlipCourse(e);
  }

  lemma SeenFromEither(d: Net, e: Net)
    requires d == e || Flip(d) == e
    ensures (IdsLeft(d) <==> IdsLeft(e)) && (d == e || d == Flip(e))
  {
    assert Flip(Flip(d)) == d;
  }

  // ------------------------------------------------------------------
  // Safe
  // ------------------------------------------------------------------

  /** A harmless call from a state on course is followed by no ERROR on any careful run. */
  lemma HarmlessIsSafe(n: Net, c: Call, s: Sink)
    requires Course(n) && S.Harmless(n, c) && IdsLeft(CallA(n, c, s))
    ensures Safe(CallA(n, c, s))
  {
    var n' := CallA(n, c, s);
    hide S.Lawful, S.Sound, CallA, S.Harmless;
    S.CallSound(n, c, s);
    assert S.Compatible(n') by { StaysCompatible(n, c, s); }
    forall moves: seq<Move> | S.CarefulRun(n', moves) && IdsLeft(Run(n', moves)) ensures Well(Run(n', moves)) {
      hide S.Compatible, S.CarefulRun, Run;
      S.RunSound(n', moves);
      SoundIsWell(Run(n', moves));
    }
  }

  lemma StaysCompatible(n: Net, c: Call, s: Sink)
    requires S.Compatible(n)
    ensures S.Compatible(CallA(n, c, s))
  {
    hide CallOutcome, NoteCall;
  }

  lemma SoundIsWell(n: Net)
    requires S.Sound(n)
    ensures Well(n)
  {
    hide S.Alive, S.Funded;
  }

  // ------------------------------------------------------------------
  // Unsafe, step by step backwards
  // ------------------------------------------------------------------

  lemma FailedIsUnsafe(n: Net)
    requires !Well(n) && IdsLeft(n)
    ensures !Safe(n)
  {
    assert S.CarefulRun(n, []) && Run(n, []) == n;
  }

  lemma UnsafeBefore(n: Net, m: Move)
    requires S.CarefulMove(n, m) && !Safe(Step(n, m))
    ensures !Safe(n)
  {
    var moves: seq<Move> :| S.CarefulRun(Step(n, m), moves) && IdsLeft(Run(Step(n, m), moves)) && !Well(Run(Step(n, m), moves));
    var all := [m] + moves;
    assert all[1..] == moves;
    hide Step, S.CarefulMove, Well;
    assert S.CarefulRun(n, all) && Run(n, all) == Run(Step(n, m), moves);
  }

  /** There are ids for every OPEN in flight. */
  predicate IdsToSpare(n: Net) {
    n.a.next + Opens(n.ba) <= U32 && n.b.next + Opens(n.ab) <= U32
  }

  lemma DeliverSpares(n: Net, s: Sink)
    requires IdsToSpare(n)
    ensures IdsToSpare(DeliverA(n, s)) && IdsLeft(DeliverA(n, s))
  {
    if n.ba != [] && n.a.state != Error && n.a.state != Closed {
      ReceiveOrder(n.a, n.ba[0], s);
      ReceiveShape(n.a, n.ba[0], s);
      hide ReceiveOutcome, NoteReceive;
      OpensMore(n.ab, ReceiveOutcome(n.a, n.ba[0], s).push);
    }
  }

  // ------------------------------------------------------------------
  // Links that are fatal to empty
  // ------------------------------------------------------------------

  /** What taking the oldest PDU does to one channel of A, if it is not the end of A. */
  lemma TakesOne(n: Net, x: u32, s: Sink)
    requires (n.a.state == Ready || n.a.state == Draining) && n.ba != [] && x < n.a.next && IdsToSpare(n)
    ensures var p, n' := n.ba[0], DeliverA(n, s);
      n'.a.state != Error ==>
        && n'.ba == n.ba[1..] && x < n'.a.next && (n'.a.state == n.a.state || (p.Disconnect? && n'.a.state == Closed))
        && (x in n'.a.chans ==> x in n.a.chans)
        && (p.Data? && p.recipient == x ==> x in n.a.chans && |p.data| <= n.a.chans[x].recvWindow)
        && (x in n'.a.chans && n.a.chans[x].state == Opened ==>
              n'.a.chans[x].state == Opened
              && n'.a.chans[x].recvWindow == n.a.chans[x].recvWindow - (if p.Data? && p.recipient == x then |p.data| else 0))
  {
    ReceiveOrder(n.a, n.ba[0], s);
    ReceiveShape(n.a, n.ba[0], s);
    C.ReceiveCreditShape(n.a, n.ba[0], s);
    OnlyGoodbyeCloses(n.a, n.ba[0], s);
    hide ReceiveOutcome, NoteReceive;
  }

  lemma {:induction false} DoomedIsUnsafe(n: Net, x: u32, s: Sink)
    requires Doomed(n, x) && IdsToSpare(n)
    ensures !Safe(n)
    decreases |n.ba|
  {
    var n' := DeliverA(n, s);
    DoomedStep(n, x, s);
    DeliverSpares(n, s);
    hide DeliverA, IdsToSpare, Safe, Doomed;
    if n'.a.state == Error { FailedIsUnsafe(n'); } else { DoomedIsUnsafe(n', x, s); }
    UnsafeBefore(n, MoveA(ActDeliver(s)));
  }

  /** More on its way to a channel than its window holds, or anything to one that is gone. */
  ghost predicate Overdrawn(n: Net, x: u32) {
    && (n.a.state == Ready || n.a.state == Draining) && x < n.a.next
    && (forall i, j :: 0 <= i < j < |n.ba| && n.ba[i].Disconnect? ==> !n.ba[j].Data?)
    && (if x in n.a.chans then n.a.chans[x].state == Opened && BytesTo(n.ba, x) > n.a.chans[x].recvWindow else BytesTo(n.ba, x) > 0)
  }

  lemma {:induction false} OverdrawnIsUnsafe(n: Net, x: u32, s: Sink)
    requires Overdrawn(n, x) && IdsToSpare(n)
    ensures !Safe(n)
    decreases |n.ba|
  {
    var n' := DeliverA(n, s);
    TakesOne(n, x, s);
    DeliverSpares(n, s);
    hide DeliverA, IdsToSpare, Safe;
    if n'.a.state == Error {
      FailedIsUnsafe(n');
    } else {
      OverdrawnStays(n, n', x);
      OverdrawnIsUnsafe(n', x, s);
    }
    UnsafeBefore(n, MoveA(ActDeliver(s)));
  }

  lemma OverdrawnStays(n: Net, n': Net, x: u32)
    requires Overdrawn(n, x) && n'.ba == n.ba[1..] && x < n'.a.next
    requires n'.a.state == n.a.state || (n.ba[0].Disconnect? && n'.a.state == Closed)
    requires x in n'.a.chans ==> x in n.a.chans
    requires n.ba[0].Data? && n.ba[0].recipient == x ==> x in n.a.chans && |n.ba[0].data| <= n.a.chans[x].recvWindow
    requires x in n'.a.chans ==>
      n'.a.chans[x].state == Opened
      && n'.a.chans[x].recvWindow == n.a.chans[x].recvWindow - (if n.ba[0].Data? && n.ba[0].recipient == x then |n.ba[0].data| else 0)
    ensures Overdrawn(n', x)
  {
    assert forall i :: 0 <= i < |n'.ba| ==> n'.ba[i] == n.ba[i + 1];
    if n.ba[0].Disconnect? { NothingTo(n'.ba, x); }
  }

  // ------------------------------------------------------------------
  // A peer that can still send
  // ------------------------------------------------------------------

  /** The peer of A's channel x is there, and may send it more. */
  predicate CanSend(n: Net, x: u32) {
    && n.b.state == Ready && x in n.a.chans && n.a.chans[x].peerId in n.b.chans
    && !n.b.chans[n.a.chans[x].peerId].localEof
  }

  /** Seen from A alone it is what NetSafety calls finished. */
  lemma CannotSendIsFinished(n: Net, x: u32)
    requires Course(n) && x in n.a.chans && n.a.chans[x].state == Opened
    ensures S.Finished(Flip(n), x) <==> !CanSend(n, x)
    ensures x < n.a.next
  {
    assert Agreed(n);
    C.LiveFacts(n, x);
    var r := n.a.chans[x].peerId;
    AuthHasNoPeer(n, x);
    if r in n.b.chans { EndsAgree(n, x); }
    hide S.Lawful, S.Sound, Agreed, W.Limited;
  }

  lemma AuthHasNoPeer(n: Net, x: u32)
    requires Agreed(n) && Orderly(Flip(n)) && x in n.ha.bind
    ensures n.b.state != Auth
  {
    assert Paired(n);
  }

  /** Room for anything. */
  const OPEN_SINK: Sink := Sink(true, OUT_BUF_SIZE)

  /** The end of B that may send to A's channel x. */
  predicate Speaking(n: Net, x: u32, r: u32) {
    && n.b.state == Ready && r in n.b.chans && n.b.chans[r].state == Opened && n.b.chans[r].havePeer
    && n.b.chans[r].peerId == x && !n.b.chans[r].localEof
  }

  /** B sends one chunk. */
  lemma SendsOne(n: Net, x: u32, r: u32, data: bytes)
    requires Speaking(n, x, r) && |data| <= 1 && |data| <= n.b.chans[r].sendWindow && |data| <= n.b.chans[r].maxPacket
    requires n.b.cfg.maxRecord >= 9 + |data|
    ensures var n' := Step(n, MoveB(ActCall(CallSend(r, data), OPEN_SINK)));
      && n'.a == n.a && n'.ha == n.ha && n'.ab == n.ab && n'.ba == n.ba + [Data(x, data)] && n'.b.next == n.b.next
      && Speaking(n', x, r) && n'.b.cfg == n.b.cfg && n'.b.chans[r].maxPacket == n.b.chans[r].maxPacket
      && n'.b.chans[r].sendWindow == n.b.chans[r].sendWindow - |data|
    ensures S.CarefulMove(n, MoveB(ActCall(CallSend(r, data), OPEN_SINK)))
  {
  }

  lemma SendSpares(n: Net, n': Net, x: u32, data: bytes)
    requires IdsToSpare(n) && n'.a.next == n.a.next && n'.b.next == n.b.next && n'.ab == n.ab && n'.ba == n.ba + [Data(x, data)]
    ensures IdsToSpare(n')
  {
    OpensMore(n.ba, [Data(x, data)]);
  }

  /** A channel is gone and its peer may send: an empty chunk is enough. */
  lemma SpeakingToNoneIsUnsafe(n: Net, x: u32, r: u32)
    requires (n.a.state == Ready || n.a.state == Draining) && x !in n.a.chans && x < n.a.next && IdsToSpare(n)
    requires Speaking(n, x, r) && n.b.cfg.maxRecord >= 9 && forall i :: 0 <= i < |n.ba| ==> !n.ba[i].Disconnect?
    ensures !Safe(n)
  {
    var m := MoveB(ActCall(CallSend(r, []), OPEN_SINK));
    var n' := Step(n, m);
    SendsOne(n, x, r, []);
    SendSpares(n, n', x, []);
    hide Step, Speaking, IdsToSpare, Safe, S.CarefulMove;
    assert Needed(n'.ba, x, |n.ba|);
    DoomedIsUnsafe(n', x, OPEN_SINK);
    UnsafeBefore(n, m);
  }

  /** A peer that may send more than is left of the window, in all, need only do so byte by byte. */
  lemma {:induction false} SpendingIsUnsafe(n: Net, x: u32, r: u32)
    requires (n.a.state == Ready || n.a.state == Draining) && x in n.a.chans && n.a.chans[x].state == Opened && x < n.a.next
    requires Speaking(n, x, r) && n.b.cfg.maxRecord >= 10 && n.b.chans[r].maxPacket > 0 && IdsToSpare(n)
    requires forall i :: 0 <= i < |n.ba| ==> !n.ba[i].Disconnect?
    requires BytesTo(n.ba, x) + n.b.chans[r].sendWindow > n.a.chans[x].recvWindow
    ensures !Safe(n)
    decreases n.b.chans[r].sendWindow
  {
    if BytesTo(n.ba, x) > n.a.chans[x].recvWindow {
      OverdrawnIsUnsafe(n, x, OPEN_SINK);
    } else {
      var m := MoveB(ActCall(CallSend(r, [0]), OPEN_SINK));
      var n' := Step(n, m);
      SendsOne(n, x, r, [0]);
      SendSpares(n, n', x, [0]);
      DataToSnoc(n.ba, Data(x, [0]), x);
      hide Step, IdsToSpare, Safe, S.CarefulMove;
      assert forall i :: 0 <= i < |n'.ba| ==> !n'.ba[i].Disconnect?;
      SpendingIsUnsafe(n', x, r);
      UnsafeBefore(n, m);
    }
  }

  // ------------------------------------------------------------------
  // B catches up first
  // ------------------------------------------------------------------

  /** A call of A and a delivery to B of what was on the link before it can change places. */
  lemma CallAndDeliveryCommute(n: Net, c: Call, s: Sink, t: Sink)
    requires n.ab != []
    ensures CallA(Step(n, MoveB(ActDeliver(t))), c, s) == Step(CallA(n, c, s), MoveB(ActDeliver(t)))
  {
    hide CallOutcome, ReceiveOutcome, NoteCall, NoteReceive, Apply;
    var p := CallOutcome(n.a, c, s).push;
    assert (n.ab + p)[1..] == n.ab[1..] + p;
  }

  /** A delivery to B of what A said before leaves the peer of a live channel able to send. */
  lemma CatchingUp(n: Net, x: u32)
    requires Course(n) && x in n.a.chans && n.a.chans[x].state == Opened && CanSend(n, x) && IdsToSpare(n)
    requires n.ab != [] && !n.ab[0].Disconnect?
    ensures var n' := Step(n, MoveB(ActDeliver(OPEN_SINK)));
      && Course(n') && IdsToSpare(n') && n'.a == n.a && n'.ha == n.ha && n'.ab == n.ab[1..] && n'.b.cfg == n.b.cfg
      && CanSend(n', x) && BytesTo(n'.ba, x) == BytesTo(n.ba, x)
  {
    var n' := Step(n, MoveB(ActDeliver(OPEN_SINK)));
    CaughtUp(n);
    PeerStays(n, x);
    StepB(n, OPEN_SINK);
    DeliverParts(Flip(n), OPEN_SINK);
    hide Course, DeliverA, ReceiveOutcome, IdsToSpare, Step;
    C.SumsMore(n.ba, ReceiveOutcome(n.b, n.ab[0], OPEN_SINK).push, x);
  }

  lemma StepB(n: Net, s: Sink)
    ensures Step(n, MoveB(ActDeliver(s))) == Flip(DeliverA(Flip(n), s))
  {
  }

  lemma CaughtUp(n: Net)
    requires Course(n) && IdsToSpare(n)
    ensures var n' := Step(n, MoveB(ActDeliver(OPEN_SINK))); Course(n') && IdsToSpare(n') && Well(n')
  {
    var m, f := MoveB(ActDeliver(OPEN_SINK)), Flip(n);
    hide Course, DeliverA;
    FlipCourse(n);
    assert IdsToSpare(f);
    DeliverSpares(f, OPEN_SINK);
    StepCourse(n, m);
    CourseIsWell(Step(n, m));
  }

  lemma CourseIsWell(n: Net)
    requires Course(n)
    ensures Well(n)
  {
    hide S.Lawful, S.Sound;
    SoundIsWell(n);
  }

  /** The parts of a delivery to a READY side. */
  lemma DeliverParts(n: Net, s: Sink)
    requires n.a.state == Ready && n.ba != [] && !n.ba[0].Disconnect?
    ensures var n', o := DeliverA(n, s), ReceiveOutcome(n.a, n.ba[0], s);
      && n'.b == n.b && n'.hb == n.hb && n'.ab == n.ab + o.push && |o.push| <= 1 && (o.push != [] ==> !o.push[0].Data?)
      && n'.a.cfg == n.a.cfg && n'.a.state == o.state
      && (o.state == Error || (o.state == Ready && n'.ba == n.ba[1..]))
  {
    ReceiveOrder(n.a, n.ba[0], s);
    OnlyGoodbyeCloses(n.a, n.ba[0], s);
    S.ApplyParts(n.a, ReceiveOutcome(n.a, n.ba[0], s));
    hide ReceiveOutcome, Apply;
  }

  /** While x is open A has neither refused nor closed it towards its peer. */
  lemma NoFarewell(n: Net, x: u32, i: nat)
    requires Course(n) && x in n.a.chans && n.a.chans[x].state == Opened && i < |n.ab|
    ensures n.ab[i].OpenFail? || n.ab[i].Close? ==> n.ab[i].recipient != n.a.chans[x].peerId
  {
    assert S.Welcome(n, i);
    C.LiveFacts(n, x);
  }

  /** What A says while x is open does not take its peer away, nor end its sending. */
  lemma PeerStays(n: Net, x: u32)
    requires Course(n) && x in n.a.chans && n.a.chans[x].state == Opened && CanSend(n, x) && n.ab != [] && IdsToSpare(n)
    ensures var r, n' := n.a.chans[x].peerId, Step(n, MoveB(ActDeliver(OPEN_SINK)));
      r in n'.b.chans && n'.b.chans[r].localEof == n.b.chans[r].localEof
  {
    var r := n.a.chans[x].peerId;
    NoFarewell(n, x, 0);
    assert r < n.b.next by { FlipCourse(n); C.LiveFacts(Flip(n), r); }
    hide Course, DeliverA;
    OneStays(Flip(n), r, OPEN_SINK);
    StepB(n, OPEN_SINK);
  }

  /** A PDU that neither refuses nor closes a channel leaves it there, with its own EOF as it was. */
  lemma OneStays(n: Net, r: u32, s: Sink)
    requires r in n.a.chans && r < n.a.next && n.ba != [] && n.a.state == Ready && IdsToSpare(n)
    requires n.ba[0].OpenFail? || n.ba[0].Close? ==> n.ba[0].recipient != r
    ensures r in DeliverA(n, s).a.chans && DeliverA(n, s).a.chans[r].localEof == n.a.chans[r].localEof
  {
    var o := ReceiveOutcome(n.a, n.ba[0], s);
    ReceiveOrder(n.a, n.ba[0], s);
    if o.eff.Drop? { S.ReceiveDrops(n.a, n.ba[0], s); }
    ReceiveShape(n.a, n.ba[0], s);
    hide ReceiveOutcome, NoteReceive;
  }

  // ------------------------------------------------------------------
  // Closing
  // ------------------------------------------------------------------

  /** What a granted close of an open channel leaves. */
  lemma ClosedParts(n: Net, x: u32, s: Sink)
    requires x in n.a.chans && n.a.chans[x].state == Opened && (n.a.state == Ready || n.a.state == Draining)
    ensures var n' := CallA(n, CallClose(x), s);
      && n'.a.chans == n.a.chans - {x} && n'.a.state == n.a.state && n'.a.next == n.a.next && n'.b == n.b && n'.ba == n.ba
      && (IdsToSpare(n) ==> IdsToSpare(n')) && (IdsLeft(n) ==> IdsLeft(n'))
  {
    hide PushRc;
    OpensMore(n.ab, CallOutcome(n.a, CallClose(x), s).push);
  }

  /** The peer that can send is at it, or still has to hear of the channel. */
  lemma SpeakingOrHearing(n: Net, x: u32)
    requires Course(n) && x in n.a.chans && n.a.chans[x].state == Opened && CanSend(n, x)
    ensures x < n.a.next && forall i :: 0 <= i < |n.ba| ==> !n.ba[i].Disconnect?
    ensures Speaking(n, x, n.a.chans[x].peerId) || (n.ab != [] && !n.ab[0].Disconnect?)
  {
    assert Agreed(n);
    C.LiveFacts(n, x);
    EndsAgree(n, x);
    FlipCourse(n);
    C.LiveFacts(Flip(n), n.a.chans[x].peerId);
    assert Named(Flip(n)) && Placed(Flip(n), n.a.chans[x].peerId);
    hide S.Lawful, S.Sound, Agreed, W.Limited, Placed, Named;
  }

  lemma {:induction false} CloseWhileSending(n: Net, x: u32, s: Sink)
    requires Course(n) && IdsToSpare(n) && x in n.a.chans && n.a.chans[x].state == Opened && CanSend(n, x)
    requires (n.a.state == Ready || n.a.state == Draining) && n.b.cfg.maxRecord >= 9
    ensures !Safe(CallA(n, CallClose(x), s))
    decreases |n.ab|
  {
    hide Course, CallA, IdsToSpare, Safe, Speaking;
    SpeakingOrHearing(n, x);
    ClosedParts(n, x, s);
    var n1, r := CallA(n, CallClose(x), s), n.a.chans[x].peerId;
    if Speaking(n, x, r) {
      assert Speaking(n1, x, r) by { SameSpeaking(n, n1, x, r); }
      SpeakingToNoneIsUnsafe(n1, x, r);
    } else {
      var m := MoveB(ActDeliver(OPEN_SINK));
      CatchingUp(n, x);
      hide Step;
      CloseWhileSending(Step(n, m), x, s);
      CallAndDeliveryCommute(n, CallClose(x), s, OPEN_SINK);
      assert S.CarefulMove(n1, m);
      UnsafeBefore(n1, m);
    }
  }

  lemma SameSpeaking(n: Net, n': Net, x: u32, r: u32)
    requires Speaking(n, x, r) && n'.b == n.b
    ensures Speaking(n', x, r)
  {
  }

  /** A DATA that closing overtakes has no goodbye before it. */
  lemma DataIsNeeded(n: Net, x: u32, i: nat)
    requires Orderly(Flip(n)) && i < |n.ba| && n.ba[i].Data? && n.ba[i].recipient == x
    ensures Needed(n.ba, x, i)
  {
  }

  /**
   * Closing an open channel is safe if and only if no DATA for it is in flight
   * and its peer can send it none: the peer is not READY, or its end is gone,
   * or its end has sent EOF.
   */
  lemma CloseIsSafeExactly(n: Net, x: u32, s: Sink)
    requires WellReached(n) && IdsToSpare(n) && n.b.cfg.maxRecord >= 9
    requires x in n.a.chans && n.a.chans[x].state == Opened && (n.a.state == Ready || n.a.state == Draining)
    ensures Safe(Step(n, MoveA(ActCall(CallClose(x), s)))) <==> !CanSend(n, x) && S.NoDataTo(n.ba, x)
  {
    var n1 := CallA(n, CallClose(x), s);
    ReachedCourse(n);
    CannotSendIsFinished(n, x);
    ClosedParts(n, x, s);
    if CanSend(n, x) {
      CloseWhileSending(n, x, s);
    } else if !S.NoDataTo(n.ba, x) {
      var i :| 0 <= i < |n.ba| && n.ba[i].Data? && n.ba[i].recipient == x;
      DataIsNeeded(n, x, i);
      hide CallA, Course, Safe, WellReached;
      DoomedIsUnsafe(n1, x, OPEN_SINK);
    } else {
      assert S.Harmless(n, CallClose(x));
      hide CallA, Course, Safe, S.Harmless;
      HarmlessIsSafe(n, CallClose(x), s);
    }
  }

  // ------------------------------------------------------------------
  // Overflowing
  // ------------------------------------------------------------------

  /** What a granted adjust that overflows leaves. */
  lemma WrappedParts(n: Net, x: u32, credit: u32, s: Sink)
    requires S.Overflows(n.a, x, credit) && CallOutcome(n.a, CallAdjust(x, credit), s).rc == Ok
    ensures n.a.state == Ready
    ensures var n' := CallA(n, CallAdjust(x, credit), s);
      && x in n'.a.chans && n'.a.chans[x] == n.a.chans[x].(recvWindow := S.Wrapped(n.a, x, credit)) && n'.a.state == Ready
      && n'.a.next == n.a.next && n'.b == n.b && n'.ba == n.ba
      && (IdsToSpare(n) ==> IdsToSpare(n')) && (IdsLeft(n) ==> IdsLeft(n'))
  {
    hide PushRc;
    OpensMore(n.ab, CallOutcome(n.a, CallAdjust(x, credit), s).push);
  }

  /** With nothing on its way to it, a peer that can send has the whole window: what it may send, and what is in flight. */
  lemma WholeWindow(n: Net, x: u32)
    requires Course(n) && x in n.a.chans && n.a.chans[x].state == Opened && CanSend(n, x) && n.ab == []
    ensures var r := n.a.chans[x].peerId;
      && Speaking(n, x, r) && n.b.chans[r].maxPacket == W.PacketLimit(n.b.cfg, n.a.cfg)
      && n.a.chans[x].recvWindow == n.b.chans[r].sendWindow + BytesTo(n.ba, x)
  {
    var r := n.a.chans[x].peerId;
    SpeakingOrHearing(n, x);
    CannotSendIsFinished(n, x);
    C.LiveFacts(n, x);
    FlipCourse(n);
    C.LiveFacts(Flip(n), r);
    assert x !in n.ha.wrapped by { assert S.Funded(Flip(n)); }
    assert C.Balanced(Flip(n), r, x) by { assert C.Credit(Flip(n)); }
    assert W.Limited(Flip(n));
    hide S.Lawful, S.Sound;
  }

  /** With nothing on its way to the peer, overflowing is fatal at once. */
  lemma OverflowAtRest(n: Net, x: u32, credit: u32, s: Sink)
    requires Course(n) && IdsToSpare(n) && S.Overflows(n.a, x, credit) && CanSend(n, x) && n.ab == []
    requires CallOutcome(n.a, CallAdjust(x, credit), s).rc == Ok && n.b.cfg.maxRecord >= 10 && W.PacketLimit(n.b.cfg, n.a.cfg) > 0
    ensures !Safe(CallA(n, CallAdjust(x, credit), s))
  {
    var n1, r := CallA(n, CallAdjust(x, credit), s), n.a.chans[x].peerId;
    hide CallA, CallOutcome, IdsToSpare, Safe, Speaking, Course;
    WrappedParts(n, x, credit, s);
    SpeakingOrHearing(n, x);
    WholeWindow(n, x);
    SameSpeaking(n, n1, x, r);
    SpendingIsUnsafe(n1, x, r);
  }

  lemma {:induction false} OverflowWhileSending(n: Net, x: u32, credit: u32, s: Sink)
    requires Course(n) && IdsToSpare(n) && S.Overflows(n.a, x, credit) && CanSend(n, x)
    requires CallOutcome(n.a, CallAdjust(x, credit), s).rc == Ok && n.b.cfg.maxRecord >= 10 && W.PacketLimit(n.b.cfg, n.a.cfg) > 0
    ensures !Safe(CallA(n, CallAdjust(x, credit), s))
    decreases |n.ab|
  {
    hide CallA, CallOutcome, IdsToSpare, Safe, CanSend, Course, Step, W.PacketLimit;
    if n.ab == [] {
      OverflowAtRest(n, x, credit, s);
    } else {
      var m := MoveB(ActDeliver(OPEN_SINK));
      WrappedParts(n, x, credit, s);
      assert !n.ab[0].Disconnect? by { CourseIsOrderly(n); }
      CatchingUp(n, x);
      OverflowWhileSending(Step(n, m), x, credit, s);
      CallAndDeliveryCommute(n, CallAdjust(x, credit), s, OPEN_SINK);
      UnsafeBefore(CallA(n, CallAdjust(x, credit), s), m);
    }
  }

  lemma OverflowOverdraws(n: Net, x: u32, credit: u32, s: Sink)
    requires Course(n) && IdsToSpare(n) && S.Overflows(n.a, x, credit) && CallOutcome(n.a, CallAdjust(x, credit), s).rc == Ok
    requires BytesTo(n.ba, x) > S.Wrapped(n.a, x, credit) && x < n.a.next
    ensures !Safe(CallA(n, CallAdjust(x, credit), s))
  {
    hide CallA, CallOutcome, Safe, Course, IdsToSpare, BytesTo;
    NoDataAfterGoodbye(n);
    WrappedParts(n, x, credit, s);
    OverdrawnIsUnsafe(CallA(n, CallAdjust(x, credit), s), x, OPEN_SINK);
  }

  lemma OverflowFits(n: Net, x: u32, credit: u32, s: Sink)
    requires Course(n) && IdsLeft(n) && S.Overflows(n.a, x, credit) && CallOutcome(n.a, CallAdjust(x, credit), s).rc == Ok
    requires BytesTo(n.ba, x) <= S.Wrapped(n.a, x, credit) && S.Finished(Flip(n), x)
    ensures Safe(CallA(n, CallAdjust(x, credit), s))
  {
    hide CallA, CallOutcome, Safe, Course;
    WrappedParts(n, x, credit, s);
    HarmlessIsSafe(n, CallAdjust(x, credit), s);
  }

  /**
   * Overflowing a window is safe if and only if the peer can send no more and
   * what is in flight fits what is left.  A peer that can still send holds, as
   * credit and in flight, the whole of the window that was - always more.
   */
  lemma OverflowIsSafeExactly(n: Net, x: u32, credit: u32, s: Sink)
    requires WellReached(n) && IdsToSpare(n) && n.b.cfg.maxRecord >= 10 && W.PacketLimit(n.b.cfg, n.a.cfg) > 0
    requires S.Overflows(n.a, x, credit) && CallOutcome(n.a, CallAdjust(x, credit), s).rc == Ok
    ensures Safe(Step(n, MoveA(ActCall(CallAdjust(x, credit), s)))) <==>
      !CanSend(n, x) && BytesTo(n.ba, x) <= S.Wrapped(n.a, x, credit)
  {
    assert IdsLeft(n);
    hide CallA, CallOutcome, Safe, WellReached, CanSend, Course, IdsToSpare, S.Finished, S.Wrapped, W.PacketLimit;
    ReachedCourse(n);
    CannotSendIsFinished(n, x);
    if CanSend(n, x) { OverflowWhileSending(n, x, credit, s); }
    else if BytesTo(n.ba, x) > S.Wrapped(n.a, x, credit) { OverflowOverdraws(n, x, credit, s); }
    else { OverflowFits(n, x, credit, s); }
  }

  lemma NoDataAfterGoodbye(n: Net)
    requires Course(n)
    ensures forall i, j :: 0 <= i < j < |n.ba| && n.ba[i].Disconnect? ==> !n.ba[j].Data?
  {
    CourseIsOrderly(n);
    hide Course;
  }

  lemma CourseIsOrderly(n: Net)
    requires Course(n)
    ensures Orderly(n) && Orderly(Flip(n))
  {
  }

  // ------------------------------------------------------------------
  // Such states are there
  // ------------------------------------------------------------------

  /** A name both sides allow, and room for one channel. */
  predicate Usable(n: Net, name: bytes) {
    && 0 < |name| <= CHANNEL_NAME_MAX && 0 !in name && NameAllowed(n.a.cfg, name) && NameAllowed(n.b.cfg, name)
    && n.a.cfg.maxChannels > 0 && n.b.cfg.maxChannels > 0 && n.a.cfg.maxRecord >= 128 && n.b.cfg.maxRecord >= 128
  }

  /** A opens a channel, B accepts it, and both hear of it. */
  function Meeting(name: bytes): seq<Move> {
    [MoveA(ActCall(CallOpen(name), OPEN_SINK)), MoveB(ActDeliver(OPEN_SINK)),
     MoveB(ActCall(CallAccept(0, true), OPEN_SINK)), MoveA(ActDeliver(OPEN_SINK))]
  }

  predicate Idle(n: Net) {
    n.a.state == Ready && n.b.state == Ready && n.ab == [] && n.ba == [] && n.a.chans == map[] && n.b.chans == map[]
    && n.a.next == 0 && n.b.next == 0
  }

  lemma MeetingOpens(n: Net, name: bytes)
    requires Idle(n) && Usable(n, name)
    ensures var n1 := Step(n, Meeting(name)[0]);
      && n1.a.chans.Keys == {0} && n1.a.chans[0].state == Opening && !n1.a.chans[0].localEof
      && n1.a.chans[0].recvWindow == n.a.cfg.initialWindow
      && n1.a == n.a.(chans := n1.a.chans, next := 1) && n1.b == n.b && n1.ba == [] && |n1.ab| == 1
      && n1.ab[0].Open? && n1.ab[0].sender == 0 && n1.ab[0].name == name
  {
    hide Segments;
  }

  lemma MeetingPends(n: Net, name: bytes)
    requires n.b.state == Ready && n.b.chans == map[] && n.b.next == 0 && n.ba == [] && Usable(n, name)
    requires |n.ab| == 1 && n.ab[0].Open? && n.ab[0].sender == 0 && n.ab[0].name == name
    ensures var n2 := Step(n, Meeting(name)[1]);
      && n2.b.chans.Keys == {0} && n2.b.chans[0].state == Pending && n2.b.chans[0].havePeer && n2.b.chans[0].peerId == 0
      && n2.b.chans[0].localId == 0 && !n2.b.chans[0].localEof
      && n2.b == n.b.(chans := n2.b.chans, next := 1) && n2.a == n.a && n2.ba == [] && n2.ab == []
  {
    assert CString(name) == name;
    hide Segments;
  }

  lemma MeetingAccepts(n: Net, name: bytes)
    requires n.b.state == Ready && n.b.chans.Keys == {0} && n.b.next == 1 && n.ba == [] && n.ab == [] && Usable(n, name)
    requires n.b.chans[0].state == Pending && n.b.chans[0].havePeer && n.b.chans[0].peerId == 0 && n.b.chans[0].localId == 0
    ensures var n3 := Step(n, Meeting(name)[2]);
      && n3.b.chans.Keys == {0} && n3.b.chans[0].state == Opened && n3.b.chans[0].localEof == n.b.chans[0].localEof
      && n3.b == n.b.(chans := n3.b.chans) && n3.a == n.a && n3.ab == [] && |n3.ba| == 1
      && n3.ba[0].Confirm? && n3.ba[0].sender == 0 && n3.ba[0].recipient == 0
  {
    hide Segments;
  }

  lemma MeetingConfirms(n: Net, name: bytes)
    requires n.a.state == Ready && n.a.chans.Keys == {0} && n.a.chans[0].state == Opening && n.ab == [] && Usable(n, name)
    requires |n.ba| == 1 && n.ba[0].Confirm? && n.ba[0].sender == 0 && n.ba[0].recipient == 0
    ensures var n4 := Step(n, Meeting(name)[3]);
      && n4.a.chans.Keys == {0} && n4.a.chans[0].state == Opened && n4.a.chans[0].peerId == 0 && n4.a.chans[0].havePeer
      && n4.a.chans[0].recvWindow == n.a.chans[0].recvWindow
      && n4.a == n.a.(chans := n4.a.chans) && n4.b == n.b && n4.ab == [] && n4.ba == []
  {
    hide Segments;
  }

  lemma RunFirst(n: Net, m: Move, rest: seq<Move>)
    ensures Run(n, [m] + rest) == Run(Step(n, m), rest)
    ensures S.CarefulRun(n, [m] + rest) == (S.CarefulMove(n, m) && S.CarefulRun(Step(n, m), rest))
  {
    hide Step, S.CarefulMove;
    assert ([m] + rest)[1..] == rest;
  }

  lemma RunFour(n: Net, a: Move, b: Move, c: Move, d: Move)
    ensures var n1 := Step(n, a); var n2 := Step(n1, b); var n3 := Step(n2, c);
      && Run(n, [a, b, c, d]) == Step(n3, d)
      && S.CarefulRun(n, [a, b, c, d]) ==
           (S.CarefulMove(n, a) && S.CarefulMove(n1, b) && S.CarefulMove(n2, c) && S.CarefulMove(n3, d))
  {
    hide Step, S.CarefulMove;
    var n1 := Step(n, a);
    var n2 := Step(n1, b);
    var n3 := Step(n2, c);
    RunFirst(n, a, [b, c, d]);
    RunFirst(n1, b, [c, d]);
    RunFirst(n2, c, [d]);
    RunFirst(n3, d, []);
    assert [a] + [b, c, d] == [a, b, c, d] && [b] + [c, d] == [b, c, d] && [c] + [d] == [c, d] && [d] + [] == [d];
    assert Run(Step(n3, d), []) == Step(n3, d) && S.CarefulRun(Step(n3, d), []);
  }

  /** A pair at work: both ends of one channel open, nothing in flight. */
  predicate AtWork(n: Net) {
    && n.a.state == Ready && n.b.state == Ready && n.ab == [] && n.ba == [] && n.a.next == 1 && n.b.next == 1
    && n.a.chans.Keys == {0} && n.a.chans[0].state == Opened && n.a.chans[0].peerId == 0 && n.a.chans[0].havePeer
    && n.b.chans.Keys == {0} && !n.b.chans[0].localEof
  }

  lemma MeetingWorks(n: Net, name: bytes)
    requires Idle(n) && Usable(n, name)
    ensures var d := Run(n, Meeting(name));
      && AtWork(d) && S.CarefulRun(n, Meeting(name))
      && d.a.cfg == n.a.cfg && d.b.cfg == n.b.cfg && d.a.chans[0].recvWindow == n.a.cfg.initialWindow
  {
    var m := Meeting(name);
    MeetingOpens(n, name);
    var n1 := Step(n, m[0]);
    MeetingPends(n1, name);
    var n2 := Step(n1, m[1]);
    MeetingAccepts(n2, name);
    var n3 := Step(n2, m[2]);
    MeetingConfirms(n3, name);
    assert S.CarefulMove(n, m[0]) && S.CarefulMove(n1, m[1]) && S.CarefulMove(n2, m[2]) && S.CarefulMove(n3, m[3]);
    hide Step, S.CarefulMove;
    RunFour(n, m[0], m[1], m[2], m[3]);
  }

  /** A side that waits for AUTH_OK gets it. */
  function Accepted(n: Net): Net {
    if n.b.state == Auth then Step(n, MoveB(ActDeliver(OPEN_SINK))) else n
  }

  lemma AcceptedBegins(n: Net)
    requires S.Begins(n)
    ensures S.Begins(Accepted(n)) && Idle(Accepted(n)) && Accepted(n).a.cfg == n.a.cfg && Accepted(n).b.cfg == n.b.cfg
  {
  }

  lemma WorkIsReached(n: Net, name: bytes)
    requires S.Begins(n) && S.Compatible(n) && Usable(n, name)
    ensures var d := Run(Accepted(n), Meeting(name));
      && WellReached(d) && AtWork(d) && d.a.cfg == n.a.cfg && d.b.cfg == n.b.cfg && d.a.chans[0].recvWindow == n.a.cfg.initialWindow
  {
    AcceptedBegins(n);
    var e, d := Accepted(n), Run(Accepted(n), Meeting(name));
    MeetingWorks(e, name);
    hide Run, S.Begins, S.CarefulRun, Accepted, Meeting;
    assert V.Leads(e, Meeting(name), d);
  }

  lemma AtWorkIsExposed(d: Net, credit: u32)
    requires WellReached(d) && AtWork(d) && d.a.cfg.maxRecord >= 10 && d.b.cfg.maxRecord >= 10 && W.PacketLimit(d.b.cfg, d.a.cfg) > 0
    requires d.a.chans[0].recvWindow + credit >= U32
    ensures !Safe(Step(d, MoveA(ActCall(CallClose(0), OPEN_SINK))))
    ensures !Safe(Step(d, MoveA(ActCall(CallAdjust(0, credit), OPEN_SINK))))
  {
    assert CanSend(d, 0) && IdsToSpare(d);
    assert CallOutcome(d.a, CallAdjust(0, credit), OPEN_SINK).rc == Ok;
    hide WellReached, Safe, Step, CallOutcome, W.PacketLimit;
    CloseIsSafeExactly(d, 0, OPEN_SINK);
    OverflowIsSafeExactly(d, 0, credit, OPEN_SINK);
  }

  /**
   * Harm does happen: from every beginning a careful run of five steps at most
   * leads to a pair at work, at which closing the channel, and granting it
   * credit beyond the 32 bits of its window, is no longer safe.
   */
  lemma HarmHappens(n: Net, name: bytes, credit: u32)
    requires S.Begins(n) && S.Compatible(n) && Usable(n, name) && W.PacketLimit(n.b.cfg, n.a.cfg) > 0
    requires n.a.cfg.initialWindow + credit >= U32
    ensures var d := Run(Accepted(n), Meeting(name));
      && WellReached(d) && AtWork(d)
      && !Safe(Step(d, MoveA(ActCall(CallClose(0), OPEN_SINK))))
      && !Safe(Step(d, MoveA(ActCall(CallAdjust(0, credit), OPEN_SINK))))
  {
    hide Run, S.Begins, WellReached, Safe, Step, W.PacketLimit, Accepted, Meeting, AtWork, S.Compatible;
    WorkIsReached(n, name);
    AtWorkIsExposed(Run(Accepted(n), Meeting(name)), credit);
  }
}
