/**
 * An OPEN_FAIL on its way names an OPEN that was made, was answered by it
 * alone, and is still waiting for an answer if it is there at all.
 */
module NetRefusals {
  import opened Base
  import opened Mux
  import opened Net
  import opened NetBinding

  /** B's channel r was offered, and A neither knows it nor has answered it otherwise. */
  predicate Turned(n: Net, r: u32) {
    && r in n.hb.offered && r !in n.hb.bind
    && (forall i :: 0 <= i < |n.ba| && n.ba[i].Open? ==> n.ba[i].sender != r)
    && (forall i :: 0 <= i < |n.ab| && n.ab[i].Confirm? ==> n.ab[i].recipient != r)
    && (forall k :: k in n.a.chans && n.a.chans[k].havePeer ==> n.a.chans[k].peerId != r)
  }

  predicate Refused(n: Net) {
    forall i :: 0 <= i < |n.ab| && n.ab[i].OpenFail? ==> Turned(n, n.ab[i].recipient)
  }

  // ------------------------------------------------------------------
  // Host calls
  // ------------------------------------------------------------------

  /** What a call does to the peers A knows, and what it may answer an OPEN with. */
  lemma CallAnswers(p: Peer, c: Call, s: Sink)
    requires OwnIds(p)
    ensures var o, p' := CallOutcome(p, c, s), Apply(p, CallOutcome(p, c, s));
      && (forall k :: k in p'.chans && p'.chans[k].havePeer ==>
            k in p.chans && p.chans[k].havePeer && p'.chans[k].peerId == p.chans[k].peerId)
      && (o.push != [] && o.push[0].Confirm? ==>
            exists k :: k in p.chans && p.chans[k].state == Pending && p.chans[k].havePeer && p.chans[k].peerId == o.push[0].recipient)
      && (o.push != [] && o.push[0].OpenFail? ==>
            c.CallAccept? && c.id in p.chans && p.chans[c.id].state == Pending && p.chans[c.id].peerId == o.push[0].recipient
            && p'.chans == p.chans - {c.id})
      && (o.push != [] && o.push[0].Open? ==> o.push[0].sender == NextId(p) && o.eff.Add?)
      && |o.push| <= 1
  {
    CallShape(p, c, s);
    hide Segments, PushRc;
    var o := CallOutcome(p, c, s);
    if o.push != [] && o.push[0].Confirm? { assert CallTarget(c).value in p.chans; }
  }

  /** Seen from the sender of the refusal. */
  lemma TurnedKept(n: Net, n': Net, r: u32, p: seq<Pdu>)
    requires Turned(n, r) && n'.hb == n.hb && n'.ab == n.ab + p
    requires n'.ba == n.ba || (n.ba != [] && n'.ba == n.ba[1..])
    requires |p| <= 1 && (p != [] && p[0].Confirm? ==> p[0].recipient != r)
    requires forall k :: k in n'.a.chans && n'.a.chans[k].havePeer ==>
      (k in n.a.chans && n.a.chans[k].havePeer && n'.a.chans[k].peerId == n.a.chans[k].peerId) || n'.a.chans[k].peerId != r
    ensures Turned(n', r)
  {
  }

  /** No CONFIRM answers a channel that has been refused. */
  lemma ConfirmsOthers(n: Net, c: Call, s: Sink, r: u32)
    requires Agreed(n) && Turned(n, r)
    ensures var p := CallOutcome(n.a, c, s).push; p != [] && p[0].Confirm? ==> p[0].recipient != r
  {
    assert OwnIds(n.a) by { assert Named(n); }
    hide Agreed, CallOutcome;
    CallAnswers(n.a, c, s);
  }

  lemma CallTurned(n: Net, c: Call, s: Sink, r: u32)
    requires Agreed(n) && Turned(n, r)
    ensures Turned(CallA(n, c, s), r)
  {
    assert OwnIds(n.a) by { assert Named(n); }
    hide Agreed, CallOutcome, NoteCall, Turned, Apply;
    CallAnswers(n.a, c, s);
    ConfirmsOthers(n, c, s, r);
    TurnedKept(n, CallA(n, c, s), r, CallOutcome(n.a, c, s).push);
  }

  /** Seen from the receiver of the refusal. */
  lemma TurnedBackKept(n: Net, n': Net, r: u32, p: seq<Pdu>)
    requires Turned(Flip(n), r) && n'.b == n.b && n'.ab == n.ab + p
    requires n'.ba == n.ba || (n.ba != [] && n'.ba == n.ba[1..])
    requires r in n'.ha.offered && r !in n'.ha.bind
    requires |p| <= 1 && (p != [] && p[0].Open? ==> p[0].sender != r)
    ensures Turned(Flip(n'), r)
  {
  }

  lemma OfferedBelow(n: Net, r: u32)
    requires Agreed(n) && r in n.ha.offered
    ensures r < n.a.next
  {
    assert Named(n);
  }

  lemma NextIdAbove(n: Net, c: Call, s: Sink)
    requires IdsLeft(CallA(n, c, s)) && CallOutcome(n.a, c, s).eff.Add?
    ensures NextId(n.a) == n.a.next
  {
    hide CallOutcome, NoteCall;
  }

  lemma CallTurnedBack(n: Net, c: Call, s: Sink, r: u32)
    requires Agreed(n) && IdsLeft(CallA(n, c, s)) && Turned(Flip(n), r)
    ensures Turned(Flip(CallA(n, c, s)), r)
  {
    assert r in n.ha.offered && r !in n.ha.bind;
    assert OwnIds(n.a) by { assert Named(n); }
    hide Agreed, CallOutcome, NoteCall, Turned, Apply;
    OfferedBelow(n, r);
    if CallOutcome(n.a, c, s).eff.Add? { NextIdAbove(n, c, s); }
    CallAnswers(n.a, c, s);
    CallNames(n.ha, n.a, c, CallOutcome(n.a, c, s));
    TurnedBackKept(n, CallA(n, c, s), r, CallOutcome(n.a, c, s).push);
  }

  /** A host that turns a pending channel down. */
  lemma CallTurns(n: Net, c: Call, s: Sink)
    requires Agreed(n) && CallOutcome(n.a, c, s).push != [] && CallOutcome(n.a, c, s).push[0].OpenFail?
    ensures Turned(CallA(n, c, s), CallOutcome(n.a, c, s).push[0].recipient)
  {
    assert OwnIds(n.a) by { assert Named(n); }
    CallAnswers(n.a, c, s);
    var n', r := CallA(n, c, s), CallOutcome(n.a, c, s).push[0].recipient;
    hide CallOutcome, NoteCall;
    PendingAlone(n, c.id);
  }

  /** Nobody else on side A has a pending channel's peer, and nothing about it is in flight. */
  lemma PendingAlone(n: Net, x: u32)
    requires Agreed(n) && x in n.a.chans && n.a.chans[x].state == Pending
    ensures var r := n.a.chans[x].peerId;
      && r in n.hb.offered && r !in n.hb.bind
      && (forall i :: 0 <= i < |n.ba| && n.ba[i].Open? ==> n.ba[i].sender != r)
      && (forall i :: 0 <= i < |n.ab| && n.ab[i].Confirm? ==> n.ab[i].recipient != r)
      && (forall k :: k in n.a.chans && k != x && n.a.chans[k].havePeer ==> n.a.chans[k].peerId != r)
  {
    var r := n.a.chans[x].peerId;
    assert Placed(n, x) && Paired(n);
    assert n.ha.bind[x] in n.ha.bind.Values;
    forall i | 0 <= i < |n.ba| && n.ba[i].Open? ensures n.ba[i].sender != r { assert Carried(Flip(n), i); }
    forall i | 0 <= i < |n.ab| && n.ab[i].Confirm? ensures n.ab[i].recipient != r { assert Carried(n, i); }
    forall k | k in n.a.chans && k != x && n.a.chans[k].havePeer ensures n.a.chans[k].peerId != r { assert Placed(n, k); }
  }

  lemma CallRefuses(n: Net, c: Call, s: Sink)
    requires Agreed(n) && IdsLeft(CallA(n, c, s)) && Refused(n) && Refused(Flip(n))
    ensures Refused(CallA(n, c, s)) && Refused(Flip(CallA(n, c, s)))
  {
    var n', o := CallA(n, c, s), CallOutcome(n.a, c, s);
    assert |o.push| <= 1 by { assert OwnIds(n.a) by { assert Named(n); } CallAnswers(n.a, c, s); }
    hide Agreed, CallOutcome, NoteCall, Turned;
    forall i | 0 <= i < |n'.ab| && n'.ab[i].OpenFail? ensures Turned(n', n'.ab[i].recipient) {
      if i < |n.ab| { CallTurned(n, c, s, n.ab[i].recipient); } else { CallTurns(n, c, s); }
    }
    forall i | 0 <= i < |n'.ba| && n'.ba[i].OpenFail? ensures Turned(Flip(n'), n'.ba[i].recipient) {
      CallTurnedBack(n, c, s, n.ba[i].recipient);
    }
  }

  // ------------------------------------------------------------------
  // Deliveries
  // ------------------------------------------------------------------

  /** What a received PDU does to the peers A knows, and what it may be answered with. */
  lemma ReceiveAnswers(p: Peer, m: Pdu, s: Sink)
    requires p.state != Error
    ensures var o, p' := ReceiveOutcome(p, m, s), Apply(p, ReceiveOutcome(p, m, s));
      && (forall k :: k in p'.chans && p'.chans[k].havePeer ==>
            || (k in p.chans && p.chans[k].havePeer && p'.chans[k].peerId == p.chans[k].peerId)
            || ((m.Open? || m.Confirm?) && o.state != Error && p'.chans[k].peerId == m.sender))
      && (o.push != [] && !o.push[0].OpenFail? ==> !o.push[0].Open? && !o.push[0].Confirm?)
      && (o.push != [] && o.push[0].OpenFail? ==> m.Open? && o.push[0].recipient == m.sender && p'.chans == p.chans)
      && |o.push| <= 1
  {
    ReceiveShape(p, m, s);
    hide Segments, PushRc;
  }

  lemma Known(n: Net)
    requires Agreed(n) && n.ba != []
    ensures n.ba[0].Confirm? ==> n.ba[0].sender in n.hb.bind
    ensures n.ba[0].Open? ==> n.ba[0].sender in n.hb.offered && n.ba[0].sender !in n.hb.bind && n.ba[0].sender !in n.ha.bind.Values
    ensures n.ba[0].Open? ==> forall i :: 0 < i < |n.ba| && n.ba[i].Open? ==> n.ba[i].sender != n.ba[0].sender
  {
    assert Carried(Flip(n), 0);
    assert Link(Flip(n));
  }

  lemma DeliverTurned(n: Net, s: Sink, r: u32)
    requires Agreed(n) && Turned(n, r) && n.ba != [] && n.a.state != Error && n.a.state != Closed
    ensures Turned(DeliverA(n, s), r)
  {
    Known(n);
    assert n.ba[0].Confirm? || n.ba[0].Open? ==> n.ba[0].sender != r;
    hide Agreed, ReceiveOutcome, NoteReceive, Turned, Apply;
    ReceiveAnswers(n.a, n.ba[0], s);
    TurnedKept(n, DeliverA(n, s), r, ReceiveOutcome(n.a, n.ba[0], s).push);
  }

  lemma NotesElsewhere(n: Net, s: Sink, r: u32)
    requires IdsLeft(DeliverA(n, s)) && n.ba != [] && n.a.state != Error && n.a.state != Closed
    requires r < n.a.next && r !in n.ha.bind && (n.ba[0].Confirm? ==> n.ba[0].recipient != r)
    ensures var h := DeliverA(n, s).ha; r !in h.bind && h.offered == n.ha.offered
  {
    hide ReceiveOutcome;
  }

  lemma DeliverTurnedBack(n: Net, s: Sink, r: u32)
    requires Agreed(n) && IdsLeft(DeliverA(n, s)) && Turned(Flip(n), r) && n.ba != [] && n.a.state != Error && n.a.state != Closed
    ensures Turned(Flip(DeliverA(n, s)), r)
  {
    assert r in n.ha.offered && r !in n.ha.bind && (n.ba[0].Confirm? ==> n.ba[0].recipient != r);
    hide Agreed, ReceiveOutcome, Turned, NoteReceive, Apply;
    OfferedBelow(n, r);
    NotesElsewhere(n, s, r);
    ReceiveAnswers(n.a, n.ba[0], s);
    TurnedBackKept(n, DeliverA(n, s), r, ReceiveOutcome(n.a, n.ba[0], s).push);
  }

  /** A session that turns an OPEN down. */
  lemma DeliverTurns(n: Net, s: Sink)
    requires Agreed(n) && n.ba != [] && n.a.state != Error && n.a.state != Closed
    requires ReceiveOutcome(n.a, n.ba[0], s).push != [] && ReceiveOutcome(n.a, n.ba[0], s).push[0].OpenFail?
    ensures Turned(DeliverA(n, s), ReceiveOutcome(n.a, n.ba[0], s).push[0].recipient)
  {
    Known(n);
    ReceiveAnswers(n.a, n.ba[0], s);
    ReceiveShape(n.a, n.ba[0], s);
    var r, n' := n.ba[0].sender, DeliverA(n, s);
    hide ReceiveOutcome, NoteReceive;
    forall i | 0 <= i < |n.ab| && n.ab[i].Confirm? ensures n.ab[i].recipient != r { assert Carried(n, i); }
    forall k | k in n.a.chans && n.a.chans[k].havePeer ensures n.a.chans[k].peerId != r { assert Placed(n, k); }
    hide Agreed;
    assert n'.ba == n.ba[1..];
  }

  lemma DeliverRefuses(n: Net, s: Sink)
    requires Agreed(n) && IdsLeft(DeliverA(n, s)) && Refused(n) && Refused(Flip(n))
    requires n.ba != [] && n.a.state != Error && n.a.state != Closed
    ensures Refused(DeliverA(n, s)) && Refused(Flip(DeliverA(n, s)))
  {
    var n', o := DeliverA(n, s), ReceiveOutcome(n.a, n.ba[0], s);
    ReceiveAnswers(n.a, n.ba[0], s);
    hide Agreed, ReceiveOutcome, NoteReceive, Turned;
    forall i | 0 <= i < |n'.ab| && n'.ab[i].OpenFail? ensures Turned(n', n'.ab[i].recipient) {
      if i < |n.ab| { DeliverTurned(n, s, n.ab[i].recipient); } else { DeliverTurns(n, s); }
    }
    forall i | 0 <= i < |n'.ba| && n'.ba[i].OpenFail? ensures Turned(Flip(n'), n'.ba[i].recipient) {
      assert n'.ba[i] in n.ba;
      DeliverTurnedBack(n, s, n'.ba[i].recipient);
    }
  }

  // ------------------------------------------------------------------
  // Runs
  // ------------------------------------------------------------------

  lemma StepRefuses(n: Net, m: Move)
    requires Agreed(n) && IdsLeft(Step(n, m)) && Refused(n) && Refused(Flip(n))
    ensures Refused(Step(n, m)) && Refused(Flip(Step(n, m)))
  {
    var f := Flip(n);
    assert Flip(f) == n;
    FlipAgreed(n);
    hide Agreed, Refused, CallOutcome, ReceiveOutcome, NoteCall, NoteReceive;
    match m {
      case MoveA(ActCall(c, s)) => CallRefuses(n, c, s);
      case MoveB(ActCall(c, s)) => CallRefuses(f, c, s);
      case MoveA(ActDeliver(s)) => if n.ba != [] && n.a.state != Error && n.a.state != Closed { DeliverRefuses(n, s); }
      case MoveB(ActDeliver(s)) => if f.ba != [] && f.a.state != Error && f.a.state != Closed { DeliverRefuses(f, s); }
    }
  }

  lemma {:induction false} RunRefuses(n: Net, moves: seq<Move>)
    requires Agreed(n) && Refused(n) && Refused(Flip(n)) && IdsLeft(Run(n, moves))
    ensures Refused(Run(n, moves)) && Refused(Flip(Run(n, moves)))
    decreases |moves|
  {
    hide Step, Agreed, Refused;
    if moves != [] {
      IdsOnlyGrow(Step(n, moves[0]), moves[1..]);
      StepKeeps(n, moves[0]);
      StepRefuses(n, moves[0]);
      RunRefuses(Step(n, moves[0]), moves[1..]);
    }
  }
}
