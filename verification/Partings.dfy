/**
 * What the other side comes to know: a CLOSE and a DISCONNECT that were sent
 * are told to the peer's host once what is in flight has been delivered, and
 * so is a rejection.
 */
module Partings {
  import opened Base
  import opened Mux
  import opened Net
  import opened NetBinding
  import opened NetLimits
  import F = NetRefusals
  import S = NetSafety
  import V = NetLaws
  import X = NetExact

  predicate Stopped(p: Peer) {
    p.state == Error || p.state == Closed
  }

  /** The log has grown, and e is in the new part. */
  predicate ToldSince(log: seq<Event>, log': seq<Event>, e: Event) {
    log <= log' && exists i :: |log| <= i < |log'| && log'[i] == e
  }

  lemma ToldLater(log: seq<Event>, log': seq<Event>, log'': seq<Event>, e: Event)
    requires log <= log' <= log'' && (ToldSince(log, log', e) || ToldSince(log', log'', e))
    ensures ToldSince(log, log'', e)
  {
    if ToldSince(log, log', e) {
      var i :| |log| <= i < |log'| && log'[i] == e;
      assert log''[i] == e;
    }
  }

  lemma ToldNow(log: seq<Event>, log': seq<Event>, e: Event)
    requires log <= log'
    ensures ToldSince(log, log' + [e], e)
  {
    assert (log' + [e])[|log'|] == e;
  }

  lemma LogGrows(n: Net, s: Sink)
    ensures n.ha.log <= DeliverA(n, s).ha.log
  {
    hide ReceiveOutcome;
  }

  // ------------------------------------------------------------------
  // CLOSE
  // ------------------------------------------------------------------

  /** A's channel x is live, nothing on the link to A refuses it, and a CLOSE for it is last. */
  predicate Parting(n: Net, x: u32) {
    && x in n.a.chans && n.a.chans[x].localId == x && x < n.a.next && n.a.next + Opens(n.ba) <= U32
    && n.ba != [] && n.ba[|n.ba| - 1] == Close(x)
    && forall i :: 0 <= i < |n.ba| && n.ba[i].OpenFail? ==> n.ba[i].recipient != x
  }

  predicate Parted(n: Net, x: u32, log: seq<Event>) {
    Stopped(n.a) || (x !in n.a.chans && ToldSince(log, n.ha.log, ChannelClose(x)))
  }

  /** One delivery: the channel is still there, or it is gone and that was told. */
  lemma PartingStep(n: Net, x: u32, s: Sink)
    requires Parting(n, x) && !Stopped(n.a)
    ensures var n' := DeliverA(n, s);
      || Stopped(n'.a)
      || (|n'.ba| < |n.ba| && Parting(n', x))
      || (n'.ba == n.ba[1..] && x !in n'.a.chans && x < n'.a.next && n'.a.next + Opens(n'.ba) <= U32 && n'.ha.log == n.ha.log + [ChannelClose(x)])
  {
    var p, o := n.ba[0], ReceiveOutcome(n.a, n.ba[0], s);
    ReceiveShape(n.a, p, s);
    if o.eff.Drop? { S.ReceiveDrops(n.a, p, s); }
    if p == Close(x) {
      assert o.state == Error || (o.eff == Drop(x) && o.events == [ChannelClose(n.a.chans[x].localId)]);
    }
    hide ReceiveOutcome, NoteReceive;
  }

  /** Ids are not used again. */
  lemma GoneStays(n: Net, x: u32, s: Sink)
    requires x !in n.a.chans && x < n.a.next && n.a.next + Opens(n.ba) <= U32
    ensures var n' := DeliverA(n, s); x !in n'.a.chans && x < n'.a.next && n'.a.next + Opens(n'.ba) <= U32
  {
    if n.ba != [] { ReceiveShape(n.a, n.ba[0], s); }
    hide ReceiveOutcome, NoteReceive;
  }

  lemma StoppedStays(n: Net, s: Sink, k: nat)
    requires Stopped(n.a)
    ensures Drain(n, s, k) == n
  {
  }

  lemma {:induction false} GoneRun(n: Net, x: u32, s: Sink, k: nat, log: seq<Event>)
    requires x !in n.a.chans && x < n.a.next && n.a.next + Opens(n.ba) <= U32 && ToldSince(log, n.ha.log, ChannelClose(x))
    ensures Parted(Drain(n, s, k), x, log)
    decreases k
  {
    if k > 0 {
      var n' := DeliverA(n, s);
      GoneStays(n, x, s);
      LogGrows(n, s);
      hide DeliverA;
      ToldLater(log, n.ha.log, n'.ha.log, ChannelClose(x));
      GoneRun(n', x, s, k - 1, log);
    }
  }

  lemma {:induction false} PartingRun(n: Net, x: u32, s: Sink, k: nat, log: seq<Event>)
    requires Parting(n, x) && |n.ba| <= k && log <= n.ha.log
    ensures Parted(Drain(n, s, k), x, log)
    decreases k
  {
    hide DeliverA, ToldSince;
    assert k > 0 && x in n.a.chans;
    hide Parting;
    if Stopped(n.a) {
      StoppedStays(n, s, k);
    } else {
      var n' := DeliverA(n, s);
      PartingStep(n, x, s);
      LogGrows(n, s);
      if Stopped(n'.a) {
        StoppedStays(n', s, k - 1);
      } else if Parting(n', x) && |n'.ba| < |n.ba| {
        PartingRun(n', x, s, k - 1, log);
      } else {
        ToldNow(log, n.ha.log, ChannelClose(x));
        GoneRun(n', x, s, k - 1, log);
      }
    }
  }

  /** The call itself: the slot is gone, and CLOSE is last on the link. */
  lemma ClosesLast(n: Net, k: u32, t: Sink)
    requires k in n.b.chans && n.b.chans[k].state == Opened && n.b.chans[k].havePeer && (n.b.state == Ready || n.b.state == Draining)
    requires Roomy(n.b, t, 5)
    ensures var n' := Step(n, MoveB(ActCall(CallClose(k), t)));
      n'.a == n.a && n'.ha == n.ha && n'.ba == n.ba + [Close(n.b.chans[k].peerId)] && n'.b == n.b.(chans := n.b.chans - {k})
  {
  }

  /**
   * A side that closes an open channel, its CLOSE fitting, takes the other end
   * with it: once what is in flight is delivered, the peer has stopped, or its
   * end is gone and its host was told so - in every run, whatever else is in
   * flight.
   */
  lemma CloseReachesThePeer(n: Net, k: u32, s: Sink, t: Sink)
    requires V.Reachable(n) && n.a.next + Opens(n.ba) <= U32
    requires k in n.b.chans && n.b.chans[k].state == Opened && (n.b.state == Ready || n.b.state == Draining) && Roomy(n.b, t, 5)
    requires n.b.chans[k].peerId in n.a.chans
    ensures var n' := Step(n, MoveB(ActCall(CallClose(k), t)));
      k !in n'.b.chans && Parted(Drain(n', s, |n'.ba|), n.b.chans[k].peerId, n.ha.log)
  {
    var x := n.b.chans[k].peerId;
    var n' := Step(n, MoveB(ActCall(CallClose(k), t)));
    ReachedEnds(n, k, x);
    ClosesLast(n, k, t);
    OpensMore(n.ba, [Close(x)]);
    hide Step, V.Reachable;
    assert Parting(n', x);
    PartingRun(n', x, s, |n'.ba|, n.ha.log);
  }

  /** What agreement says of an open channel of B and the end it names. */
  lemma ReachedEnds(n: Net, k: u32, x: u32)
    requires V.Reachable(n) && k in n.b.chans && n.b.chans[k].state == Opened && n.b.chans[k].peerId == x && x in n.a.chans
    ensures n.b.chans[k].havePeer && n.a.chans[x].localId == x && x < n.a.next
    ensures forall i :: 0 <= i < |n.ba| && n.ba[i].OpenFail? ==> n.ba[i].recipient != x
  {
    V.ReachableIsLawful(n);
    V.ReachableIsRefused(Flip(n));
    hide V.Reachable;
    assert Named(n) && Named(Flip(n)) && Placed(Flip(n), k);
    forall i | 0 <= i < |n.ba| && n.ba[i].OpenFail? ensures n.ba[i].recipient != x {
      assert F.Turned(Flip(n), n.ba[i].recipient);
    }
  }

  // ------------------------------------------------------------------
  // DISCONNECT
  // ------------------------------------------------------------------

  lemma {:induction false} RunOrderly(n: Net, moves: seq<Move>)
    requires X.Orderly(n) && X.Orderly(Flip(n))
    ensures X.Orderly(Run(n, moves)) && X.Orderly(Flip(Run(n, moves)))
    decreases |moves|
  {
    hide Step, X.Orderly;
    if moves != [] {
      X.StepOrderly(n, moves[0]);
      RunOrderly(Step(n, moves[0]), moves[1..]);
    }
  }

  /** A side that is READY has not said goodbye. */
  lemma NoGoodbyeYet(n: Net)
    requires V.Reachable(n) && n.b.state == Ready
    ensures forall i :: 0 <= i < |n.ba| ==> !n.ba[i].Disconnect?
  {
    var d, moves :| S.Begins(d) && V.Leads(d, moves, n);
    assert X.Orderly(d) && X.Orderly(Flip(d));
    RunOrderly(d, moves);
    assert Flip(Flip(n)) == n;
    hide Run, S.Begins;
  }

  /** Only the last PDU on the link to A is a DISCONNECT. */
  predicate Leaving(n: Net, reason: u32) {
    && n.ba != [] && n.ba[|n.ba| - 1].Disconnect? && n.ba[|n.ba| - 1].reason == reason
    && forall i :: 0 <= i < |n.ba| - 1 ==> !n.ba[i].Disconnect?
  }

  lemma LeavingStep(n: Net, reason: u32, s: Sink)
    requires Leaving(n, reason) && !Stopped(n.a)
    ensures var n' := DeliverA(n, s);
      || n'.a.state == Error
      || (|n'.ba| < |n.ba| && n'.a.state != Closed && Leaving(n', reason))
      || (n'.a.state == Closed && n'.ha.log == n.ha.log + [Disconnected(reason)])
  {
    OnlyGoodbyeCloses(n.a, n.ba[0], s);
    if n.ba[0].Disconnect? {
      assert ReceiveOutcome(n.a, n.ba[0], s).state == Error || ReceiveOutcome(n.a, n.ba[0], s).events == [Disconnected(n.ba[0].reason)];
    }
    hide ReceiveOutcome, NoteReceive, Apply;
    S.ApplyParts(n.a, ReceiveOutcome(n.a, n.ba[0], s));
  }

  predicate Departed(n: Net, reason: u32, log: seq<Event>) {
    n.a.state == Error || (n.a.state == Closed && ToldSince(log, n.ha.log, Disconnected(reason)))
  }

  lemma {:induction false} LeavingRun(n: Net, reason: u32, s: Sink, k: nat, log: seq<Event>)
    requires Leaving(n, reason) && n.a.state != Closed && |n.ba| <= k && log <= n.ha.log
    ensures Departed(Drain(n, s, k), reason, log)
    decreases k
  {
    hide DeliverA, ToldSince;
    assert k > 0;
    hide Leaving;
    if n.a.state == Error {
      StoppedStays(n, s, k);
    } else {
      var n' := DeliverA(n, s);
      LeavingStep(n, reason, s);
      LogGrows(n, s);
      if Stopped(n'.a) {
        StoppedStays(n', s, k - 1);
        ToldNow(log, n.ha.log, Disconnected(reason));
      } else {
        LeavingRun(n', reason, s, k - 1, log);
      }
    }
  }

  /**
   * A READY side that disconnects, its DISCONNECT fitting, is DRAINING, and
   * once what is in flight is delivered the peer is CLOSED and its host was
   * told why - unless it had stopped, or failed on something before.
   */
  lemma DisconnectReachesThePeer(n: Net, reason: u32, msg: bytes, s: Sink, t: Sink)
    requires V.Reachable(n) && n.b.state == Ready && n.a.state != Closed && Roomy(n.b, t, 6 + Min(|msg|, 64))
    ensures var n' := Step(n, MoveB(ActCall(CallDisconnect(reason, msg), t)));
      n'.b.state == Draining && Departed(Drain(n', s, |n'.ba|), reason, n.ha.log)
  {
    var n' := Step(n, MoveB(ActCall(CallDisconnect(reason, msg), t)));
    NoGoodbyeYet(n);
    hide V.Reachable;
    assert n'.ba == n.ba + [Disconnect(reason, msg[..Min(|msg|, 64)])];
    assert Leaving(n', reason);
    hide Step, Leaving;
    LeavingRun(n', reason, s, |n'.ba|, n.ha.log);
  }
}
