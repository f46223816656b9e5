/**
 * The terms a host is told with a channel are the ones in force: the window
 * and packet limit the peer is configured with, or, for a channel the host
 * accepted, its own.
 */
module NetAnnounce {
  import opened Base
  import opened Mux
  import opened Net
  import opened NetBinding
  import opened NetTerms
  import S = NetSafety

  /** What B has on its way to A announces B's configuration. */
  predicate Announces(n: Net) {
    && (forall i :: 0 <= i < |n.ba| && n.ba[i].Open? ==>
          n.ba[i].initWindow == n.b.cfg.initialWindow && n.ba[i].maxPacket == n.b.cfg.maxPacket)
    && (forall i :: 0 <= i < |n.ba| && n.ba[i].Confirm? ==>
          n.ba[i].initWindow == n.b.cfg.initialWindow && n.ba[i].maxPacket == n.b.cfg.maxPacket)
  }

  /**
   * The terms of an event for a side configured as own, whose peer is
   * configured as other, that offered these channels itself: the peer's, save
   * that accepting a channel announces one's own.
   */
  predicate OnTerms(e: Event, own: Config, other: Config, offered: set<u32>) {
    && (e.ChannelOpen? ==> e.initWindow == other.initialWindow && e.maxPacket == PacketLimit(own, other))
    && (e.ChannelOpened? ==>
          if e.id in offered then e.initWindow == other.initialWindow && e.maxPacket == PacketLimit(own, other)
          else e.initWindow == own.initialWindow && e.maxPacket == own.maxPacket)
  }

  predicate AllOnTerms(n: Net) {
    forall i :: 0 <= i < |n.ha.log| ==> OnTerms(n.ha.log[i], n.a.cfg, n.b.cfg, n.ha.offered)
  }

  lemma CallAnnounces(p: Peer, c: Call, s: Sink)
    ensures var o := CallOutcome(p, c, s);
      && (forall i :: 0 <= i < |o.push| && o.push[i].Open? ==>
            o.push[i].initWindow == p.cfg.initialWindow && o.push[i].maxPacket == p.cfg.maxPacket)
      && (forall i :: 0 <= i < |o.push| && o.push[i].Confirm? ==>
            o.push[i].initWindow == p.cfg.initialWindow && o.push[i].maxPacket == p.cfg.maxPacket)
      && (forall i :: 0 <= i < |o.events| ==>
            && o.events[i].ChannelOpened? && CallTarget(c).Some? && CallTarget(c).value in p.chans && p.chans[CallTarget(c).value].state == Pending
            && o.events[i].id == p.chans[CallTarget(c).value].localId
            && o.events[i].initWindow == p.cfg.initialWindow && o.events[i].maxPacket == p.cfg.maxPacket)
  {
    hide Segments, PushRc;
  }

  lemma ReceiveAnnounces(p: Peer, m: Pdu, s: Sink, other: Config)
    requires m.Open? || m.Confirm? ==> m.initWindow == other.initialWindow && m.maxPacket == other.maxPacket
    ensures var o := ReceiveOutcome(p, m, s);
      && (forall i :: 0 <= i < |o.push| ==> !o.push[i].Open? && !o.push[i].Confirm?)
      && (forall i :: 0 <= i < |o.events| && (o.events[i].ChannelOpen? || o.events[i].ChannelOpened?) ==>
            o.events[i].initWindow == other.initialWindow && o.events[i].maxPacket == PacketLimit(p.cfg, other))
      && (forall i :: 0 <= i < |o.events| && o.events[i].ChannelOpened? ==>
            m.Confirm? && m.recipient in p.chans && p.chans[m.recipient].state == Opening && o.events[i].id == p.chans[m.recipient].localId)
  {
    hide Segments, PushRc;
  }

  /** A pending channel was not offered; an opening one was. */
  lemma OfferedOrNot(n: Net, k: u32)
    requires Agreed(n) && k in n.a.chans
    ensures n.a.chans[k].localId == k
    ensures n.a.chans[k].state == Pending ==> k !in n.ha.offered
    ensures n.a.chans[k].state == Opening ==> k in n.ha.offered
  {
    assert Named(n) && Placed(n, k);
  }

  lemma CallOnTerms(n: Net, c: Call, s: Sink)
    requires Agreed(n) && Told(n.ha) && AllOnTerms(n) && IdsLeft(CallA(n, c, s))
    ensures AllOnTerms(CallA(n, c, s))
  {
    var n', o := CallA(n, c, s), CallOutcome(n.a, c, s);
    CallAnnounces(n.a, c, s);
    CallEventsFrom(n, c, s);
    CallNames(n.ha, n.a, c, o);
    CallLogs(n.ha, n.a, c, o);
    CallOffers(n, c, s);
    hide CallOutcome, NoteCall, Agreed;
    TermsMore(n, n', o.events);
  }

  /** Terms told stay true while offers are new, and more are told. */
  lemma TermsMore(n: Net, n': Net, e: seq<Event>)
    requires Told(n.ha) && AllOnTerms(n) && n'.ha.log == n.ha.log + e && n'.a.cfg == n.a.cfg && n'.b.cfg == n.b.cfg
    requires forall k :: k in n.ha.bind ==> (k in n'.ha.offered <==> k in n.ha.offered)
    requires forall i :: 0 <= i < |e| ==> OnTerms(e[i], n.a.cfg, n.b.cfg, n'.ha.offered)
    ensures AllOnTerms(n')
  {
    forall i | 0 <= i < |n'.ha.log| ensures OnTerms(n'.ha.log[i], n'.a.cfg, n'.b.cfg, n'.ha.offered) {
      if i < |n.ha.log| { assert OnTerms(n.ha.log[i], n.a.cfg, n.b.cfg, n.ha.offered) && Truthful(n.ha.log[i], n.ha.bind); }
    }
  }

  /** What a call tells is of a channel that was not offered. */
  lemma CallEventsFrom(n: Net, c: Call, s: Sink)
    requires Agreed(n)
    ensures var o := CallOutcome(n.a, c, s);
      forall i :: 0 <= i < |o.events| ==> o.events[i].ChannelOpened? && o.events[i].id !in n.ha.offered && o.events[i].id in n.ha.bind
  {
    CallAnnounces(n.a, c, s);
    hide CallOutcome, Agreed;
    if CallOutcome(n.a, c, s).events != [] && CallTarget(c).Some? && CallTarget(c).value in n.a.chans {
      OfferedOrNot(n, CallTarget(c).value);
      if n.a.chans[CallTarget(c).value].state == Pending { PendingFacts(n, CallTarget(c).value); }
    }
  }

  /** A newly offered id has not been told of. */
  lemma CallOffers(n: Net, c: Call, s: Sink)
    requires Agreed(n) && IdsLeft(CallA(n, c, s))
    ensures var h := CallA(n, c, s).ha; h.offered == n.ha.offered || (h.offered == n.ha.offered + {NextId(n.a)} && NextId(n.a) !in n.ha.bind)
  {
    var o := CallOutcome(n.a, c, s);
    OpenAdds(n.a, c, s);
    hide CallOutcome, Agreed;
    if c.CallOpen? && o.rc == Ok { NextIsUnknown(n); }
  }

  lemma OpenAdds(p: Peer, c: Call, s: Sink)
    ensures c.CallOpen? && CallOutcome(p, c, s).rc == Ok ==> CallOutcome(p, c, s).eff.Add?
  {
    hide Segments, PushRc;
  }

  lemma CallStepAnnounces(n: Net, c: Call, s: Sink)
    requires Announces(n) && Announces(Flip(n))
    ensures Announces(CallA(n, c, s)) && Announces(Flip(CallA(n, c, s)))
  {
    CallAnnounces(n.a, c, s);
    hide CallOutcome, NoteCall;
  }

  lemma DeliverStepAnnounces(n: Net, s: Sink)
    requires Announces(n) && Announces(Flip(n)) && n.ba != [] && n.a.state != Error && n.a.state != Closed
    ensures Announces(DeliverA(n, s)) && Announces(Flip(DeliverA(n, s)))
  {
    ReceiveAnnounces(n.a, n.ba[0], s, n.b.cfg);
    hide ReceiveOutcome, NoteReceive;
  }

  lemma DeliverOnTerms(n: Net, s: Sink)
    requires Agreed(n) && Told(n.ha) && AllOnTerms(n) && Announces(n) && n.ba != [] && n.a.state != Error && n.a.state != Closed
    ensures AllOnTerms(DeliverA(n, s))
  {
    var m, o, n' := n.ba[0], ReceiveOutcome(n.a, n.ba[0], s), DeliverA(n, s);
    ReceiveAnnounces(n.a, m, s, n.b.cfg);
    hide ReceiveOutcome;
    if m.Confirm? && m.recipient in n.a.chans { OfferedOrNot(n, m.recipient); }
    hide Agreed, Told;
    assert n'.ha.log == n.ha.log + o.events && n'.ha.offered == n.ha.offered;
    TermsMore(n, n', o.events);
  }

  /** Everything the terms rest on, in both directions. */
  ghost predicate InForce(n: Net) {
    && Agreed(n) && Told(n.ha) && Told(n.hb) && Recorded(n.ha) && Recorded(n.hb)
    && Announces(n) && Announces(Flip(n)) && AllOnTerms(n) && AllOnTerms(Flip(n))
  }

  lemma OthersTerms(n: Net, n': Net)
    requires AllOnTerms(Flip(n)) && n'.b == n.b && n'.hb == n.hb && n'.a.cfg == n.a.cfg
    ensures AllOnTerms(Flip(n'))
  {
  }

  lemma ActKeepsB(n: Net, act: Act)
    ensures var n' := ActA(n, act); n'.b == n.b && n'.hb == n.hb && n'.a.cfg == n.a.cfg
  {
    hide CallOutcome, ReceiveOutcome, NoteCall, NoteReceive;
  }

  lemma ActInForce(n: Net, act: Act)
    requires InForce(n) && IdsLeft(ActA(n, act))
    ensures var n' := ActA(n, act); Announces(n') && Announces(Flip(n')) && AllOnTerms(n') && AllOnTerms(Flip(n'))
  {
    ActKeepsB(n, act);
    OthersTerms(n, ActA(n, act));
    hide Agreed, Told, Recorded, Announces, AllOnTerms, CallA, CallOutcome, ReceiveOutcome, NoteReceive;
    match act {
      case ActCall(c, s) => CallStepAnnounces(n, c, s); CallOnTerms(n, c, s);
      case ActDeliver(s) =>
        if n.ba != [] && n.a.state != Error && n.a.state != Closed { DeliverStepAnnounces(n, s); DeliverOnTerms(n, s); }
    }
  }

  lemma StepInForce(n: Net, m: Move)
    requires InForce(n) && IdsLeft(Step(n, m))
    ensures InForce(Step(n, m))
  {
    StepKeeps(n, m);
    StepTells(n, m);
    FlipAgreed(n);
    FlipTwice(n);
    hide Agreed, Told, Recorded, Announces, AllOnTerms, ActA;
    match m {
      case MoveA(act) => ActInForce(n, act);
      case MoveB(act) => ActInForce(Flip(n), act); FlipTwice(ActA(Flip(n), act));
    }
  }

  lemma {:induction false} RunInForce(n: Net, moves: seq<Move>)
    requires InForce(n) && IdsLeft(Run(n, moves))
    ensures InForce(Run(n, moves))
    decreases |moves|
  {
    hide Step, InForce;
    if moves != [] {
      IdsOnlyGrow(Step(n, moves[0]), moves[1..]);
      StepInForce(n, moves[0]);
      RunInForce(Step(n, moves[0]), moves[1..]);
    }
  }

  /**
   * In every run, each host is told the terms in force: with a channel it is
   * offered, and with one of its own that is accepted, the peer's configured
   * window and packet limit (or its own limit where the peer has none); with
   * one it accepts, its own.
   */
  lemma HostsAreToldTheTerms(n: Net, moves: seq<Move>, i: nat)
    requires S.Begins(n) && IdsLeft(Run(n, moves))
    ensures var d := Run(n, moves);
      && (i < |d.ha.log| ==> OnTerms(d.ha.log[i], d.a.cfg, d.b.cfg, d.ha.offered))
      && (i < |d.hb.log| ==> OnTerms(d.hb.log[i], d.b.cfg, d.a.cfg, d.hb.offered))
  {
    S.BeginLawful(n);
    assert InForce(n) by { hide Agreed; }
    hide S.Begins, InForce, Run;
    RunInForce(n, moves);
    TermsOf(Run(n, moves), i);
  }

  lemma TermsOf(d: Net, i: nat)
    requires InForce(d)
    ensures i < |d.ha.log| ==> OnTerms(d.ha.log[i], d.a.cfg, d.b.cfg, d.ha.offered)
    ensures i < |d.hb.log| ==> OnTerms(d.hb.log[i], d.b.cfg, d.a.cfg, d.hb.offered)
  {
    hide Agreed, Told, Recorded, Announces;
  }
}
