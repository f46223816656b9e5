/**
 * The terms a channel was opened on: both ends know it by one name, no chunk
 * is longer than its receiver announced it would take, and the host is told
 * the true peer of every channel.
 */
module NetTerms {
  import opened Base
  import opened Mux
  import opened Net
  import opened NetBinding
  import opened NetLaws
  import S = NetSafety

  // ------------------------------------------------------------------
  // Packet limits
  // ------------------------------------------------------------------

  /** The longest chunk a may send to b: b's announcement, or a's own default for none. */
  function PacketLimit(a: Config, b: Config): u32 {
    if b.maxPacket != 0 then b.maxPacket else a.maxPacket
  }

  predicate Sending(ch: Channel) {
    ch.state == Opened || ch.state == Pending
  }

  /** Direction A to B: what B announces, what A keeps of it, what is on the way. */
  predicate Limited(n: Net) {
    var limit := PacketLimit(n.a.cfg, n.b.cfg);
    && (forall i :: 0 <= i < |n.ba| && n.ba[i].Open? ==> n.ba[i].maxPacket == n.b.cfg.maxPacket)
    && (forall i :: 0 <= i < |n.ba| && n.ba[i].Confirm? ==> n.ba[i].maxPacket == n.b.cfg.maxPacket)
    && (forall k :: k in n.a.chans && Sending(n.a.chans[k]) ==> n.a.chans[k].maxPacket == limit)
    && (forall i :: 0 <= i < |n.ab| && n.ab[i].Data? ==> |n.ab[i].data| <= limit)
  }

  lemma CallTerms(p: Peer, c: Call, s: Sink)
    ensures var o := CallOutcome(p, c, s);
      && (forall i :: 0 <= i < |o.push| && o.push[i].Open? ==> o.push[i].maxPacket == p.cfg.maxPacket)
      && (forall i :: 0 <= i < |o.push| && o.push[i].Confirm? ==> o.push[i].maxPacket == p.cfg.maxPacket)
      && (forall i :: 0 <= i < |o.push| && o.push[i].Data? ==>
            CallTarget(c).Some? && CallTarget(c).value in p.chans && Sending(p.chans[CallTarget(c).value])
            && |o.push[i].data| <= p.chans[CallTarget(c).value].maxPacket)
      && (o.eff.Put? ==> o.eff.id in p.chans && o.eff.ch.maxPacket == p.chans[o.eff.id].maxPacket
                         && Sending(o.eff.ch) == Sending(p.chans[o.eff.id]))
      && (o.eff.Add? ==> !Sending(o.eff.ch))
  {
    hide Segments, PushRc;
  }

  lemma ReceiveTerms(p: Peer, m: Pdu, s: Sink)
    ensures var o := ReceiveOutcome(p, m, s);
      && (forall i :: 0 <= i < |o.push| ==> !o.push[i].Open? && !o.push[i].Confirm? && !o.push[i].Data?)
      && (o.eff.Put? ==> o.eff.id in p.chans)
      && (o.eff.Put? && m.Confirm? ==> o.eff.ch.maxPacket == (if m.maxPacket != 0 then m.maxPacket else p.cfg.maxPacket))
      && (o.eff.Put? && !m.Confirm? ==>
            o.eff.ch.maxPacket == p.chans[o.eff.id].maxPacket && Sending(o.eff.ch) == Sending(p.chans[o.eff.id]))
      && (o.eff.Add? ==> m.Open? && o.eff.ch.maxPacket == (if m.maxPacket != 0 then m.maxPacket else p.cfg.maxPacket))
  {
    hide Segments, PushRc;
  }

  lemma CallLimited(n: Net, c: Call, s: Sink)
    requires Limited(n) && Limited(Flip(n))
    ensures Limited(CallA(n, c, s)) && Limited(Flip(CallA(n, c, s)))
  {
    CallTerms(n.a, c, s);
    hide CallOutcome, NoteCall;
  }

  /** What A may send. */
  lemma DeliverLimitedOut(n: Net, s: Sink)
    requires Limited(n)
    ensures Limited(DeliverA(n, s))
  {
    if n.ba != [] {
      ReceiveTerms(n.a, n.ba[0], s);
      hide ReceiveOutcome, NoteReceive;
      var n' := DeliverA(n, s);
      assert forall i :: 0 <= i < |n'.ba| ==> n'.ba[i] in n.ba;
    }
  }

  /** What B may send. */
  lemma DeliverLimitedIn(n: Net, s: Sink)
    requires Limited(Flip(n))
    ensures Limited(Flip(DeliverA(n, s)))
  {
    if n.ba != [] {
      ReceiveTerms(n.a, n.ba[0], s);
      hide ReceiveOutcome, NoteReceive;
      var n' := DeliverA(n, s);
      assert forall i :: 0 <= i < |n'.ba| ==> n'.ba[i] in n.ba;
    }
  }

  lemma {:induction false} RunLimited(n: Net, moves: seq<Move>)
    requires Limited(n) && Limited(Flip(n))
    ensures Limited(Run(n, moves)) && Limited(Flip(Run(n, moves)))
    decreases |moves|
  {
    hide CallA, DeliverA, Limited;
    assert Flip(Flip(n)) == n;
    if moves != [] {
      match moves[0] {
        case MoveA(ActCall(c, s)) => CallLimited(n, c, s);
        case MoveA(ActDeliver(s)) => DeliverLimitedOut(n, s); DeliverLimitedIn(n, s);
        case MoveB(ActCall(c, s)) => CallLimited(Flip(n), c, s); assert Flip(Flip(CallA(Flip(n), c, s))) == CallA(Flip(n), c, s);
        case MoveB(ActDeliver(s)) =>
          DeliverLimitedOut(Flip(n), s);
          DeliverLimitedIn(Flip(n), s);
          assert Flip(Flip(DeliverA(Flip(n), s))) == DeliverA(Flip(n), s);
      }
      RunLimited(Step(n, moves[0]), moves[1..]);
    }
  }

  /** In every run no chunk in flight, from either side, is longer than its receiver announced. */
  lemma PacketsFit(n: Net, moves: seq<Move>, i: nat)
    requires S.Begins(n)
    ensures var d := Run(n, moves);
      && (i < |d.ab| && d.ab[i].Data? ==> |d.ab[i].data| <= PacketLimit(d.a.cfg, d.b.cfg))
      && (i < |d.ba| && d.ba[i].Data? ==> |d.ba[i].data| <= PacketLimit(d.b.cfg, d.a.cfg))
  {
    RunLimited(n, moves);
    hide Run;
  }

  // ------------------------------------------------------------------
  // Names
  // ------------------------------------------------------------------

  /** Direction A to B: an OPEN on its way carries its channel's name. */
  predicate Asked(n: Net) {
    && (forall i :: 0 <= i < |n.ab| && n.ab[i].Open? ==> 0 !in n.ab[i].name)
    && (forall i :: 0 <= i < |n.ab| && n.ab[i].Open? && n.ab[i].sender in n.a.chans ==> n.ab[i].name == n.a.chans[n.ab[i].sender].name)
  }

  /** The live ends of a pair, as A knows it, share a name. */
  ghost predicate Shared(n: Net) {
    forall k :: k in n.a.chans && k in n.ha.bind && n.ha.bind[k] in n.b.chans ==> n.b.chans[n.ha.bind[k]].name == n.a.chans[k].name
  }

  /** A segment has no byte its list has not. */
  lemma {:induction false} SegmentsWithin(acc: bytes, list: bytes, x: byte)
    requires x !in acc && x !in list
    ensures forall seg :: seg in SegmentsFrom(acc, list) ==> x !in seg
    decreases |list|
  {
    if list != [] {
      if list[0] == COMMA { SegmentsWithin([], list[1..], x); } else { SegmentsWithin(acc + [list[0]], list[1..], x); }
    }
  }

  lemma CallNamesChannel(p: Peer, c: Call, s: Sink)
    requires 0 !in p.cfg.allowed
    ensures var o := CallOutcome(p, c, s);
      && (o.eff.Put? ==> o.eff.id in p.chans && o.eff.ch.name == p.chans[o.eff.id].name)
      && (o.eff.Add? ==> c.CallOpen? && o.push == [Open(NextId(p), p.cfg.initialWindow, p.cfg.maxPacket, o.eff.ch.name)] && 0 !in o.eff.ch.name)
      && (!o.eff.Add? ==> forall i :: 0 <= i < |o.push| ==> !o.push[i].Open?)
  {
    SegmentsWithin([], p.cfg.allowed, 0);
    hide SegmentsFrom, PushRc;
  }

  lemma ReceiveNamesChannel(p: Peer, m: Pdu, s: Sink)
    ensures var o := ReceiveOutcome(p, m, s);
      && (o.eff.Put? ==> o.eff.id in p.chans && o.eff.ch.name == p.chans[o.eff.id].name)
      && (o.eff.Add? ==> m.Open? && (0 !in m.name ==> o.eff.ch.name == m.name))
      && (forall i :: 0 <= i < |o.push| ==> !o.push[i].Open?)
  {
    hide Segments, PushRc;
  }

  /** An id nothing refers to yet. */
  ghost predicate Unknown(n: Net, k: u32) {
    k !in n.ha.bind && k !in n.hb.bind.Values && k !in n.ha.offered
  }

  /** A's channels keep their names; at most an unknown id joins them. */
  ghost predicate KeepsNames(n: Net, n': Net) {
    forall k :: k in n'.a.chans ==> (k in n.a.chans && n'.a.chans[k].name == n.a.chans[k].name) || Unknown(n, k)
  }

  lemma AskedKept(n: Net, n': Net, p: seq<Pdu>)
    requires Asked(n) && Link(n) && KeepsNames(n, n') && n'.ab == n.ab + p
    requires forall i :: 0 <= i < |p| && p[i].Open? ==>
      0 !in p[i].name && (p[i].sender in n'.a.chans ==> p[i].name == n'.a.chans[p[i].sender].name)
    ensures Asked(n')
  {
    forall i | 0 <= i < |n'.ab| && n'.ab[i].Open? && n'.ab[i].sender in n'.a.chans
      ensures n'.ab[i].name == n'.a.chans[n'.ab[i].sender].name
    {
      if i < |n.ab| { assert Carried(n, i); }
    }
  }

  lemma SharedKept(n: Net, n': Net)
    requires Shared(n) && Shared(Flip(n)) && KeepsNames(n, n') && n'.b == n.b && n'.ha.bind == n.ha.bind && n'.hb == n.hb
    ensures Shared(n') && Shared(Flip(n'))
  {
    forall r | r in n.b.chans && r in n.hb.bind && n.hb.bind[r] in n'.a.chans
      ensures n'.a.chans[n.hb.bind[r]].name == n.b.chans[r].name
    {
      assert n.hb.bind[r] in n.hb.bind.Values;
    }
  }

  /** A's x becomes known as r's peer, under r's own name. */
  lemma SharedGrows(n: Net, n': Net, x: u32, r: u32)
    requires Shared(n) && Shared(Flip(n)) && KeepsNames(n, n') && n'.b == n.b && n'.ha.bind == n.ha.bind[x := r] && n'.hb == n.hb
    requires x in n'.a.chans && (r in n.b.chans ==> n.b.chans[r].name == n'.a.chans[x].name)
    ensures Shared(n') && Shared(Flip(n'))
  {
    forall r | r in n.b.chans && r in n.hb.bind && n.hb.bind[r] in n'.a.chans
      ensures n'.a.chans[n.hb.bind[r]].name == n.b.chans[r].name
    {
      assert n.hb.bind[r] in n.hb.bind.Values;
    }
  }

  /** Everything names depend on: agreement on ids, and names known in both directions. */
  ghost predicate Introduced(n: Net) {
    && Agreed(n) && Asked(n) && Asked(Flip(n)) && Shared(n) && Shared(Flip(n))
    && 0 !in n.a.cfg.allowed && 0 !in n.b.cfg.allowed
  }

  lemma NextIsUnknown(n: Net)
    requires Agreed(n) && n.a.next < U32
    ensures Unknown(n, NextId(n.a)) && NextId(n.a) !in n.a.chans
  {
    hide Agreed;
    FreshIsNobodysPeer(n, NextId(n.a));
  }

  lemma CallIntroduces(n: Net, c: Call, s: Sink)
    requires Introduced(n) && IdsLeft(CallA(n, c, s))
    ensures var n' := CallA(n, c, s); Asked(n') && Asked(Flip(n')) && Shared(n') && Shared(Flip(n'))
  {
    var n', o := CallA(n, c, s), CallOutcome(n.a, c, s);
    CallNamesChannel(n.a, c, s);
    CallNames(n.ha, n.a, c, o);
    assert Link(n);
    hide Agreed, Link, CallOutcome, NoteCall, Asked, Shared, Unknown;
    if o.eff.Add? { NextIsUnknown(n); }
    assert KeepsNames(n, n');
    AskedKept(n, n', o.push);
    SharedKept(n, n');
    assert Asked(Flip(n')) by { AskedSame(Flip(n), Flip(n')); }
  }

  lemma AskedSame(n: Net, n': Net)
    requires Asked(n) && n'.a == n.a && (n'.ab == n.ab || (n.ab != [] && n'.ab == n.ab[1..]))
    ensures Asked(n')
  {
  }

  lemma DeliverIntroduces(n: Net, s: Sink)
    requires Introduced(n) && IdsLeft(DeliverA(n, s)) && n.ba != [] && n.a.state != Error && n.a.state != Closed
    ensures var n' := DeliverA(n, s); Asked(n') && Asked(Flip(n')) && Shared(n') && Shared(Flip(n'))
  {
    var p, o, n' := n.ba[0], ReceiveOutcome(n.a, n.ba[0], s), DeliverA(n, s);
    ReceiveNamesChannel(n.a, p, s);
    assert Link(n);
    if p.Open? { assert 0 !in p.name && (p.sender in n.b.chans ==> p.name == n.b.chans[p.sender].name) by { assert Flip(n).ab[0] == p; } }
    hide Link, ReceiveOutcome, Asked, Unknown;
    if p.Confirm? { ConfirmIntroduces(n); }
    hide Agreed;
    if o.eff.Add? { NextIsUnknown(n); }
    assert KeepsNames(n, n');
    AskedKept(n, n', o.push);
    AskedSame(Flip(n), Flip(n'));
    DeliverShares(n, n', p, o);
  }

  lemma DeliverShares(n: Net, n': Net, p: Pdu, o: Outcome)
    requires Shared(n) && Shared(Flip(n)) && KeepsNames(n, n') && n'.b == n.b && n'.hb == n.hb && n'.a == Apply(n.a, o)
    requires n'.ha.bind == (if p.Open? && o.eff.Add? then n.ha.bind[NextId(n.a) := p.sender]
                            else if p.Confirm? && o.eff.Put? then n.ha.bind[p.recipient := p.sender] else n.ha.bind)
    requires p.Open? && o.eff.Add? ==> o.eff.ch.name == p.name && (p.sender in n.b.chans ==> p.name == n.b.chans[p.sender].name)
    requires p.Confirm? && o.eff.Put? ==>
      o.eff.id == p.recipient && p.recipient in n.a.chans && o.eff.ch.name == n.a.chans[p.recipient].name
      && p.sender in n.hb.bind && n.hb.bind[p.sender] == p.recipient
    ensures Shared(n') && Shared(Flip(n'))
  {
    if p.Open? && o.eff.Add? {
      SharedGrows(n, n', NextId(n.a), p.sender);
    } else if p.Confirm? && o.eff.Put? {
      assert p.sender in n.b.chans ==> n.b.chans[p.sender].name == n.a.chans[p.recipient].name;
      SharedGrows(n, n', p.recipient, p.sender);
    } else {
      SharedKept(n, n');
    }
  }

  /** The peer a CONFIRM names is bound to the channel it confirms. */
  lemma ConfirmIntroduces(n: Net)
    requires Agreed(n) && n.ba != [] && n.ba[0].Confirm?
    ensures n.ba[0].sender in n.hb.bind && n.hb.bind[n.ba[0].sender] == n.ba[0].recipient
  {
    assert Carried(Flip(n), 0);
  }

  lemma StepIntroduces(n: Net, m: Move)
    requires Introduced(n) && IdsLeft(Step(n, m))
    ensures Introduced(Step(n, m))
  {
    StepKeeps(n, m);
    StepConfigs(n, m);
    var f := Flip(n);
    assert Flip(f) == n;
    FlipAgreed(n);
    hide Agreed, Asked, Shared, CallA, DeliverA;
    match m {
      case MoveA(ActCall(c, s)) => CallIntroduces(n, c, s);
      case MoveB(ActCall(c, s)) => CallIntroduces(f, c, s); FlipTwice(CallA(f, c, s));
      case MoveA(ActDeliver(s)) =>
        if n.ba != [] && n.a.state != Error && n.a.state != Closed { DeliverIntroduces(n, s); } else { NoDelivery(n, s); }
      case MoveB(ActDeliver(s)) =>
        if f.ba != [] && f.a.state != Error && f.a.state != Closed { DeliverIntroduces(f, s); } else { NoDelivery(f, s); }
        FlipTwice(DeliverA(f, s));
    }
  }

  lemma NoDelivery(n: Net, s: Sink)
    requires n.ba == [] || n.a.state == Error || n.a.state == Closed
    ensures DeliverA(n, s) == n
  {
  }

  lemma FlipTwice(n: Net)
    ensures Flip(Flip(n)) == n
  {
  }

  lemma StepConfigs(n: Net, m: Move)
    ensures Step(n, m).a.cfg == n.a.cfg && Step(n, m).b.cfg == n.b.cfg
  {
    hide CallOutcome, ReceiveOutcome, NoteCall, NoteReceive;
  }

  lemma {:induction false} RunIntroduces(n: Net, moves: seq<Move>)
    requires Introduced(n) && IdsLeft(Run(n, moves))
    ensures Introduced(Run(n, moves))
    decreases |moves|
  {
    hide Step, Introduced;
    if moves != [] {
      IdsOnlyGrow(Step(n, moves[0]), moves[1..]);
      StepIntroduces(n, moves[0]);
      RunIntroduces(Step(n, moves[0]), moves[1..]);
    }
  }

  /** In every run, the two live ends of a channel have one name. */
  lemma EndsShareName(n: Net, moves: seq<Move>, d: Net, k: u32, r: u32)
    requires S.Begins(n) && d == Run(n, moves) && IdsLeft(d) && 0 !in n.a.cfg.allowed && 0 !in n.b.cfg.allowed
    requires Pairs(d, k, r) && k in d.a.chans && r in d.b.chans
    ensures d.a.chans[k].name == d.b.chans[r].name
  {
    S.BeginLawful(n);
    assert Introduced(n);
    hide S.Begins, Introduced, Run;
    RunIntroduces(n, moves);
    NamesOf(d, k, r);
  }

  lemma NamesOf(d: Net, k: u32, r: u32)
    requires Introduced(d) && Pairs(d, k, r) && k in d.a.chans && r in d.b.chans
    ensures d.a.chans[k].name == d.b.chans[r].name
  {
    hide Agreed, Asked;
  }

  // ------------------------------------------------------------------
  // What the host is told
  // ------------------------------------------------------------------

  /** The event names a channel and the peer it is paired with. */
  predicate Truthful(e: Event, bind: map<u32, u32>) {
    && (e.ChannelOpen? ==> e.id in bind && bind[e.id] == e.peer)
    && (e.ChannelOpened? ==> e.id in bind && bind[e.id] == e.peer)
  }

  predicate Told(h: Hist) {
    forall i :: 0 <= i < |h.log| ==> Truthful(h.log[i], h.bind)
  }

  /** The event gives the host the peer r of its channel k. */
  predicate Introduces(e: Event, k: u32, r: u32) {
    (e.ChannelOpen? || e.ChannelOpened?) && e.id == k && e.peer == r
  }

  predicate PeerTold(log: seq<Event>, k: u32, r: u32) {
    exists i :: 0 <= i < |log| && Introduces(log[i], k, r)
  }

  /** Every pairing has been told. */
  predicate Recorded(h: Hist) {
    forall k :: k in h.bind ==> PeerTold(h.log, k, h.bind[k])
  }

  lemma PeerToldMore(log: seq<Event>, e: seq<Event>, k: u32, r: u32)
    requires PeerTold(log, k, r) || PeerTold(e, k, r)
    ensures PeerTold(log + e, k, r)
  {
    if PeerTold(log, k, r) {
      var i :| 0 <= i < |log| && Introduces(log[i], k, r);
      assert Introduces((log + e)[i], k, r);
    } else {
      var i :| 0 <= i < |e| && Introduces(e[i], k, r);
      assert Introduces((log + e)[|log| + i], k, r);
    }
  }

  lemma RecordedMore(h: Hist, h': Hist, e: seq<Event>)
    requires Recorded(h) && h'.log == h.log + e
    requires forall k :: k in h'.bind ==> (k in h.bind && h'.bind[k] == h.bind[k]) || PeerTold(e, k, h'.bind[k])
    ensures Recorded(h')
  {
    hide PeerTold;
    forall k | k in h'.bind ensures PeerTold(h'.log, k, h'.bind[k]) { PeerToldMore(h.log, e, k, h'.bind[k]); }
  }

  lemma ToldMore(h: Hist, h': Hist, e: seq<Event>)
    requires Told(h) && h'.log == h.log + e && (forall k :: k in h.bind ==> k in h'.bind && h'.bind[k] == h.bind[k])
    requires forall i :: 0 <= i < |e| ==> Truthful(e[i], h'.bind)
    ensures Told(h')
  {
  }

  lemma CallTells(n: Net, c: Call, s: Sink)
    requires Agreed(n) && Told(n.ha) && Recorded(n.ha)
    ensures Told(CallA(n, c, s).ha) && Recorded(CallA(n, c, s).ha)
  {
    var o := CallOutcome(n.a, c, s);
    CallNames(n.ha, n.a, c, o);
    CallEvents(n.a, c, s);
    forall i | 0 <= i < |o.events| ensures Truthful(o.events[i], n.ha.bind) {
      if o.events[i].ChannelOpened? { PendingFacts(n, CallTarget(c).value); }
    }
    hide Agreed, CallOutcome, NoteCall;
    CallLogs(n.ha, n.a, c, o);
    ToldMore(n.ha, CallA(n, c, s).ha, o.events);
    RecordedMore(n.ha, CallA(n, c, s).ha, o.events);
  }

  lemma CallLogs(h: Hist, p: Peer, c: Call, o: Outcome)
    ensures NoteCall(h, p, c, o).log == h.log + o.events
  {
  }

  /** A pending channel is paired with the peer it stores, under its own id. */
  lemma PendingFacts(n: Net, k: u32)
    requires Agreed(n) && k in n.a.chans && n.a.chans[k].state == Pending
    ensures n.a.chans[k].localId == k && k in n.ha.bind && n.ha.bind[k] == n.a.chans[k].peerId
  {
    assert Named(n) && Placed(n, k);
  }

  lemma CallEvents(p: Peer, c: Call, s: Sink)
    ensures var o := CallOutcome(p, c, s);
      forall i :: 0 <= i < |o.events| ==>
        && !o.events[i].ChannelOpen?
        && (o.events[i].ChannelOpened? ==>
              CallTarget(c).Some? && CallTarget(c).value in p.chans && p.chans[CallTarget(c).value].state == Pending
              && o.events[i].id == p.chans[CallTarget(c).value].localId && o.events[i].peer == p.chans[CallTarget(c).value].peerId)
  {
    hide Segments, PushRc;
  }

  lemma ReceiveEvents(p: Peer, m: Pdu, s: Sink)
    ensures var o := ReceiveOutcome(p, m, s);
      forall i :: 0 <= i < |o.events| ==>
        && (o.events[i].ChannelOpen? ==> m.Open? && o.eff.Add? && o.events[i].id == NextId(p) && o.events[i].peer == m.sender)
        && (o.events[i].ChannelOpened? ==>
              m.Confirm? && o.eff.Put? && m.recipient in p.chans && p.chans[m.recipient].state == Opening
              && o.events[i].id == p.chans[m.recipient].localId && o.events[i].peer == m.sender)
  {
    hide Segments, PushRc;
  }

  /** A pairing is told as it is made. */
  lemma ReceiveIntroduces(p: Peer, m: Pdu, s: Sink)
    requires OwnIds(p)
    ensures var o := ReceiveOutcome(p, m, s);
      && (m.Open? && o.eff.Add? ==> PeerTold(o.events, NextId(p), m.sender))
      && (m.Confirm? && o.eff.Put? ==> PeerTold(o.events, m.recipient, m.sender))
  {
    hide Segments, PushRc;
    var o := ReceiveOutcome(p, m, s);
    if m.Open? && o.eff.Add? { assert Introduces(o.events[0], NextId(p), m.sender); }
    if m.Confirm? && o.eff.Put? { assert Introduces(o.events[0], m.recipient, m.sender); }
  }

  lemma ReceivePairs(p: Peer, m: Pdu, s: Sink)
    ensures var o := ReceiveOutcome(p, m, s);
      m.Confirm? && o.eff.Put? ==> m.recipient in p.chans && p.chans[m.recipient].state == Opening
  {
    hide Segments, PushRc;
  }

  /** An opening channel is paired with nobody yet. */
  lemma OpeningFacts(n: Net, k: u32)
    requires Agreed(n) && k in n.a.chans && n.a.chans[k].state == Opening
    ensures n.a.chans[k].localId == k && k !in n.ha.bind
  {
    assert Named(n) && Placed(n, k);
  }

  lemma DeliverTells(n: Net, s: Sink)
    requires Agreed(n) && Told(n.ha) && Recorded(n.ha)
    requires IdsLeft(DeliverA(n, s)) && n.ba != [] && n.a.state != Error && n.a.state != Closed
    ensures Told(DeliverA(n, s).ha) && Recorded(DeliverA(n, s).ha)
  {
    var p, o, h' := n.ba[0], ReceiveOutcome(n.a, n.ba[0], s), DeliverA(n, s).ha;
    ReceiveEvents(n.a, p, s);
    ReceivePairs(n.a, p, s);
    hide ReceiveOutcome;
    if p.Confirm? && o.eff.Put? { OpeningFacts(n, p.recipient); }
    if o.eff.Add? { NextIsUnknown(n); }
    hide Agreed;
    ToldMore(n.ha, h', o.events);
    hide Told, Truthful;
    ReceiveIntroduces(n.a, p, s);
    RecordedMore(n.ha, h', o.events);
  }

  lemma StepTells(n: Net, m: Move)
    requires Agreed(n) && Told(n.ha) && Told(n.hb) && Recorded(n.ha) && Recorded(n.hb) && IdsLeft(Step(n, m))
    ensures var n' := Step(n, m); Told(n'.ha) && Told(n'.hb) && Recorded(n'.ha) && Recorded(n'.hb)
  {
    var f := Flip(n);
    FlipAgreed(n);
    hide Agreed, Told, Recorded, CallOutcome, ReceiveOutcome, NoteCall, NoteReceive;
    match m {
      case MoveA(ActCall(c, s)) => CallTells(n, c, s);
      case MoveB(ActCall(c, s)) => CallTells(f, c, s);
      case MoveA(ActDeliver(s)) => if n.ba != [] && n.a.state != Error && n.a.state != Closed { DeliverTells(n, s); }
      case MoveB(ActDeliver(s)) => if f.ba != [] && f.a.state != Error && f.a.state != Closed { DeliverTells(f, s); }
    }
  }

  lemma {:induction false} RunTells(n: Net, moves: seq<Move>)
    requires Agreed(n) && Told(n.ha) && Told(n.hb) && Recorded(n.ha) && Recorded(n.hb) && IdsLeft(Run(n, moves))
    ensures var d := Run(n, moves); Told(d.ha) && Told(d.hb) && Recorded(d.ha) && Recorded(d.hb)
    decreases |moves|
  {
    hide Step, Agreed, Told, Recorded;
    if moves != [] {
      IdsOnlyGrow(Step(n, moves[0]), moves[1..]);
      StepKeeps(n, moves[0]);
      StepTells(n, moves[0]);
      RunTells(Step(n, moves[0]), moves[1..]);
    }
  }

  /**
   * In every run the host is told the truth and all of it: it has an event
   * that gives its channel k the peer r exactly when the two are paired.
   */
  lemma HostsAreToldTheTruth(n: Net, moves: seq<Move>, k: u32, r: u32)
    requires S.Begins(n) && IdsLeft(Run(n, moves))
    ensures var d := Run(n, moves);
      && (PeerTold(d.ha.log, k, r) <==> Pairs(d, k, r))
      && (PeerTold(d.hb.log, k, r) <==> Pairs(Flip(d), k, r))
  {
    S.BeginLawful(n);
    assert Told(n.ha) && Told(n.hb) && Recorded(n.ha) && Recorded(n.hb);
    hide S.Begins, Agreed, Run, PeerTold, Told, Recorded;
    RunTells(n, moves);
    PairsAreTold(Run(n, moves), k, r);
    PairsAreTold(Flip(Run(n, moves)), k, r);
  }

  lemma PairsAreTold(d: Net, k: u32, r: u32)
    requires Told(d.ha) && Recorded(d.ha)
    ensures PeerTold(d.ha.log, k, r) <==> Pairs(d, k, r)
  {
  }
}
