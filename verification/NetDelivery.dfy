/**
 * Ordered, isolated delivery, in every run: what the host is offered on a
 * channel, followed by what is still in flight to it, is exactly what the
 * paired channel sent; and nothing is delivered after the end of file.
 */
module NetDelivery {
  import opened Base
  import opened Mux
  import opened Net
  import opened NetBinding

  /** Direction A to B: sent = delivered ++ in flight, for every pair ever made. */
  ghost predicate Conserved(n: Net) {
    && (forall k :: k in n.ha.bind ==>
          SentOn(n.ha.sent, k) == GotOn(n.hb.log, n.ha.bind[k]) + DataTo(n.ab, n.ha.bind[k]))
    && (forall r :: r !in n.ha.bind.Values ==> GotOn(n.hb.log, r) == [])
    && (forall k :: k !in n.ha.bind ==> SentOn(n.ha.sent, k) == [])
  }

  /** The last PDU a sender may put on a channel. */
  predicate Last(p: Pdu) {
    p.Eof? || p.Close?
  }

  /** Channel r of B will get no more DATA from A. */
  ghost predicate Muted(n: Net, r: u32) {
    && r in n.ha.bind.Values
    && (forall k :: k in n.a.chans && k in n.ha.bind && n.ha.bind[k] == r ==> n.a.chans[k].localEof)
  }

  /** Direction A to B: no DATA behind an EOF, on the link or in the log. */
  ghost predicate Ended(n: Net) {
    && (forall i, j :: 0 <= i < j < |n.ab| && Last(n.ab[i]) && n.ab[j].Data? ==> n.ab[i].recipient != n.ab[j].recipient)
    && (forall i :: 0 <= i < |n.ab| && Last(n.ab[i]) ==> Muted(n, n.ab[i].recipient))
    && (forall r :: ChannelEof(r) in n.hb.log ==> Muted(n, r))
    && (forall i :: 0 <= i < |n.ab| && n.ab[i].Data? ==> ChannelEof(n.ab[i].recipient) !in n.hb.log)
  }

  /** No DATA event of a channel follows its EOF event. */
  ghost predicate Quiet(log: seq<Event>) {
    forall i, j :: 0 <= i < j < |log| && log[i].ChannelEof? && log[j].ChannelData? ==> log[i].id != log[j].id
  }

  ghost predicate Delivering(n: Net) {
    Conserved(n) && Ended(n) && Quiet(n.hb.log)
  }

  lemma GotOnMore(log: seq<Event>, e: seq<Event>, r: u32)
    requires |e| <= 1
    ensures GotOn(log + e, r) ==
      GotOn(log, r) + (if e != [] && e[0].ChannelData? && e[0].id == r then [e[0].data] else [])
  {
    if e != [] {
      assert (log + e)[..|log + e| - 1] == log;
    } else {
      assert log + e == log;
    }
  }

  lemma DataToMore(q: seq<Pdu>, p: seq<Pdu>, r: u32)
    requires |p| <= 1 && (p != [] ==> !p[0].Data?)
    ensures DataTo(q + p, r) == DataTo(q, r)
  {
    if p == [] {
      assert q + p == q;
    } else {
      assert p == [p[0]];
      DataToSnoc(q, p[0], r);
    }
  }

  // ------------------------------------------------------------------
  // A speaks: what side A does to the direction from A to B
  // ------------------------------------------------------------------

  /** Nothing of the sender's half that the direction depends on has moved, save the link. */
  ghost predicate SameSender(n: Net, n': Net) {
    && n'.ha.bind == n.ha.bind && n'.ha.sent == n.ha.sent && n'.hb.log == n.hb.log
    && (forall k :: k in n'.a.chans && k in n.ha.bind ==>
          k in n.a.chans && (n.a.chans[k].localEof ==> n'.a.chans[k].localEof))
  }

  ghost predicate Idle(n: Net, n': Net, p: seq<Pdu>) {
    SameSender(n, n') && n'.ab == n.ab + p && |p| <= 1 && (p != [] ==> !p[0].Data? && !Last(p[0]))
  }

  lemma IdleKeeps(n: Net, n': Net, p: seq<Pdu>)
    requires Delivering(n) && Idle(n, n', p)
    ensures Delivering(n')
  {
    assert Conserved(n') by {
      forall r ensures DataTo(n'.ab, r) == DataTo(n.ab, r) { DataToMore(n.ab, p, r); }
    }
    IdleEnded(n, n', p);
  }

  lemma IdleEnded(n: Net, n': Net, p: seq<Pdu>)
    requires Ended(n) && Idle(n, n', p)
    ensures Ended(n')
  {
    forall r | Muted(n, r) ensures Muted(n', r) {}
  }

  /** channel_send on k succeeds. */
  ghost predicate Sends(n: Net, n': Net, k: u32, data: bytes) {
    && k in n.a.chans && k in n.ha.bind && !n.a.chans[k].localEof
    && n'.ha.bind == n.ha.bind && n'.ha.sent == n.ha.sent + [Chunk(k, data)] && n'.hb.log == n.hb.log
    && n'.a.chans.Keys == n.a.chans.Keys
    && (forall l :: l in n.a.chans ==> n'.a.chans[l].localEof == n.a.chans[l].localEof)
    && n'.ab == n.ab + [Data(n.ha.bind[k], data)]
  }

  lemma SendKeeps(n: Net, n': Net, k: u32, data: bytes)
    requires Delivering(n) && Paired(n) && Sends(n, n', k, data)
    ensures Delivering(n')
  {
    var r := n.ha.bind[k];
    assert Conserved(n') by {
      assert n'.ha.sent[..|n'.ha.sent| - 1] == n.ha.sent;
      assert r in n.ha.bind.Values;
      forall l | l in n.ha.bind
        ensures SentOn(n'.ha.sent, l) == GotOn(n.hb.log, n.ha.bind[l]) + DataTo(n'.ab, n.ha.bind[l])
      {
        DataToSnoc(n.ab, Data(r, data), n.ha.bind[l]);
      }
    }
    SendEnded(n, n', k, data);
  }

  lemma SendEnded(n: Net, n': Net, k: u32, data: bytes)
    requires Ended(n) && Sends(n, n', k, data)
    ensures Ended(n')
  {
    assert !Muted(n, n.ha.bind[k]);
    forall q | Muted(n, q) ensures Muted(n', q) {}
  }

  /** The last PDU of channel k goes out, and k stops sending. */
  ghost predicate Ends(n: Net, n': Net, k: u32, p: Pdu) {
    && SameSender(n, n') && k in n.ha.bind && Last(p) && p.recipient == n.ha.bind[k] && n'.ab == n.ab + [p]
    && (k in n'.a.chans ==> n'.a.chans[k].localEof)
  }

  lemma EndKeeps(n: Net, n': Net, k: u32, p: Pdu)
    requires Delivering(n) && Paired(n) && Ends(n, n', k, p)
    ensures Delivering(n')
  {
    assert Conserved(n') by {
      forall r ensures DataTo(n'.ab, r) == DataTo(n.ab, r) { DataToSnoc(n.ab, p, r); }
    }
    assert Ended(n') by {
      forall r | Muted(n, r) ensures Muted(n', r) {}
      assert n.ha.bind[k] in n.ha.bind.Values;
      assert Muted(n', p.recipient);
    }
  }

  /** A new pair: neither end has sent, been sent or delivered anything. */
  ghost predicate Pairs(n: Net, n': Net, x: u32, r: u32) {
    && x !in n.ha.bind && r !in n.ha.bind.Values
    && n'.ha.bind == n.ha.bind[x := r] && n'.ha.sent == n.ha.sent && n'.hb.log == n.hb.log && n'.ab == n.ab
    && (forall k :: k in n'.a.chans && k in n.ha.bind ==>
          k in n.a.chans && n'.a.chans[k].localEof == n.a.chans[k].localEof)
  }

  lemma PairKeeps(n: Net, n': Net, x: u32, r: u32)
    requires Delivering(n) && Link(n) && Pairs(n, n', x, r)
    ensures Delivering(n')
  {
    BindGrows(n.ha.bind, x, r);
    forall i | 0 <= i < |n.ab| ensures !(Addressed(n.ab[i]) && n.ab[i].recipient == r) {
      assert Carried(n, i);
    }
    NothingTo(n.ab, r);
    assert Conserved(n');
    assert Ended(n') by {
      forall q | Muted(n, q) ensures Muted(n', q) {}
    }
  }

  // ------------------------------------------------------------------
  // B hears: what side B does to the direction from A to B
  // ------------------------------------------------------------------

  ghost predicate SameTalk(n: Net, n': Net) {
    n'.ha.bind == n.ha.bind && n'.ha.sent == n.ha.sent && n'.a.chans == n.a.chans
  }

  /** B logs e, which is no data and no end; it may drop a PDU that is no data. */
  ghost predicate Hears(n: Net, n': Net, e: seq<Event>) {
    && SameTalk(n, n')
    && (n'.ab == n.ab || (n.ab != [] && !n.ab[0].Data? && n'.ab == n.ab[1..]))
    && n'.hb.log == n.hb.log + e && |e| <= 1 && (e != [] ==> !e[0].ChannelData? && !e[0].ChannelEof?)
  }

  lemma HearKeeps(n: Net, n': Net, e: seq<Event>)
    requires Delivering(n) && Hears(n, n', e)
    ensures Delivering(n')
  {
    assert Conserved(n') by {
      forall r ensures GotOn(n'.hb.log, r) == GotOn(n.hb.log, r) && DataTo(n'.ab, r) == DataTo(n.ab, r) {
        GotOnMore(n.hb.log, e, r);
      }
    }
    HearEnded(n, n', e);
  }

  lemma HearEnded(n: Net, n': Net, e: seq<Event>)
    requires Ended(n) && Hears(n, n', e)
    ensures Ended(n')
  {
    forall r | Muted(n, r) ensures Muted(n', r) {}
    assert forall r :: ChannelEof(r) in n'.hb.log ==> ChannelEof(r) in n.hb.log;
    if n'.ab != n.ab {
      assert forall i :: 0 <= i < |n'.ab| ==> n'.ab[i] == n.ab[i + 1];
    }
  }

  ghost predicate HearsData(n: Net, n': Net) {
    && SameTalk(n, n') && n.ab != [] && n.ab[0].Data? && n'.ab == n.ab[1..]
    && n'.hb.log == n.hb.log + [ChannelData(n.ab[0].recipient, n.ab[0].data)]
  }

  lemma HearDataKeeps(n: Net, n': Net)
    requires Delivering(n) && Link(n) && HearsData(n, n')
    ensures Delivering(n')
  {
    var p := n.ab[0];
    var e := ChannelData(p.recipient, p.data);
    assert Conserved(n') by {
      assert Carried(n, 0);
      forall r ensures GotOn(n'.hb.log, r) + DataTo(n'.ab, r) == GotOn(n.hb.log, r) + DataTo(n.ab, r)
        && (r != p.recipient ==> GotOn(n'.hb.log, r) == GotOn(n.hb.log, r))
      {
        GotOnMore(n.hb.log, [e], r);
      }
    }
    HearDataEnded(n, n');
  }

  lemma HearDataEnded(n: Net, n': Net)
    requires Ended(n) && Quiet(n.hb.log) && HearsData(n, n')
    ensures Ended(n') && Quiet(n'.hb.log)
  {
    forall r | Muted(n, r) ensures Muted(n', r) {}
    assert forall r :: ChannelEof(r) in n'.hb.log ==> ChannelEof(r) in n.hb.log;
    assert forall i :: 0 <= i < |n'.ab| ==> n'.ab[i] == n.ab[i + 1];
    forall i | 0 <= i < |n.hb.log| && n.hb.log[i].ChannelEof? ensures n.hb.log[i].id != n.ab[0].recipient {
      assert ChannelEof(n.hb.log[i].id) in n.hb.log;
    }
  }

  ghost predicate HearsEof(n: Net, n': Net) {
    && SameTalk(n, n') && n.ab != [] && n.ab[0].Eof? && n'.ab == n.ab[1..]
    && n'.hb.log == n.hb.log + [ChannelEof(n.ab[0].recipient)]
  }

  lemma HearEofKeeps(n: Net, n': Net)
    requires Delivering(n) && HearsEof(n, n')
    ensures Delivering(n')
  {
    var r := n.ab[0].recipient;
    assert Conserved(n') by {
      forall q ensures GotOn(n'.hb.log, q) == GotOn(n.hb.log, q) && DataTo(n'.ab, q) == DataTo(n.ab, q) {
        GotOnMore(n.hb.log, [ChannelEof(r)], q);
      }
    }
    assert Ended(n') by {
      forall q | Muted(n, q) ensures Muted(n', q) {}
      assert forall i :: 0 <= i < |n'.ab| ==> n'.ab[i] == n.ab[i + 1];
    }
  }

  // ------------------------------------------------------------------
  // Every move
  // ------------------------------------------------------------------

  lemma CallDelivers(n: Net, c: Call, s: Sink)
    requires Agreed(n) && IdsLeft(CallA(n, c, s)) && Delivering(n) && Delivering(Flip(n))
    ensures Delivering(CallA(n, c, s)) && Delivering(Flip(CallA(n, c, s)))
  {
    var n', o := CallA(n, c, s), CallOutcome(n.a, c, s);
    CallSpeaks(n, c, s);
    assert Hears(Flip(n), Flip(n'), o.events) by {
      hide CallOutcome;
      CallLogs(n.a, c, s);
    }
    HearKeeps(Flip(n), Flip(n'), o.events);
  }

  /** A host call logs at most one event, never DATA or EOF. */
  lemma CallLogs(p: Peer, c: Call, s: Sink)
    ensures var o := CallOutcome(p, c, s);
      |o.events| <= 1 && (o.events != [] ==> !o.events[0].ChannelData? && !o.events[0].ChannelEof?)
  {
  }

  lemma CallSpeaks(n: Net, c: Call, s: Sink)
    requires Agreed(n) && Delivering(n) && IdsLeft(CallA(n, c, s))
    ensures Delivering(CallA(n, c, s))
  {
    hide *;
    match c
    case CallSend(k, data) => SendSpeaks(n, k, data, s);
    case CallEof(k) => EofSpeaks(n, k, s);
    case CallClose(k) => CloseSpeaks(n, k, s);
    case CallOpen(_) => OtherSpeaks(n, c, s);
    case CallAccept(_, _) => OtherSpeaks(n, c, s);
    case CallAdjust(_, _) => OtherSpeaks(n, c, s);
    case CallDisconnect(_, _) => OtherSpeaks(n, c, s);
  }

  lemma OpenFacts(n: Net, k: u32)
    requires Agreed(n)
    ensures Paired(n) && OwnIds(n.a)
    ensures k in n.a.chans && n.a.chans[k].state == Opened ==> k in n.ha.bind && n.ha.bind[k] == n.a.chans[k].peerId
    ensures n.a.next <= k ==> k !in n.ha.bind && k !in n.a.chans
  {
    assert Named(n);
    if k in n.a.chans { assert Placed(n, k); }
  }

  lemma SendSpeaks(n: Net, k: u32, data: bytes, s: Sink)
    requires Agreed(n) && Delivering(n)
    ensures Delivering(CallA(n, CallSend(k, data), s))
  {
    hide Delivering, Agreed, Paired;
    OpenFacts(n, k);
    var c := CallSend(k, data);
    var n', o := CallA(n, c, s), CallOutcome(n.a, c, s);
    if o.rc == Ok {
      assert o.push == [Data(n.ha.bind[k], data)];
      assert Sends(n, n', k, data);
      SendKeeps(n, n', k, data);
    } else {
      IdleKeeps(n, n', []);
    }
  }

  lemma EofSpeaks(n: Net, k: u32, s: Sink)
    requires Agreed(n) && Delivering(n)
    ensures Delivering(CallA(n, CallEof(k), s))
  {
    hide Delivering, Agreed, Paired;
    OpenFacts(n, k);
    var c := CallEof(k);
    var n', o := CallA(n, c, s), CallOutcome(n.a, c, s);
    if o.push != [] { EndKeeps(n, n', k, o.push[0]); } else { IdleKeeps(n, n', []); }
  }

  lemma CloseSpeaks(n: Net, k: u32, s: Sink)
    requires Agreed(n) && Delivering(n)
    ensures Delivering(CallA(n, CallClose(k), s))
  {
    hide Delivering, Agreed, Paired;
    OpenFacts(n, k);
    var c := CallClose(k);
    var n', o := CallA(n, c, s), CallOutcome(n.a, c, s);
    if o.push != [] { EndKeeps(n, n', k, o.push[0]); } else { IdleKeeps(n, n', []); }
  }

  lemma OtherSpeaks(n: Net, c: Call, s: Sink)
    requires Agreed(n) && Delivering(n) && !c.CallSend? && !c.CallEof? && !c.CallClose?
    requires IdsLeft(CallA(n, c, s))
    ensures Delivering(CallA(n, c, s))
  {
    hide Delivering, Agreed, Paired, CallOutcome;
    OpenFacts(n, NextId(n.a));
    OtherShape(n.a, c, s);
    var n', o := CallA(n, c, s), CallOutcome(n.a, c, s);
    IdleKeeps(n, n', o.push);
  }

  lemma OtherShape(p: Peer, c: Call, s: Sink)
    requires !c.CallSend? && !c.CallEof? && !c.CallClose?
    ensures var o := CallOutcome(p, c, s);
      && |o.push| <= 1 && (o.push != [] ==> !o.push[0].Data? && !Last(o.push[0]))
      && match o.eff {
        case Put(id, ch) => id in p.chans && ch.localEof == p.chans[id].localEof
        case _ => true
      }
  {
  }

  /** What a received PDU logs, and what it leaves alone. */
  lemma ReceiveLogs(p: Peer, m: Pdu, s: Sink)
    requires OwnIds(p) && p.state != Error
    ensures var o := ReceiveOutcome(p, m, s);
      && |o.events| <= 1
      && (m.Data? && o.state != Error ==> o.events == [ChannelData(m.recipient, m.data)])
      && (!m.Data? || o.state == Error ==> o.events == [] || !o.events[0].ChannelData?)
      && (o.events != [] && o.events[0].ChannelEof? ==> m.Eof? && o.state != Error && o.events[0].id == m.recipient)
      && match o.eff {
        case Put(id, ch) => id in p.chans && ch.localEof == p.chans[id].localEof
        case _ => true
      }
  {
  }

  lemma DeliverDelivers(n: Net, s: Sink)
    requires Agreed(n) && IdsLeft(DeliverA(n, s)) && Delivering(n) && Delivering(Flip(n))
    ensures Delivering(DeliverA(n, s)) && Delivering(Flip(DeliverA(n, s)))
  {
    hide *;
    DeliverHears(n, s);
    DeliverSpeaks(n, s);
  }

  lemma DeliverHears(n: Net, s: Sink)
    requires Agreed(n) && Delivering(Flip(n))
    ensures Delivering(Flip(DeliverA(n, s)))
  {
    assert Link(Flip(n)) by { assert Bound(Flip(n)); }
    hide Agreed, Delivering, ReceiveOutcome, Link;
    if n.ba != [] && n.a.state != Error && n.a.state != Closed {
      OpenFacts(n, 0);
      hide Paired;
      var p, n' := n.ba[0], DeliverA(n, s);
      ReceiveLogs(n.a, p, s);
      var o := ReceiveOutcome(n.a, p, s);
      if p.Data? && o.state != Error {
        HearDataKeeps(Flip(n), Flip(n'));
      } else if o.events != [] && o.events[0].ChannelEof? {
        HearEofKeeps(Flip(n), Flip(n'));
      } else {
        HearKeeps(Flip(n), Flip(n'), o.events);
      }
    }
  }

  lemma DeliverSpeaks(n: Net, s: Sink)
    requires Agreed(n) && IdsLeft(DeliverA(n, s)) && Delivering(n)
    ensures Delivering(DeliverA(n, s))
  {
    hide Agreed, Delivering, ReceiveOutcome;
    if n.ba != [] && n.a.state != Error && n.a.state != Closed {
      OpenFacts(n, NextId(n.a));
      hide Paired;
      var p, n' := n.ba[0], DeliverA(n, s);
      ReceiveLogs(n.a, p, s);
      ReceiveShape(n.a, p, s);
      var o := ReceiveOutcome(n.a, p, s);
      if (p.Open? && o.eff.Add?) || (p.Confirm? && o.eff.Put?) {
        NewPairFacts(n, s);
        PairKeeps(n, n', if p.Open? then NextId(n.a) else p.recipient, p.sender);
      } else {
        IdleKeeps(n, n', o.push);
      }
    }
  }

  /** An OPEN or a CONFIRM at the head of the link pairs two ids that were free. */
  lemma NewPairFacts(n: Net, s: Sink)
    requires Agreed(n) && n.ba != []
    ensures Link(n)
    ensures n.ba[0].Open? ==> n.ba[0].sender !in n.ha.bind.Values
    ensures n.ba[0].Confirm? ==> n.ba[0].recipient !in n.ha.bind && n.ba[0].sender !in n.ha.bind.Values
  {
    assert Bound(n) && Bound(Flip(n)) && Carried(Flip(n), 0);
    var p := n.ba[0];
    if p.Confirm? {
      forall k | k in n.ha.bind ensures n.ha.bind[k] != p.sender {
        if k !in n.ha.offered { assert n.ha.bind[k] in n.hb.offered; } else { assert n.hb.bind[n.ha.bind[k]] == k; }
      }
    }
  }

  lemma StepDelivers(n: Net, m: Move)
    requires Agreed(n) && IdsLeft(Step(n, m)) && Delivering(n) && Delivering(Flip(n))
    ensures Delivering(Step(n, m)) && Delivering(Flip(Step(n, m)))
  {
    hide Agreed, Delivering, CallA, DeliverA;
    var f := Flip(n);
    assert Flip(f) == n;
    match m {
      case MoveA(ActCall(c, s)) => CallDelivers(n, c, s);
      case MoveA(ActDeliver(s)) => DeliverDelivers(n, s);
      case MoveB(ActCall(c, s)) => FlipAgreed(n); CallDelivers(f, c, s); assert Flip(Flip(CallA(f, c, s))) == CallA(f, c, s);
      case MoveB(ActDeliver(s)) => FlipAgreed(n); DeliverDelivers(f, s); assert Flip(Flip(DeliverA(f, s))) == DeliverA(f, s);
    }
  }

  /** Delivery stays ordered and isolated along every run within the id space. */
  lemma {:induction false} RunDelivers(n: Net, moves: seq<Move>)
    requires Agreed(n) && IdsLeft(Run(n, moves)) && Delivering(n) && Delivering(Flip(n))
    ensures Agreed(Run(n, moves)) && Delivering(Run(n, moves)) && Delivering(Flip(Run(n, moves)))
    decreases |moves|
  {
    hide Step, Agreed, Delivering;
    if moves != [] {
      IdsOnlyGrow(Step(n, moves[0]), moves[1..]);
      StepKeeps(n, moves[0]);
      StepDelivers(n, moves[0]);
      RunDelivers(Step(n, moves[0]), moves[1..]);
    }
  }
}
