/**
 * Links that lead to ERROR when they are emptied, and calls that make them so:
 * what the rules of NetSafety are there for.  NetExact says exactly when.
 */
module NetLimits {
  import opened Base
  import opened Mux
  import opened Net
  import opened NetBinding

  /** A PDU that is fatal to a side on which channel x is not live. */
  predicate Needs(p: Pdu, x: u32) {
    (p.Data? || p.Confirm?) && p.recipient == x
  }

  predicate Needed(q: seq<Pdu>, x: u32, i: nat) {
    i < |q| && Needs(q[i], x) && forall j :: 0 <= j < i ==> !q[j].Disconnect?
  }

  /** The link to A holds a PDU that needs x, which is not there, and no goodbye before it. */
  ghost predicate Doomed(n: Net, x: u32) {
    && (n.a.state == Ready || n.a.state == Draining) && x !in n.a.chans && x < n.a.next
    && exists i: nat :: Needed(n.ba, x, i)
  }

  /** OPENs on a link: each may take an id where it arrives. */
  function Opens(q: seq<Pdu>): nat {
    if q == [] then 0 else (if q[0].Open? then 1 else 0) + Opens(q[1..])
  }

  lemma {:induction false} OpensMore(q: seq<Pdu>, p: seq<Pdu>)
    requires forall i :: 0 <= i < |p| ==> !p[i].Open?
    ensures Opens(q + p) == Opens(q)
    decreases |q| + |p|
  {
    if q == [] {
      assert q + p == p;
      if p != [] { OpensMore(q, p[1..]); assert [] + p[1..] == p[1..]; }
    } else {
      assert (q + p)[1..] == q[1..] + p;
      OpensMore(q[1..], p);
    }
  }

  /** k deliveries to A. */
  function Drain(n: Net, s: Sink, k: nat): Net
    decreases k
  {
    if k == 0 then n else Drain(DeliverA(n, s), s, k - 1)
  }

  lemma ErrorStays(n: Net, s: Sink, k: nat)
    requires n.a.state == Error
    ensures Drain(n, s, k).a.state == Error
  {
  }

  /** Once a needed channel is gone, emptying the link ends in ERROR. */
  lemma {:induction false} DoomedFails(n: Net, x: u32, s: Sink)
    requires Doomed(n, x) && n.a.next + Opens(n.ba) <= U32
    ensures Drain(n, s, |n.ba|).a.state == Error
    decreases |n.ba|
  {
    var p, n' := n.ba[0], DeliverA(n, s);
    DoomedStep(n, x, s);
    if n'.a.state == Error {
      ErrorStays(n', s, |n.ba| - 1);
    } else {
      DoomedFails(n', x, s);
    }
  }

  /** A delivery to a doomed side either fails or leaves it doomed. */
  lemma DoomedStep(n: Net, x: u32, s: Sink)
    requires Doomed(n, x) && n.a.next + Opens(n.ba) <= U32
    ensures var n' := DeliverA(n, s);
      n'.a.state == Error || (Doomed(n', x) && n'.a.next + Opens(n'.ba) <= U32 && n'.ba == n.ba[1..])
  {
    var p, n', o := n.ba[0], DeliverA(n, s), ReceiveOutcome(n.a, n.ba[0], s);
    ReceiveShape(n.a, p, s);
    if o.state != Error {
      assert !Needs(p, x);
      var i: nat :| Needed(n.ba, x, i);
      assert i > 0;
      OnlyGoodbyeCloses(n.a, p, s);
      hide ReceiveOutcome, NoteReceive;
      assert Needed(n'.ba, x, i - 1);
    }
  }

  /** The output path takes a PDU of n bytes. */
  predicate Roomy(p: Peer, s: Sink, n: nat) {
    PushRc(p.cfg, s, n) == Ok
  }

  /**
   * Closing an open channel whose peer may still send is fatal: whatever else
   * is in flight, the peer need only send an empty chunk.
   */
  lemma EarlyCloseIsFatal(n: Net, x: u32, r: u32, s: Sink, t: Sink)
    requires n.a.state == Ready && x in n.a.chans && n.a.chans[x].state == Opened && x < n.a.next
    requires n.b.state == Ready && r in n.b.chans && n.b.chans[r].state == Opened && n.b.chans[r].havePeer
    requires n.b.chans[r].peerId == x && !n.b.chans[r].localEof && Roomy(n.b, t, 9)
    requires forall i :: 0 <= i < |n.ba| ==> !n.ba[i].Disconnect?
    requires n.a.next + Opens(n.ba) <= U32
    ensures
      var n1 := Step(n, MoveA(ActCall(CallClose(x), s)));
      var n2 := Step(n1, MoveB(ActCall(CallSend(r, []), t)));
      Drain(n2, s, |n2.ba|).a.state == Error
  {
    var n1 := Step(n, MoveA(ActCall(CallClose(x), s)));
    var n2 := Step(n1, MoveB(ActCall(CallSend(r, []), t)));
    assert n2.ba == n.ba + [Data(x, [])];
    OpensMore(n.ba, [Data(x, [])]);
    assert Needed(n2.ba, x, |n.ba|);
    DoomedFails(n2, x, s);
  }

  /** Closing a channel that is still opening is fatal as soon as the peer accepts. */
  lemma AbandonedOpenIsFatal(n: Net, x: u32, r: u32, s: Sink, t: Sink)
    requires n.a.state == Ready && x in n.a.chans && n.a.chans[x].state == Opening && x < n.a.next
    requires n.b.state == Ready && r in n.b.chans && n.b.chans[r].state == Pending && n.b.chans[r].havePeer
    requires n.b.chans[r].peerId == x && Roomy(n.b, t, 17)
    requires forall i :: 0 <= i < |n.ba| ==> !n.ba[i].Disconnect?
    requires n.a.next + Opens(n.ba) <= U32
    ensures
      var n1 := Step(n, MoveA(ActCall(CallClose(x), s)));
      var n2 := Step(n1, MoveB(ActCall(CallAccept(r, true), t)));
      Drain(n2, s, |n2.ba|).a.state == Error
  {
    var n1 := Step(n, MoveA(ActCall(CallClose(x), s)));
    var n2 := Step(n1, MoveB(ActCall(CallAccept(r, true), t)));
    var p := Confirm(n.b.chans[r].localId, x, n.b.cfg.initialWindow, n.b.cfg.maxPacket);
    assert n2.ba == n.ba + [p];
    OpensMore(n.ba, [p]);
    assert Needed(n2.ba, x, |n.ba|);
    DoomedFails(n2, x, s);
  }

  /**
   * Disconnecting while the AUTH_OK is on its way: the AUTH_OK then arrives in
   * DRAINING, where it is an unknown mux PDU.  Fatal exactly when the
   * secretstream was up, which in AUTH it always is.
   */
  lemma EarlyDisconnectIsFatal(n: Net, reason: u32, msg: bytes, s: Sink)
    requires n.b.state == Auth && n.ab != [] && n.ab[0].AuthOk?
    ensures
      var n1 := Step(n, MoveB(ActCall(CallDisconnect(reason, msg), s)));
      Step(n1, MoveB(ActDeliver(s))).b.state == (if s.ready then Error else Closed)
  {
    var n1 := Step(n, MoveB(ActCall(CallDisconnect(reason, msg), s)));
    assert n1.ab == n.ab;
  }

  /** A record limit too small for what the peer has sent, wherever on the link it is, is fatal too. */
  lemma {:induction false} ShortRecordIsFatal(n: Net, i: nat, s: Sink)
    requires n.a.state != Closed && i < |n.ba| && PduLen(n.ba[i]) > n.a.cfg.maxRecord
    requires forall j :: 0 <= j < |n.ba| ==> !n.ba[j].Disconnect?
    ensures Drain(n, s, |n.ba|).a.state == Error
    decreases |n.ba|
  {
    var n' := DeliverA(n, s);
    if n.a.state == Error {
      ErrorStays(n, s, |n.ba|);
    } else {
      OnlyGoodbyeCloses(n.a, n.ba[0], s);
      hide ReceiveOutcome;
      if n'.a.state == Error {
        ErrorStays(n', s, |n.ba| - 1);
      } else {
        assert n'.ba[i - 1] == n.ba[i] && forall j :: 0 <= j < |n'.ba| ==> n'.ba[j] == n.ba[j + 1];
        ShortRecordIsFatal(n', i - 1, s);
      }
    }
  }

  lemma OnlyGoodbyeCloses(p: Peer, m: Pdu, s: Sink)
    requires p.state != Closed
    ensures var o := ReceiveOutcome(p, m, s);
      && (!m.Disconnect? ==> o.state != Closed) && (PduLen(m) > p.cfg.maxRecord ==> o.state == Error)
      && (p.state != Auth ==> o.state == p.state || o.state == Error || o.state == Closed)
  {
    hide Segments, PushRc;
  }
}
