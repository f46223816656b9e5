/**
 * Two honest sides that follow three rules never drive each other into
 * ERROR.  The rules are ones a host can check before the call: close a
 * channel only when it is pending or its peer has sent EOF; do not overflow
 * a receive window; do not disconnect before authentication is over.
 */
module NetSafety {
  import opened Base
  import opened Mux
  import opened Net
  import opened NetBinding
  import D = NetDelivery
  import C = NetCredit

  /** The rules, looked up on the caller's own side. */
  predicate Careful(p: Peer, c: Call) {
    match c
    case CallClose(id) =>
      id in p.chans ==> p.chans[id].state == Pending || (p.chans[id].state == Opened && p.chans[id].remoteEof)
    case CallAdjust(id, credit) => id in p.chans ==> p.chans[id].recvWindow + credit < U32
    case CallDisconnect(_, _) => p.state != Auth
    case _ => true
  }

  /** The rules bind the calls that are granted; what is refused is harmless. */
  predicate CarefulCall(p: Peer, c: Call, s: Sink) {
    CallOutcome(p, c, s).rc == Ok ==> Careful(p, c)
  }

  predicate CarefulMove(n: Net, m: Move) {
    match m
    case MoveA(ActCall(c, s)) => CarefulCall(n.a, c, s)
    case MoveB(ActCall(c, s)) => CarefulCall(n.b, c, s)
    case _ => true
  }

  predicate CarefulRun(n: Net, moves: seq<Move>)
    decreases |moves|
  {
    moves == [] || (CarefulMove(n, moves[0]) && CarefulRun(Step(n, moves[0]), moves[1..]))
  }

  // ------------------------------------------------------------------
  // The invariant, for the direction from A to B
  // ------------------------------------------------------------------

  /** A side that sends, or may come to: DRAINING and beyond never open, accept or send again. */
  predicate MaySpeak(p: Peer) {
    p.state == Ready || p.state == Auth
  }

  /** Every PDU is one B can take in size and kind; AUTH_OK is first and only while B waits for it. */
  ghost predicate Legible(n: Net) {
    && (forall i :: 0 <= i < |n.ab| ==>
          && PduLen(n.ab[i]) <= n.b.cfg.maxRecord && PduLen(n.ab[i]) <= 9 + DATA_MAX
          && !n.ab[i].AuthDevice? && !n.ab[i].AuthFail?
          && (n.ab[i].AuthOk? <==> i == 0 && n.b.state == Auth))
    && (n.b.state == Auth ==> n.b.role == Client && n.ab != [])
    && n.b.state != Error && n.b.state != Hello && n.b.state != SsHeader
  }

  /** No PDU on the link from A to B still needs channel r to be live, nor will one. */
  ghost predicate Forgotten(n: Net, r: u32) {
    && (forall i :: 0 <= i < |n.ab| ==>
          !(n.ab[i].Confirm? && n.ab[i].recipient == r) && !(n.ab[i].Data? && n.ab[i].recipient == r))
    && (MaySpeak(n.a) ==> forall k :: k in n.a.chans && k in n.ha.bind && n.ha.bind[k] == r ==> Spent(n.a, k))
  }

  /** Channel k of A can send no more. */
  predicate Spent(p: Peer, k: u32) {
    k in p.chans && p.chans[k].state == Opened && p.chans[k].localEof
  }

  /** The PDU at position i of the link from A to B finds what it needs. */
  ghost predicate Welcome(n: Net, i: nat)
    requires i < |n.ab|
  {
    var p := n.ab[i];
    match p
    case Open(s, _, _, _) => s in n.a.chans
    case Confirm(s, r, _, _) => (MaySpeak(n.b) ==> s in n.a.chans) && r in n.b.chans
    case Data(r, _) => r in n.b.chans
    case OpenFail(r, _, _) =>
      && r in n.hb.offered && Forgotten(n, r) && r !in n.hb.bind
      && (forall k :: k in n.a.chans && k in n.ha.bind ==> n.ha.bind[k] != r)
      && (forall j :: 0 <= j < |n.ba| ==> !(n.ba[j].Open? && n.ba[j].sender == r))
    case Close(r) => forall k :: k in n.a.chans && k in n.ha.bind ==> n.ha.bind[k] != r
    case _ => true
  }

  ghost predicate Alive(n: Net) {
    && (forall i :: 0 <= i < |n.ab| ==> Welcome(n, i))
    && (MaySpeak(n.a) ==> forall k :: k in n.a.chans && k in n.ha.bind && !Spent(n.a, k) ==> n.ha.bind[k] in n.b.chans)
    && (forall r :: r in n.b.chans && n.b.chans[r].remoteEof ==> ChannelEof(r) in n.hb.log)
  }

  /** Whatever B's channel r is paired with on side A can send it no more. */
  predicate Finished(n: Net, r: u32) {
    && r in n.hb.bind
    && (MaySpeak(n.a) && n.hb.bind[r] in n.a.chans ==> Spent(n.a, n.hb.bind[r]))
  }

  /** The receiver can pay for everything in flight, and a window that has wrapped has nothing more to pay for. */
  ghost predicate Funded(n: Net) {
    && (forall r :: r in n.hb.wrapped ==> Finished(n, r))
    && (forall r :: r in n.b.chans ==> BytesTo(n.ab, r) <= n.b.chans[r].recvWindow)
  }

  /** Whatever one side may send, the other may receive. */
  predicate Compatible(n: Net) {
    && (n.a.cfg.maxRecord <= n.b.cfg.maxRecord || 9 + DATA_MAX <= n.b.cfg.maxRecord)
    && (n.b.cfg.maxRecord <= n.a.cfg.maxRecord || 9 + DATA_MAX <= n.a.cfg.maxRecord)
  }

  ghost predicate Lawful(n: Net) {
    && Agreed(n)
    && D.Delivering(n) && D.Delivering(Flip(n))
    && C.Credit(n) && C.Credit(Flip(n))
  }

  ghost predicate Sound(n: Net) {
    && Legible(n) && Legible(Flip(n))
    && Alive(n) && Alive(Flip(n))
    && Funded(n) && Funded(Flip(n))
  }

  // ------------------------------------------------------------------
  // No delivery faults
  // ------------------------------------------------------------------

  /** Exactly when a received PDU leads to ERROR, once authentication is over. */
  lemma ReceiveFaults(p: Peer, m: Pdu, s: Sink)
    requires p.state == Ready || p.state == Draining
    ensures ReceiveOutcome(p, m, s).state == Error <==>
      || PduLen(m) > p.cfg.maxRecord || PduLen(m) > DATA_MAX + 64
      || m.AuthDevice? || m.AuthOk? || m.AuthFail?
      || (m.Confirm? && !(m.recipient in p.chans && p.chans[m.recipient].state == Opening))
      || (m.Data? && !(m.recipient in p.chans && p.chans[m.recipient].state == Opened
                       && |m.data| <= p.chans[m.recipient].recvWindow && |m.data| <= DATA_MAX))
  {
  }

  /** In a sound net the PDU at the head of the link never leads to ERROR. */
  lemma NoFault(n: Net, s: Sink)
    requires Agreed(n) && C.Credit(Flip(n)) && Legible(Flip(n)) && Alive(Flip(n)) && Funded(Flip(n))
    requires n.ba != [] && n.a.state != Closed
    ensures ReceiveOutcome(n.a, n.ba[0], s).state != Error
  {
    hide Agreed, C.Credit, Alive, Funded;
    var p := n.ba[0];
    assert PduLen(p) <= n.a.cfg.maxRecord && PduLen(p) <= 9 + DATA_MAX && !p.AuthDevice? && !p.AuthFail?;
    if n.a.state != Auth {
      if p.Confirm? { ConfirmFindsOpener(n); }
      if p.Data? { DataFindsRoom(n); }
      ReceiveFaults(n.a, p, s);
      hide ReceiveOutcome;
    }
  }

  lemma ConfirmFindsOpener(n: Net)
    requires Agreed(n) && Alive(Flip(n)) && n.ba != [] && n.ba[0].Confirm?
    ensures n.ba[0].recipient in n.a.chans && n.a.chans[n.ba[0].recipient].state == Opening
  {
    assert Welcome(Flip(n), 0);
    assert Bound(n) && Bound(Flip(n)) && Carried(Flip(n), 0) && Placed(n, n.ba[0].recipient);
  }

  lemma DataFindsRoom(n: Net)
    requires Agreed(n) && C.Credit(Flip(n)) && Alive(Flip(n)) && Funded(Flip(n)) && n.ba != [] && n.ba[0].Data?
    ensures var r := n.ba[0].recipient;
      r in n.a.chans && n.a.chans[r].state == Opened && |n.ba[0].data| <= n.a.chans[r].recvWindow
  {
    var r := n.ba[0].recipient;
    assert Welcome(Flip(n), 0);
    assert Bound(n) && Bound(Flip(n)) && Carried(Flip(n), 0) && Placed(n, r);
    if n.a.chans[r].state == Pending { C.PendingFacts(n, r); }
    assert BytesTo(n.ba, r) <= n.a.chans[r].recvWindow;
  }

  // ------------------------------------------------------------------
  // Legible
  // ------------------------------------------------------------------

  lemma CallSizes(p: Peer, c: Call, s: Sink)
    requires p.state != Error && p.state != Hello && p.state != SsHeader && (c.CallDisconnect? ==> p.state != Auth)
    ensures var o := CallOutcome(p, c, s);
      && |o.push| <= 1
      && (o.push != [] ==>
            && PduLen(o.push[0]) <= p.cfg.maxRecord && PduLen(o.push[0]) <= 9 + DATA_MAX
            && !o.push[0].AuthDevice? && !o.push[0].AuthFail? && !o.push[0].AuthOk?)
      && o.state != Error && o.state != Hello && o.state != SsHeader
      && (o.state == Auth <==> p.state == Auth)
  {
  }

  lemma ReceiveSizes(p: Peer, m: Pdu, s: Sink)
    requires p.state == Auth || p.state == Ready || p.state == Draining
    ensures var o := ReceiveOutcome(p, m, s);
      && |o.push| <= 1
      && (o.push != [] ==>
            && PduLen(o.push[0]) <= p.cfg.maxRecord && PduLen(o.push[0]) <= 9 + DATA_MAX
            && (o.push[0].OpenFail? || o.push[0].Pong?))
      && o.state != Hello && o.state != SsHeader && o.state != Auth
  {
    assert |NOT_ALLOWED| == 11;
  }

  lemma ApplyParts(p: Peer, o: Outcome)
    ensures Apply(p, o).state == o.state && Apply(p, o).cfg == p.cfg && Apply(p, o).role == p.role
  {
  }

  lemma LegibleMore(n: Net, n': Net, p: seq<Pdu>)
    requires Legible(n) && Compatible(n) && n'.ab == n.ab + p && |p| <= 1 && n'.b == n.b
    requires p != [] ==> PduLen(p[0]) <= n.a.cfg.maxRecord && PduLen(p[0]) <= 9 + DATA_MAX
    requires p != [] ==> !p[0].AuthDevice? && !p[0].AuthFail? && !p[0].AuthOk?
    ensures Legible(n')
  {
  }

  lemma CallLegible(n: Net, c: Call, s: Sink)
    requires (c.CallDisconnect? ==> n.a.state != Auth) && Compatible(n) && Legible(n) && Legible(Flip(n))
    ensures Legible(CallA(n, c, s)) && Legible(Flip(CallA(n, c, s)))
  {
    CallSizes(n.a, c, s);
    hide CallOutcome, Apply;
    var n', o := CallA(n, c, s), CallOutcome(n.a, c, s);
    ApplyParts(n.a, o);
    LegibleMore(n, n', o.push);
  }

  lemma DeliverLegible(n: Net, s: Sink)
    requires Agreed(n) && C.Credit(Flip(n)) && Alive(Flip(n)) && Funded(Flip(n)) && Compatible(n)
    requires Legible(n) && Legible(Flip(n))
    ensures Legible(DeliverA(n, s)) && Legible(Flip(DeliverA(n, s)))
  {
    hide Agreed, C.Credit, Alive, Funded;
    if n.ba != [] && n.a.state != Closed {
      NoFault(n, s);
      ReceiveSizes(n.a, n.ba[0], s);
      hide ReceiveOutcome, Apply;
      var n', o := DeliverA(n, s), ReceiveOutcome(n.a, n.ba[0], s);
      ApplyParts(n.a, o);
      LegibleMore(n, n', o.push);
      assert forall i :: 0 <= i < |n'.ba| ==> n'.ba[i] == n.ba[i + 1];
    }
  }

  // ------------------------------------------------------------------
  // Funded
  // ------------------------------------------------------------------

  /** The sender's live channel pays for its bytes out of the receiver's window. */
  lemma BalanceFunds(n: Net, r: u32)
    requires C.Credit(n) && r !in n.hb.wrapped && r in n.b.chans
    requires exists k :: k in n.a.chans && C.Sending(n.a.chans[k]) && k in n.ha.bind && n.ha.bind[k] == r
    ensures BytesTo(n.ab, r) <= n.b.chans[r].recvWindow
  {
    var k :| k in n.a.chans && C.Sending(n.a.chans[k]) && k in n.ha.bind && n.ha.bind[k] == r;
    assert C.Balanced(n, k, r);
  }

  /** On side A nobody regains the right to speak, and no channel of B gains a peer that may. */
  ghost predicate StaysSpent(n: Net, n': Net) {
    && (MaySpeak(n'.a) ==> MaySpeak(n.a))
    && (forall k :: k in n'.a.chans && k in n.hb.bind.Values ==> k in n.a.chans && (Spent(n.a, k) ==> Spent(n'.a, k)))
  }

  /** A speaks: either the bytes to r are as before, or a live channel of A pays for them. */
  lemma FundedSpeak(n: Net, n': Net, p: seq<Pdu>)
    requires Funded(n) && C.Credit(n') && n'.b == n.b && n'.hb == n.hb && n'.ab == n.ab + p && |p| <= 1 && StaysSpent(n, n')
    requires p != [] && p[0].Data? ==>
      p[0].recipient !in n.hb.wrapped
      && exists k :: k in n'.a.chans && C.Sending(n'.a.chans[k]) && k in n'.ha.bind && n'.ha.bind[k] == p[0].recipient
    ensures Funded(n')
  {
    forall r | r in n'.hb.wrapped ensures Finished(n', r) { assert Finished(n, r); }
    hide C.Credit, StaysSpent;
    forall r | r in n'.b.chans ensures BytesTo(n'.ab, r) <= n'.b.chans[r].recvWindow {
      if p != [] && p[0].Data? && p[0].recipient == r { BalanceFunds(n', r); } else { C.SumsMore(n.ab, p, r); }
    }
  }

  /** B listens: windows grow, shrink by what is taken, or still hold what is in flight. */
  lemma FundedListen(n: Net, n': Net)
    requires Funded(n) && (forall r :: r in n'.hb.wrapped ==> Finished(n', r))
    requires n'.ab == n.ab || (n.ab != [] && n'.ab == n.ab[1..])
    requires forall r :: r in n'.b.chans && r in n.b.chans ==>
      n'.b.chans[r].recvWindow >= n.b.chans[r].recvWindow
        || n'.b.chans[r].recvWindow - BytesTo(n'.ab, r) >= n.b.chans[r].recvWindow - BytesTo(n.ab, r)
        || BytesTo(n'.ab, r) <= n'.b.chans[r].recvWindow
    requires forall r :: r in n'.b.chans && r !in n.b.chans ==> BytesTo(n.ab, r) == 0
    ensures Funded(n')
  {
    forall r | r in n'.b.chans ensures BytesTo(n'.ab, r) <= n'.b.chans[r].recvWindow {
    }
  }

  lemma CallStaysSpent(n: Net, c: Call, s: Sink)
    requires Agreed(n) && IdsLeft(CallA(n, c, s))
    ensures StaysSpent(n, CallA(n, c, s))
  {
    CallEofs(n.a, c, s);
    hide Agreed, CallOutcome, NoteCall;
    if CallOutcome(n.a, c, s).eff.Add? { FreshIsNobodysPeer(n, NextId(n.a)); }
  }

  /** A call takes no EOF back and lets nobody speak again. */
  lemma CallEofs(p: Peer, c: Call, s: Sink)
    ensures var o := CallOutcome(p, c, s);
      && (o.state == p.state || o.state == Draining || o.state == Closed)
      && (o.eff.Put? ==>
            o.eff.id in p.chans
            && (p.chans[o.eff.id].state == Opened && p.chans[o.eff.id].localEof ==> o.eff.ch.state == Opened && o.eff.ch.localEof))
  {
    hide Segments, PushRc;
  }

  lemma CallFunds(n: Net, c: Call, s: Sink)
    requires Agreed(n) && Funded(n) && C.Credit(CallA(n, c, s)) && IdsLeft(CallA(n, c, s))
    ensures Funded(CallA(n, c, s))
  {
    CallStaysSpent(n, c, s);
    hide Agreed, C.Credit, StaysSpent;
    C.CallSendShape(n.a, c, s);
    var n', o := CallA(n, c, s), CallOutcome(n.a, c, s);
    if c.CallSend? && o.rc == Ok { SendFunds(n, c.id, c.data, s); }
    hide CallOutcome, Funded;
    FundedSpeak(n, n', o.push);
  }

  /** The channel a DATA was sent on is live, is the peer of the one it names, and that one's window has not wrapped. */
  lemma SendFunds(n: Net, k: u32, data: bytes, s: Sink)
    requires Agreed(n) && Funded(n) && CallOutcome(n.a, CallSend(k, data), s).rc == Ok
    ensures var n' := CallA(n, CallSend(k, data), s);
      && k in n'.a.chans && C.Sending(n'.a.chans[k]) && k in n'.ha.bind && n'.ha.bind[k] !in n.hb.wrapped
      && CallOutcome(n.a, CallSend(k, data), s).push == [Data(n'.ha.bind[k], data)]
  {
    hide Agreed;
    C.LiveFacts(n, k);
    var r := n.ha.bind[k];
    if r in n.hb.wrapped {
      assert Finished(n, r);
      C.PeersAreMutual(n, k, r);
      assert false;
    }
  }

  /** No bytes are on their way to a fresh or a pending channel of A. */
  lemma NoBytesYet(n: Net, r: u32)
    requires Agreed(n)
    requires n.a.next <= r || (C.Credit(Flip(n)) && r in n.a.chans && n.a.chans[r].state == Pending)
    ensures BytesTo(n.ba, r) == 0
  {
    if n.a.next <= r {
      FreshIsNobodysPeer(n, r);
      assert Bound(Flip(n));
      forall i | 0 <= i < |n.ba| ensures !(n.ba[i].Data? && n.ba[i].recipient == r) { assert Carried(Flip(n), i); }
    } else {
      C.PendingFacts(n, r);
    }
    NothingTo(n.ba, r);
  }

  /** What is left of a window that an adjust overflows. */
  predicate Overflows(p: Peer, x: u32, credit: u32) {
    x in p.chans && p.chans[x].state == Opened && p.chans[x].recvWindow + credit >= U32
  }

  function Wrapped(p: Peer, x: u32, credit: u32): nat
    requires Overflows(p, x, credit)
  {
    p.chans[x].recvWindow + credit - U32
  }

  lemma CallWindows(p: Peer, c: Call, s: Sink)
    ensures var o := CallOutcome(p, c, s);
      match o.eff {
        case Put(id, ch) =>
          && id in p.chans
          && (|| ch.recvWindow >= p.chans[id].recvWindow || p.chans[id].state == Pending
              || (c.CallAdjust? && id == c.id && Overflows(p, id, c.credit) && ch.recvWindow == Wrapped(p, id, c.credit)))
        case _ => true
      }
  {
  }

  lemma CallWraps(h: Hist, p: Peer, c: Call, s: Sink)
    ensures var h' := NoteCall(h, p, c, CallOutcome(p, c, s));
      && h'.bind == h.bind
      && (h'.wrapped == h.wrapped || (c.CallAdjust? && Overflows(p, c.id, c.credit) && h'.wrapped == h.wrapped + {c.id}))
  {
  }

  /** An adjust that overflows is harmless when nothing more is coming, and what is in flight fits. */
  ghost predicate FitsWrapped(n: Net, x: u32, credit: u32) {
    Overflows(n.a, x, credit) ==> Finished(Flip(n), x) && BytesTo(n.ba, x) <= Wrapped(n.a, x, credit)
  }

  lemma CallStaysFunded(n: Net, c: Call, s: Sink)
    requires Agreed(n) && C.Credit(Flip(n)) && Funded(Flip(n)) && IdsLeft(CallA(n, c, s))
    requires c.CallAdjust? ==> FitsWrapped(n, c.id, c.credit)
    ensures Funded(Flip(CallA(n, c, s)))
  {
    hide Agreed, C.Credit;
    var n', o := CallA(n, c, s), CallOutcome(n.a, c, s);
    CallWindows(n.a, c, s);
    CallWraps(n.ha, n.a, c, s);
    hide CallOutcome, NoteCall;
    if o.eff.Add? { NoBytesYet(n, NextId(n.a)); }
    if o.eff.Put? && n.a.chans[o.eff.id].state == Pending { NoBytesYet(n, o.eff.id); }
    forall r | r in n'.ha.wrapped ensures Finished(Flip(n'), r) {
      if r in n.ha.wrapped { assert Finished(Flip(n), r); }
    }
    FundedListen(Flip(n), Flip(n'));
  }

  /** Nor does a received PDU. */
  lemma ReceiveSpeaks(p: Peer, m: Pdu, s: Sink)
    requires p.state != Error && p.state != Closed
    ensures var o := ReceiveOutcome(p, m, s);
      && (o.state == p.state || o.state == Error || o.state == Closed || (p.state == Auth && o.state == Ready))
      && (o.eff.Put? ==>
            o.eff.id in p.chans
            && (p.chans[o.eff.id].state == Opened && p.chans[o.eff.id].localEof ==> o.eff.ch.state == Opened && o.eff.ch.localEof))
  {
    hide Segments, PushRc;
  }

  lemma DeliverStaysSpent(n: Net, s: Sink)
    requires Agreed(n) && IdsLeft(DeliverA(n, s)) && n.ba != [] && n.a.state != Error && n.a.state != Closed
    ensures StaysSpent(n, DeliverA(n, s))
  {
    hide Agreed, ReceiveOutcome, NoteReceive;
    ReceiveSpeaks(n.a, n.ba[0], s);
    var o := ReceiveOutcome(n.a, n.ba[0], s);
    if o.eff.Add? { FreshIsNobodysPeer(n, NextId(n.a)); }
    forall k | k in DeliverA(n, s).a.chans && k in n.hb.bind.Values
      ensures k in n.a.chans && (Spent(n.a, k) ==> Spent(DeliverA(n, s).a, k))
    {
    }
  }

  lemma DeliverFunds(n: Net, s: Sink)
    requires Agreed(n) && Funded(n) && C.Credit(DeliverA(n, s)) && IdsLeft(DeliverA(n, s))
    ensures Funded(DeliverA(n, s))
  {
    hide C.Credit, ReceiveOutcome, Agreed, StaysSpent;
    if n.ba != [] && n.a.state != Error && n.a.state != Closed {
      DeliverStaysSpent(n, s);
      ReceiveShape(n.a, n.ba[0], s);
      FundedSpeak(n, DeliverA(n, s), ReceiveOutcome(n.a, n.ba[0], s).push);
    }
  }

  /** What is paired stays paired. */
  lemma BindStays(n: Net, s: Sink, r: u32)
    requires Agreed(n) && IdsLeft(DeliverA(n, s)) && r in n.ha.bind
    ensures r in DeliverA(n, s).ha.bind && DeliverA(n, s).ha.bind[r] == n.ha.bind[r]
  {
    hide Agreed, ReceiveOutcome, NoteReceive;
    if n.ba != [] && n.a.state != Error && n.a.state != Closed {
      var o := ReceiveOutcome(n.a, n.ba[0], s);
      if n.ba[0].Confirm? { ConfirmIsNew(n); }
      if o.eff.Add? { FreshIsNobodysPeer(n, NextId(n.a)); }
      NoteBinds(n.ha, n.a, n.ba[0], o, r);
    }
  }

  lemma ConfirmIsNew(n: Net)
    requires Agreed(n) && n.ba != [] && n.ba[0].Confirm?
    ensures n.ba[0].recipient !in n.ha.bind
  {
    assert Carried(Flip(n), 0);
  }

  lemma NoteBinds(h: Hist, p: Peer, m: Pdu, o: Outcome, r: u32)
    requires r in h.bind && (m.Open? && o.eff.Add? ==> r != NextId(p)) && (m.Confirm? ==> r != m.recipient)
    ensures var h' := NoteReceive(h, p, m, o); r in h'.bind && h'.bind[r] == h.bind[r]
  {
  }

  lemma DeliverStaysFunded(n: Net, s: Sink)
    requires Agreed(n) && Funded(Flip(n)) && IdsLeft(DeliverA(n, s))
    ensures Funded(Flip(DeliverA(n, s)))
  {
    hide Agreed, ReceiveOutcome;
    if n.ba != [] && n.a.state != Error && n.a.state != Closed {
      var p, n' := n.ba[0], DeliverA(n, s);
      ReceiveShape(n.a, p, s);
      C.ReceiveCreditShape(n.a, p, s);
      var o := ReceiveOutcome(n.a, p, s);
      if o.eff.Add? { NoBytesYet(n, NextId(n.a)); }
      forall r | r in n'.ha.wrapped ensures Finished(Flip(n'), r) {
        assert Finished(Flip(n), r);
        BindStays(n, s, r);
      }
      FundedListen(Flip(n), Flip(n'));
    }
  }

  // ------------------------------------------------------------------
  // Alive
  // ------------------------------------------------------------------

  predicate Popped(q: seq<Pdu>, q': seq<Pdu>) {
    q' == q || (q != [] && q' == q[1..])
  }

  /** Nothing on the link from A announces channel k of A, to a peer that could use it. */
  ghost predicate Unannounced(n: Net, k: u32) {
    forall i :: 0 <= i < |n.ab| && (n.ab[i].Open? || (MaySpeak(n.b) && n.ab[i].Confirm?)) ==> n.ab[i].sender != k
  }

  /** Nothing on the link from A says that r is refused or closed. */
  ghost predicate Unrefused(n: Net, r: u32) {
    forall i :: 0 <= i < |n.ab| && (n.ab[i].OpenFail? || n.ab[i].Close?) ==> n.ab[i].recipient != r
  }

  /** A's channels bound after a step were bound as before, or to a live and unrefused peer. */
  ghost predicate StillBound(n: Net, n': Net) {
    forall k :: k in n'.a.chans && k in n'.ha.bind ==>
      || (k in n.a.chans && k in n.ha.bind && n'.ha.bind[k] == n.ha.bind[k] && (Spent(n.a, k) ==> Spent(n'.a, k)))
      || ((MaySpeak(n'.a) ==> n'.ha.bind[k] in n.b.chans) && Unrefused(n, n'.ha.bind[k]))
  }

  /** A speaks. */
  ghost predicate Speaks(n: Net, n': Net, p: seq<Pdu>) {
    && n'.b == n.b && n'.hb == n.hb && n'.ab == n.ab + p && |p| <= 1 && Popped(n.ba, n'.ba)
    && (MaySpeak(n'.a) ==> MaySpeak(n.a))
    && (forall k :: k in n.a.chans && k !in n'.a.chans ==> Unannounced(n, k))
    && StillBound(n, n')
    && (p != [] && (p[0].Confirm? || p[0].Data?) ==>
          exists k :: k in n.a.chans && k in n.ha.bind && n.ha.bind[k] == p[0].recipient)
    && (p != [] ==> Welcome(n', |n.ab|))
  }

  lemma SpeakKeeps(n: Net, n': Net, p: seq<Pdu>)
    requires Alive(n) && Speaks(n, n', p)
    ensures Alive(n')
  {
    forall i | 0 <= i < |n'.ab| ensures Welcome(n', i) {
      if i < |n.ab| {
        assert n'.ab[i] == n.ab[i] && Welcome(n, i);
        if n.ab[i].OpenFail? { RefusalKept(n, n', p, i); }
      }
    }
  }

  lemma RefusalKept(n: Net, n': Net, p: seq<Pdu>, i: nat)
    requires Alive(n) && Speaks(n, n', p) && i < |n.ab| && n.ab[i].OpenFail?
    ensures Welcome(n', i)
  {
    assert n'.ab[i] == n.ab[i] && Welcome(n, i);
    var r := n.ab[i].recipient;
    forall j | 0 <= j < |n'.ba| ensures !(n'.ba[j].Open? && n'.ba[j].sender == r) {
      if n'.ba != n.ba { assert n'.ba[j] == n.ba[j + 1]; }
    }
  }

  /** B listens. */
  ghost predicate Listens(n: Net, n': Net, p: seq<Pdu>) {
    && n'.a == n.a && n'.ha == n.ha && Popped(n.ab, n'.ab) && n'.ba == n.ba + p && |p| <= 1
    && n.hb.offered <= n'.hb.offered && (MaySpeak(n'.b) ==> MaySpeak(n.b))
    && (forall r :: r in n.b.chans && r !in n'.b.chans ==> Forgotten(n', r))
    && (forall r :: r in n'.hb.bind && r !in n.hb.bind ==>
          forall i :: 0 <= i < |n.ab| && n.ab[i].OpenFail? ==> n.ab[i].recipient != r)
    && (p != [] && p[0].Open? ==> p[0].sender !in n.hb.offered)
    && (forall r :: r in n'.b.chans && n'.b.chans[r].remoteEof ==> ChannelEof(r) in n'.hb.log)
  }

  lemma ListenKeeps(n: Net, n': Net, p: seq<Pdu>)
    requires Alive(n) && Listens(n, n', p)
    ensures Alive(n')
  {
    forall i | 0 <= i < |n'.ab| ensures Welcome(n', i) {
      var d := |n.ab| - |n'.ab|;
      assert n'.ab[i] == n.ab[i + d] && Welcome(n, i + d);
      if n'.ab[i].OpenFail? { RefusalHeard(n, n', p, i); }
    }
  }

  lemma RefusalHeard(n: Net, n': Net, p: seq<Pdu>, i: nat)
    requires Alive(n) && Listens(n, n', p) && i < |n'.ab| && n'.ab[i].OpenFail?
    ensures Welcome(n', i)
  {
    var d := |n.ab| - |n'.ab|;
    assert n'.ab[i] == n.ab[i + d] && Welcome(n, i + d);
    var r := n'.ab[i].recipient;
    assert Forgotten(n', r) by {
      forall j | 0 <= j < |n'.ab|
        ensures !(n'.ab[j].Confirm? && n'.ab[j].recipient == r) && !(n'.ab[j].Data? && n'.ab[j].recipient == r)
      {
        assert n'.ab[j] == n.ab[j + d];
      }
    }
  }

  // ------------------------------------------------------------------
  // What may be freed
  // ------------------------------------------------------------------

  /** Freeing channel k of A harms nothing in flight, in either direction. */
  ghost predicate Free(n: Net, k: u32) {
    Unannounced(n, k) && Forgotten(Flip(n), k)
  }

  lemma PendingIsFree(n: Net, k: u32)
    requires Agreed(n) && C.Credit(Flip(n)) && k in n.a.chans && n.a.chans[k].state == Pending
    ensures Free(n, k)
  {
    C.PendingFacts(n, k);
    assert Bound(n) && Bound(Flip(n)) && Placed(n, k);
    forall i | 0 <= i < |n.ba| ensures !(n.ba[i].Confirm? && n.ba[i].recipient == k) {
      assert Carried(Flip(n), i);
    }
    forall r | r in n.hb.bind ensures n.hb.bind[r] != k { assert n.hb.bind[r] in n.hb.bind.Values; }
  }

  /** A live channel that B names as a peer is announced on no link. */
  lemma NamedIsUnannounced(n: Net, k: u32)
    requires Agreed(n) && k in n.ha.bind && k in n.hb.bind.Values
    ensures Unannounced(n, k)
    ensures forall i :: 0 <= i < |n.ba| ==> !(n.ba[i].Confirm? && n.ba[i].recipient == k)
  {
    assert Bound(n) && Bound(Flip(n));
    var r :| r in n.hb.bind && n.hb.bind[r] == k;
    C.PeersAreMutual(n, k, r);
    forall i | 0 <= i < |n.ab| && (n.ab[i].Open? || n.ab[i].Confirm?) ensures n.ab[i].sender != k {
      assert Carried(n, i);
    }
    forall i | 0 <= i < |n.ba| ensures !(n.ba[i].Confirm? && n.ba[i].recipient == k) {
      assert Carried(Flip(n), i);
    }
  }

  predicate NoDataTo(q: seq<Pdu>, x: u32) {
    forall i :: 0 <= i < |q| ==> !(q[i].Data? && q[i].recipient == x)
  }

  lemma FinishedIsFree(n: Net, k: u32)
    requires Agreed(n) && Alive(n) && k in n.a.chans && n.a.chans[k].state == Opened
    requires Finished(Flip(n), k) && NoDataTo(n.ba, k)
    ensures Free(n, k)
  {
    assert Bound(n) && Bound(Flip(n));
    forall i | 0 <= i < |n.ab| && (n.ab[i].Open? || (MaySpeak(n.b) && n.ab[i].Confirm?)) ensures n.ab[i].sender != k {
      assert Carried(n, i) && Welcome(n, i);
      assert n.ha.bind[k] in n.b.chans ==> Placed(Flip(n), n.ha.bind[k]);
    }
    forall i | 0 <= i < |n.ba| ensures !(n.ba[i].Confirm? && n.ba[i].recipient == k) { assert Carried(Flip(n), i); }
    forall r | r in n.b.chans && r in n.hb.bind && n.hb.bind[r] == k && MaySpeak(n.b) ensures Spent(n.b, r) {
      C.PeersAreMutual(n, k, r);
    }
  }

  /** The peer's EOF says that nothing more is coming. */
  lemma EofIsFinished(n: Net, k: u32)
    requires Agreed(n) && D.Delivering(Flip(n)) && Alive(Flip(n))
    requires k in n.a.chans && n.a.chans[k].state == Opened && n.a.chans[k].remoteEof
    ensures Finished(Flip(n), k) && NoDataTo(n.ba, k)
  {
    assert ChannelEof(k) in n.ha.log;
    assert D.Muted(Flip(n), k);
    C.LiveFacts(n, k);
    var r :| r in n.hb.bind && n.hb.bind[r] == k;
    C.PeersAreMutual(n, k, r);
    assert Bound(Flip(n));
    if r in n.b.chans { assert Placed(Flip(n), r); }
  }

  // ------------------------------------------------------------------
  // What a call may do without harm
  // ------------------------------------------------------------------

  /**
   * What the rules come down to, with the peer in view: nothing more is
   * coming to a channel that is closed, or to one whose window is overflowed
   * nothing that no longer fits.
   */
  ghost predicate Harmless(n: Net, c: Call) {
    match c
    case CallClose(x) =>
      x in n.a.chans ==>
        n.a.chans[x].state == Pending || (n.a.chans[x].state == Opened && Finished(Flip(n), x) && NoDataTo(n.ba, x))
    case CallAdjust(x, credit) => FitsWrapped(n, x, credit)
    case CallDisconnect(_, _) => n.a.state != Auth
    case _ => true
  }

  lemma CarefulIsHarmless(n: Net, c: Call)
    requires Lawful(n) && Sound(n) && Careful(n.a, c)
    ensures Harmless(n, c)
  {
    hide Agreed, C.Credit, D.Delivering, Alive;
    if c.CallClose? && c.id in n.a.chans && n.a.chans[c.id].state == Opened { EofIsFinished(n, c.id); }
  }

  /** The calls the rules are about change nothing when they are refused. */
  lemma RefusedIsNothing(n: Net, c: Call, s: Sink)
    requires c.CallClose? || c.CallAdjust? || c.CallDisconnect?
    requires CallOutcome(n.a, c, s).rc != Ok
    ensures CallA(n, c, s) == n
  {
    hide PushRc;
    assert n.ab + [] == n.ab && n.ha.log + [] == n.ha.log;
  }

  // ------------------------------------------------------------------
  // Calls keep both directions alive
  // ------------------------------------------------------------------

  lemma OpenAlive(n: Net, c: Call, s: Sink)
    requires Agreed(n) && Alive(n) && Alive(Flip(n)) && IdsLeft(CallA(n, c, s))
    requires c.CallOpen? && CallOutcome(n.a, c, s).eff.Add?
    ensures Alive(CallA(n, c, s)) && Alive(Flip(CallA(n, c, s)))
  {
    hide Agreed;
    var x, n' := NextId(n.a), CallA(n, c, s);
    FreshIsNobodysPeer(n, x);
    SpeakKeeps(n, n', CallOutcome(n.a, c, s).push);
    ListenKeeps(Flip(n), Flip(n'), CallOutcome(n.a, c, s).push);
  }

  lemma AcceptAlive(n: Net, c: Call, s: Sink)
    requires Agreed(n) && Alive(n) && Alive(Flip(n))
    requires c.CallAccept? && CallOutcome(n.a, c, s).eff.Put?
    ensures Alive(CallA(n, c, s)) && Alive(Flip(CallA(n, c, s)))
  {
    hide Agreed;
    var n' := CallA(n, c, s);
    C.LiveFacts(n, c.id);
    SpeakKeeps(n, n', CallOutcome(n.a, c, s).push);
    ListenKeeps(Flip(n), Flip(n'), CallOutcome(n.a, c, s).push);
  }

  /** A frees k, which harms nothing, and may say one last word about it. */
  ghost predicate Frees(n: Net, n': Net, k: u32, p: seq<Pdu>) {
    && n'.b == n.b && n'.hb == n.hb && n'.ba == n.ba && n'.ab == n.ab + p && |p| <= 1 && n'.a.state == n.a.state
    && k in n.a.chans && n'.a.chans == n.a.chans - {k} && n'.ha.bind == n.ha.bind && n'.ha.offered == n.ha.offered
    && n.ha.log <= n'.ha.log
    && (p != [] ==> p[0].OpenFail? || p[0].Close?) && (p != [] ==> Welcome(n', |n.ab|))
  }

  lemma FreeKeeps(n: Net, n': Net, k: u32, p: seq<Pdu>)
    requires Alive(n) && Alive(Flip(n)) && Free(n, k) && Frees(n, n', k, p)
    ensures Alive(n') && Alive(Flip(n'))
  {
    SpeakKeeps(n, n', p);
    assert Forgotten(Flip(n'), k);
    ListenKeeps(Flip(n), Flip(n'), p);
  }

  lemma RejectAlive(n: Net, c: Call, s: Sink)
    requires Agreed(n) && C.Credit(Flip(n)) && Alive(n) && Alive(Flip(n))
    requires c.CallAccept? && CallOutcome(n.a, c, s).eff.Drop?
    ensures Alive(CallA(n, c, s)) && Alive(Flip(CallA(n, c, s)))
  {
    var n', o, k := CallA(n, c, s), CallOutcome(n.a, c, s), c.id;
    PendingIsFree(n, k);
    RefusalIsWelcome(n, n', k, o.push[0]);
    hide Agreed, Alive, Free, Welcome;
    FreeKeeps(n, n', k, o.push);
  }

  lemma RefusalIsWelcome(n: Net, n': Net, k: u32, p: Pdu)
    requires Agreed(n) && k in n.a.chans && n.a.chans[k].state == Pending
    requires p.OpenFail? && p.recipient == n.a.chans[k].peerId && n'.ab == n.ab + [p]
    requires n'.b == n.b && n'.hb == n.hb && n'.ba == n.ba && n'.a.chans == n.a.chans - {k} && n'.ha.bind == n.ha.bind
    ensures Welcome(n', |n.ab|)
  {
    assert Bound(n) && Bound(Flip(n)) && Placed(n, k);
    var r := n.ha.bind[k];
    assert r in n.ha.bind.Values;
    forall i | 0 <= i < |n.ab| ensures !(n.ab[i].Confirm? && n.ab[i].recipient == r) { assert Carried(n, i); }
    forall i | 0 <= i < |n.ab| ensures !(n.ab[i].Data? && n.ab[i].recipient == r) { assert Carried(n, i); }
    forall j | 0 <= j < |n.ba| ensures !(n.ba[j].Open? && n.ba[j].sender == r) { assert Carried(Flip(n), j); }
  }

  lemma CloseAlive(n: Net, c: Call, s: Sink)
    requires Agreed(n) && C.Credit(Flip(n)) && D.Delivering(Flip(n)) && Alive(n) && Alive(Flip(n))
    requires c.CallClose? && CallOutcome(n.a, c, s).eff.Drop? && Harmless(n, c)
    ensures Alive(CallA(n, c, s)) && Alive(Flip(CallA(n, c, s)))
  {
    var n', o, k := CallA(n, c, s), CallOutcome(n.a, c, s), c.id;
    if n.a.chans[k].state == Pending { PendingIsFree(n, k); } else { FinishedIsFree(n, k); }
    C.LiveFacts(n, k);
    assert o.push != [] ==> Welcome(n', |n.ab|) by { assert Paired(n); }
    hide Agreed, C.Credit, D.Delivering, Alive, Free, Welcome;
    FreeKeeps(n, n', k, o.push);
  }

  lemma PlainShape(p: Peer, c: Call, s: Sink)
    requires var o := CallOutcome(p, c, s); o.eff.Keep? || o.eff.Burn? || (o.eff.Put? && !c.CallAccept?)
    ensures var o := CallOutcome(p, c, s);
      && |o.push| <= 1
      && (o.push != [] ==> o.push[0].Data? || o.push[0].Eof? || o.push[0].Window? || o.push[0].Disconnect?)
      && (o.push != [] && o.push[0].Data? ==>
            && p.state == Ready && c.CallSend? && c.id in p.chans && p.chans[c.id].state == Opened && !p.chans[c.id].localEof
            && o.push[0].recipient == p.chans[c.id].peerId)
      && (o.eff.Put? ==>
            && o.eff.id in p.chans && o.eff.ch.state == p.chans[o.eff.id].state
            && (p.chans[o.eff.id].localEof ==> o.eff.ch.localEof)
            && o.eff.ch.remoteEof == p.chans[o.eff.id].remoteEof)
      && (c.CallOpen? ==> o.rc != Ok)
  {
  }

  lemma PlainAlive(n: Net, c: Call, s: Sink)
    requires Agreed(n) && Alive(n) && Alive(Flip(n))
    requires var o := CallOutcome(n.a, c, s); o.eff.Keep? || o.eff.Burn? || (o.eff.Put? && !c.CallAccept?)
    ensures Alive(CallA(n, c, s)) && Alive(Flip(CallA(n, c, s)))
  {
    PlainSpeaks(n, c, s);
    PlainListens(n, c, s);
    hide *;
    SpeakKeeps(n, CallA(n, c, s), CallOutcome(n.a, c, s).push);
    ListenKeeps(Flip(n), Flip(CallA(n, c, s)), CallOutcome(n.a, c, s).push);
  }

  lemma PlainSpeaks(n: Net, c: Call, s: Sink)
    requires Agreed(n) && Alive(n)
    requires var o := CallOutcome(n.a, c, s); o.eff.Keep? || o.eff.Burn? || (o.eff.Put? && !c.CallAccept?)
    ensures Speaks(n, CallA(n, c, s), CallOutcome(n.a, c, s).push)
  {
    hide Agreed, CallOutcome, NoteCall, Alive, StillBound, Apply, Welcome;
    PlainShape(n.a, c, s);
    CallEofs(n.a, c, s);
    ApplyParts(n.a, CallOutcome(n.a, c, s));
    var n', o := CallA(n, c, s), CallOutcome(n.a, c, s);
    CallNames(n.ha, n.a, c, o);
    if o.push != [] && o.push[0].Data? { PlainDataFinds(n, c, s); }
    PlainStillBound(n, c, s);
    PlainWelcome(n, n', o.push);
  }

  /** No channel comes or goes, and none gives up its EOF. */
  lemma PlainStillBound(n: Net, c: Call, s: Sink)
    requires var o := CallOutcome(n.a, c, s); o.eff.Keep? || o.eff.Burn? || (o.eff.Put? && !c.CallAccept?)
    ensures var n' := CallA(n, c, s); StillBound(n, n') && n'.a.chans.Keys == n.a.chans.Keys
  {
    PlainShape(n.a, c, s);
    hide CallOutcome, NoteCall;
    CallNames(n.ha, n.a, c, CallOutcome(n.a, c, s));
  }

  lemma PlainWelcome(n: Net, n': Net, p: seq<Pdu>)
    requires n'.ab == n.ab + p && |p| <= 1 && n'.b == n.b
    requires p != [] ==> p[0].Data? || p[0].Eof? || p[0].Window? || p[0].Disconnect?
    requires p != [] && p[0].Data? ==> p[0].recipient in n.b.chans
    ensures p != [] ==> Welcome(n', |n.ab|)
  {
  }

  /** DATA goes out only to a channel that is still there. */
  lemma PlainDataFinds(n: Net, c: Call, s: Sink)
    requires Agreed(n) && Alive(n) && n.a.state == Ready && c.CallSend?
    requires c.id in n.a.chans && n.a.chans[c.id].state == Opened && !n.a.chans[c.id].localEof
    ensures c.id in n.ha.bind && n.ha.bind[c.id] == n.a.chans[c.id].peerId && n.ha.bind[c.id] in n.b.chans
  {
    hide Agreed;
    C.LiveFacts(n, c.id);
  }

  lemma PlainListens(n: Net, c: Call, s: Sink)
    requires Alive(Flip(n))
    requires var o := CallOutcome(n.a, c, s); o.eff.Keep? || o.eff.Burn? || (o.eff.Put? && !c.CallAccept?)
    ensures Listens(Flip(n), Flip(CallA(n, c, s)), CallOutcome(n.a, c, s).push)
  {
    PlainShape(n.a, c, s);
    hide CallOutcome, NoteCall;
    var n', o := CallA(n, c, s), CallOutcome(n.a, c, s);
    CallNames(n.ha, n.a, c, o);
    CallLogGrows(n.ha, n.a, c, o);
  }

  lemma CallLogGrows(h: Hist, p: Peer, c: Call, o: Outcome)
    ensures h.log <= NoteCall(h, p, c, o).log
  {
  }

  lemma CallKinds(p: Peer, c: Call, s: Sink)
    ensures var o := CallOutcome(p, c, s);
      && (o.eff.Add? ==> c.CallOpen?) && (o.eff.Drop? ==> c.CallAccept? || c.CallClose?)
  {
  }

  lemma CallAlive(n: Net, c: Call, s: Sink)
    requires Agreed(n) && C.Credit(Flip(n)) && D.Delivering(Flip(n)) && Alive(n) && Alive(Flip(n))
    requires Harmless(n, c) && IdsLeft(CallA(n, c, s))
    ensures Alive(CallA(n, c, s)) && Alive(Flip(CallA(n, c, s)))
  {
    hide *;
    var o := CallOutcome(n.a, c, s);
    CallKinds(n.a, c, s);
    if o.eff.Add? { OpenAlive(n, c, s); }
    else if c.CallAccept? && o.eff.Put? { AcceptAlive(n, c, s); }
    else if o.eff.Drop? { if c.CallAccept? { RejectAlive(n, c, s); } else { CloseAlive(n, c, s); } }
    else { PlainAlive(n, c, s); }
  }

  // ------------------------------------------------------------------
  // Deliveries keep both directions alive
  // ------------------------------------------------------------------

  /** The peer an OPEN or a CONFIRM brings is neither refused nor closed. */
  lemma NewPeerIsUnrefused(n: Net)
    requires Agreed(n) && Alive(n) && n.ba != [] && (n.ba[0].Open? || n.ba[0].Confirm?)
    ensures Unrefused(n, n.ba[0].sender)
  {
    C.NetFacts(n);
    assert Bound(n) && Bound(Flip(n)) && Carried(Flip(n), 0);
    forall i | 0 <= i < |n.ab| && (n.ab[i].OpenFail? || n.ab[i].Close?) ensures n.ab[i].recipient != n.ba[0].sender {
      assert Carried(n, i) && Welcome(n, i);
    }
  }

  /** remote_eof is only ever set together with its event. */
  lemma ReceiveEofs(p: Peer, m: Pdu, s: Sink)
    requires OwnIds(p)
    ensures var o := ReceiveOutcome(p, m, s);
      match o.eff {
        case Put(id, ch) =>
          && id in p.chans && (p.chans[id].localEof ==> ch.localEof)
          && (ch.remoteEof ==> p.chans[id].remoteEof || o.events == [ChannelEof(id)])
        case Add(ch) => !ch.remoteEof
        case _ => true
      }
  {
  }

  /** A takes the PDU at the head of its link and does not fault. */
  ghost predicate Takes(n: Net, s: Sink) {
    && n.ba != [] && n.a.state != Error && n.a.state != Closed
    && ReceiveOutcome(n.a, n.ba[0], s).state != Error
  }

  lemma ReceiveDrops(p: Peer, m: Pdu, s: Sink)
    requires p.state != Error && ReceiveOutcome(p, m, s).eff.Drop?
    ensures var o := ReceiveOutcome(p, m, s);
      && (m.OpenFail? || m.Close?) && o.eff.id == m.recipient && m.recipient in p.chans
      && (m.OpenFail? ==> p.chans[m.recipient].state == Opening)
      && o.state != Error && o.push == []
  {
  }

  lemma RefusedIsFree(n: Net, k: u32)
    requires Agreed(n) && Alive(Flip(n)) && n.ba != [] && n.ba[0].OpenFail? && n.ba[0].recipient == k
    requires k in n.a.chans && n.a.chans[k].state == Opening
    ensures Free(n, k)
  {
    assert Welcome(Flip(n), 0);
    assert Bound(n) && Placed(n, k);
    forall i | 0 <= i < |n.ab| && (n.ab[i].Open? || n.ab[i].Confirm?) ensures n.ab[i].sender != k {
      assert Carried(n, i);
    }
  }

  lemma ClosedIsFree(n: Net, n': Net, k: u32)
    requires Agreed(n) && D.Delivering(Flip(n)) && Alive(Flip(n)) && n.ba != [] && n.ba[0] == Close(k)
    requires n'.ba == n.ba[1..] && n'.b == n.b && n'.hb == n.hb
    ensures Unannounced(n, k) && Forgotten(Flip(n'), k)
  {
    assert Welcome(Flip(n), 0);
    assert k in n.ha.bind && k in n.hb.bind.Values by { assert Bound(Flip(n)) && Carried(Flip(n), 0); }
    NamedIsUnannounced(n, k);
    assert D.Ended(Flip(n));
    hide Agreed;
    forall i | 0 <= i < |n'.ba|
      ensures !(n'.ba[i].Confirm? && n'.ba[i].recipient == k) && !(n'.ba[i].Data? && n'.ba[i].recipient == k)
    {
      assert n'.ba[i] == n.ba[i + 1];
    }
  }

  /** A channel freed by a received PDU is free to go. */
  lemma DroppedIsFree(n: Net, s: Sink)
    requires Agreed(n) && D.Delivering(Flip(n)) && Alive(Flip(n)) && Takes(n, s)
    requires ReceiveOutcome(n.a, n.ba[0], s).eff.Drop?
    ensures var k := ReceiveOutcome(n.a, n.ba[0], s).eff.id;
      Unannounced(n, k) && Forgotten(Flip(DeliverA(n, s)), k)
  {
    hide Agreed, D.Delivering, Alive, ReceiveOutcome;
    var p, n' := n.ba[0], DeliverA(n, s);
    ReceiveDrops(n.a, p, s);
    if p.Close? {
      ClosedIsFree(n, n', p.recipient);
    } else {
      RefusedIsFree(n, p.recipient);
      assert forall i :: 0 <= i < |n'.ba| ==> n'.ba[i] == n.ba[i + 1];
    }
  }

  lemma DeliverListens(n: Net, s: Sink)
    requires Agreed(n) && D.Delivering(Flip(n)) && Alive(Flip(n)) && Takes(n, s) && IdsLeft(DeliverA(n, s))
    ensures Listens(Flip(n), Flip(DeliverA(n, s)), ReceiveOutcome(n.a, n.ba[0], s).push)
  {
    hide Agreed, D.Delivering, ReceiveOutcome;
    var p, n' := n.ba[0], DeliverA(n, s);
    var o := ReceiveOutcome(n.a, p, s);
    if o.eff.Drop? { DroppedIsFree(n, s); }
    C.LiveFacts(n, NextId(n.a));
    ReceiveEofs(n.a, p, s);
    ReceiveSpeaks(n.a, p, s);
    ReceiveShape(n.a, p, s);
    NewBindUnrefused(n, s);
    hide Forgotten;
    assert forall r :: r in n.a.chans && r !in n'.a.chans ==> Forgotten(Flip(n'), r);
    assert forall r :: r in n.a.chans && n.a.chans[r].remoteEof ==> ChannelEof(r) in n.ha.log;
  }

  /** A channel that has just learnt its peer has not been refused. */
  lemma NewBindUnrefused(n: Net, s: Sink)
    requires Agreed(n) && Alive(Flip(n)) && Takes(n, s) && IdsLeft(DeliverA(n, s))
    ensures forall r :: r in DeliverA(n, s).ha.bind && r !in n.ha.bind ==>
      forall i :: 0 <= i < |n.ba| && n.ba[i].OpenFail? ==> n.ba[i].recipient != r
  {
    hide Agreed, ReceiveOutcome;
    var p, n' := n.ba[0], DeliverA(n, s);
    ReceiveShape(n.a, p, s);
    var o := ReceiveOutcome(n.a, p, s);
    if o.eff.Add? { FreshIsNobodysPeer(n, NextId(n.a)); }
    forall r, i | r in n'.ha.bind && r !in n.ha.bind && 0 <= i < |n.ba| && n.ba[i].OpenFail?
      ensures n.ba[i].recipient != r
    {
      assert Welcome(Flip(n), i);
      assert p.Confirm? ==> r == p.recipient;
    }
  }

  /** What A answers a refused OPEN with is welcome at B. */
  lemma AnswerIsWelcome(n: Net, n': Net, p: Pdu)
    requires Agreed(n) && n.ba != [] && n.ba[0].Open? && n'.ba == n.ba[1..] && n'.ab == n.ab + [p]
    requires p.OpenFail? && p.recipient == n.ba[0].sender
    requires n'.a.chans == n.a.chans && n'.ha.bind == n.ha.bind && n'.b == n.b && n'.hb == n.hb
    ensures Welcome(n', |n.ab|)
  {
    var r := p.recipient;
    assert Bound(n) && Bound(Flip(n)) && Carried(Flip(n), 0);
    forall i | 0 <= i < |n.ab|
      ensures !(n.ab[i].Confirm? && n.ab[i].recipient == r) && !(n.ab[i].Data? && n.ab[i].recipient == r)
    {
      assert Carried(n, i);
    }
    forall j | 0 <= j < |n'.ba| ensures !(n'.ba[j].Open? && n'.ba[j].sender == r) { assert n'.ba[j] == n.ba[j + 1]; }
    forall k | k in n.ha.bind ensures n.ha.bind[k] != r { assert n.ha.bind[k] in n.ha.bind.Values; }
  }

  /** What a received PDU makes A answer. */
  lemma ReceiveAnswers(p: Peer, m: Pdu, s: Sink)
    ensures var o := ReceiveOutcome(p, m, s);
      o.push != [] ==>
        && |o.push| == 1 && (o.push[0].Pong? || (m.Open? && o.eff == Keep && o.push[0].OpenFail? && o.push[0].recipient == m.sender))
  {
  }

  lemma DeliverSpeaks(n: Net, s: Sink)
    requires Agreed(n) && D.Delivering(Flip(n)) && Alive(n) && Alive(Flip(n)) && Takes(n, s) && IdsLeft(DeliverA(n, s))
    ensures Speaks(n, DeliverA(n, s), ReceiveOutcome(n.a, n.ba[0], s).push)
  {
    hide Agreed, D.Delivering, ReceiveOutcome;
    var p, n' := n.ba[0], DeliverA(n, s);
    var o := ReceiveOutcome(n.a, p, s);
    if o.eff.Drop? { DroppedIsFree(n, s); }
    C.LiveFacts(n, NextId(n.a));
    ReceiveEofs(n.a, p, s);
    ReceiveSpeaks(n.a, p, s);
    ReceiveShape(n.a, p, s);
    ReceiveAnswers(n.a, p, s);
    if o.push != [] && o.push[0].OpenFail? { AnswerIsWelcome(n, n', o.push[0]); }
    if p.Open? || p.Confirm? {
      NewPeerIsUnrefused(n);
      assert Welcome(Flip(n), 0);
    }
    hide Forgotten, Alive, Unannounced, Unrefused, Welcome;
    assert StillBound(n, n');
    assert o.push != [] ==> Welcome(n', |n.ab|) by { if o.push != [] && o.push[0].Pong? { PongIsWelcome(n', |n.ab|); } }
  }

  lemma PongIsWelcome(n: Net, i: nat)
    requires i < |n.ab| && n.ab[i].Pong?
    ensures Welcome(n, i)
  {
  }

  lemma DeliverAlive(n: Net, s: Sink)
    requires Agreed(n) && D.Delivering(Flip(n)) && Alive(n) && Alive(Flip(n)) && Takes(n, s) && IdsLeft(DeliverA(n, s))
    ensures Alive(DeliverA(n, s)) && Alive(Flip(DeliverA(n, s)))
  {
    DeliverSpeaks(n, s);
    DeliverListens(n, s);
    hide *;
    SpeakKeeps(n, DeliverA(n, s), ReceiveOutcome(n.a, n.ba[0], s).push);
    ListenKeeps(Flip(n), Flip(DeliverA(n, s)), ReceiveOutcome(n.a, n.ba[0], s).push);
  }

  // ------------------------------------------------------------------
  // Every careful run
  // ------------------------------------------------------------------

  lemma CallSound(n: Net, c: Call, s: Sink)
    requires Lawful(n) && Sound(n) && Compatible(n) && Harmless(n, c) && IdsLeft(CallA(n, c, s))
    ensures Lawful(CallA(n, c, s)) && Sound(CallA(n, c, s))
  {
    hide Agreed, D.Delivering, C.Credit, Legible, Alive, Funded, CallA;
    assert c.CallDisconnect? ==> n.a.state != Auth;
    assert c.CallAdjust? ==> FitsWrapped(n, c.id, c.credit);
    hide Harmless;
    CallKeeps(n, c, s);
    D.CallDelivers(n, c, s);
    C.CallCreditOut(n, c, s);
    C.CallCreditIn(n, c, s);
    CallLegible(n, c, s);
    CallAlive(n, c, s);
    CallFunds(n, c, s);
    CallStaysFunded(n, c, s);
  }

  lemma DeliverSound(n: Net, s: Sink)
    requires Lawful(n) && Sound(n) && Compatible(n) && IdsLeft(DeliverA(n, s))
    ensures Lawful(DeliverA(n, s)) && Sound(DeliverA(n, s))
  {
    hide Agreed, D.Delivering, C.Credit, Alive, Funded;
    assert n.a.state != Error;
    hide Legible;
    if n.ba != [] && n.a.state != Closed {
      hide DeliverA;
      DeliverKeeps(n, s);
      D.DeliverDelivers(n, s);
      C.DeliverCreditOut(n, s);
      C.DeliverCreditIn(n, s);
      NoFault(n, s);
      DeliverLegible(n, s);
      DeliverAlive(n, s);
      DeliverFunds(n, s);
      DeliverStaysFunded(n, s);
    }
  }

  lemma CarefulSound(n: Net, c: Call, s: Sink)
    requires Lawful(n) && Sound(n) && Compatible(n) && CarefulCall(n.a, c, s) && IdsLeft(CallA(n, c, s))
    ensures Lawful(CallA(n, c, s)) && Sound(CallA(n, c, s))
  {
    if !Careful(n.a, c) {
      RefusedIsNothing(n, c, s);
    } else {
      hide Lawful, Sound, Compatible, CallA, CallOutcome, Careful;
      CarefulIsHarmless(n, c);
      CallSound(n, c, s);
    }
  }

  lemma StepSound(n: Net, m: Move)
    requires Lawful(n) && Sound(n) && Compatible(n) && CarefulMove(n, m) && IdsLeft(Step(n, m))
    ensures Lawful(Step(n, m)) && Sound(Step(n, m))
  {
    var f := Flip(n);
    assert Flip(f) == n;
    hide Agreed, D.Delivering, C.Credit, Legible, Alive, Funded, CarefulCall, CallA, DeliverA;
    match m {
      case MoveA(ActCall(c, s)) => CarefulSound(n, c, s);
      case MoveA(ActDeliver(s)) => DeliverSound(n, s);
      case MoveB(ActCall(c, s)) =>
        FlipAgreed(n); CarefulSound(f, c, s); FlipAgreed(CallA(f, c, s)); assert Flip(Flip(CallA(f, c, s))) == CallA(f, c, s);
      case MoveB(ActDeliver(s)) =>
        FlipAgreed(n); DeliverSound(f, s); FlipAgreed(DeliverA(f, s)); assert Flip(Flip(DeliverA(f, s))) == DeliverA(f, s);
    }
  }

  lemma StepCompatible(n: Net, m: Move)
    requires Compatible(n)
    ensures Compatible(Step(n, m))
  {
  }

  lemma {:induction false} RunSound(n: Net, moves: seq<Move>)
    requires Lawful(n) && Sound(n) && Compatible(n) && CarefulRun(n, moves) && IdsLeft(Run(n, moves))
    ensures Lawful(Run(n, moves)) && Sound(Run(n, moves))
    decreases |moves|
  {
    hide Step, Lawful, Sound, Compatible, CarefulMove;
    if moves != [] {
      IdsOnlyGrow(Step(n, moves[0]), moves[1..]);
      StepSound(n, moves[0]);
      StepCompatible(n, moves[0]);
      RunSound(Step(n, moves[0]), moves[1..]);
    }
  }

  /** What a handshake tells the host. */
  predicate Greetings(log: seq<Event>) {
    forall i :: 0 <= i < |log| ==>
      log[i].HelloReceived? || log[i].KxComplete? || log[i].AuthDeviceEvent? || log[i].Authenticated?
  }

  /** A history in which there is nothing but a handshake. */
  predicate Unnoted(h: Hist) {
    h.bind == map[] && h.offered == {} && h.sent == [] && h.wrapped == {} && Greetings(h.log)
  }

  /**
   * Where the mux begins: A is the server and has just accepted; its AUTH_OK
   * is on the link to the client, or has been delivered; no ids are taken.
   */
  predicate Begins(n: Net) {
    && n.a.role == Server && n.b.role == Client && n.a.state == Ready
    && ((n.b.state == Ready && n.ab == []) ||
        (n.b.state == Auth && |n.ab| == 1 && n.ab[0].AuthOk?
         && PduLen(n.ab[0]) <= n.b.cfg.maxRecord && |n.ab[0].claims| <= CLAIMS_MAX))
    && n.ba == [] && n.a.chans == map[] && n.b.chans == map[] && n.a.next == n.b.next == 0
    && Unnoted(n.ha) && Unnoted(n.hb)
  }

  lemma {:induction false} GreetingsCarryNothing(log: seq<Event>, r: u32)
    requires Greetings(log)
    ensures GotOn(log, r) == []
    decreases |log|
  {
    if log != [] { GreetingsCarryNothing(log[..|log| - 1], r); }
  }

  lemma BeginLawful(n: Net)
    requires Begins(n)
    ensures Lawful(n) && Sound(n)
  {
    forall r ensures GotOn(n.ha.log, r) == [] && GotOn(n.hb.log, r) == [] {
      GreetingsCarryNothing(n.ha.log, r);
      GreetingsCarryNothing(n.hb.log, r);
    }
  }

  /** Agreement, delivery and credit need no rules: they hold in every run. */
  lemma RunLawful(n: Net, moves: seq<Move>)
    requires Begins(n) && IdsLeft(Run(n, moves))
    ensures Lawful(Run(n, moves))
  {
    BeginLawful(n);
    hide Agreed, D.Delivering, C.Credit, Begins, Sound, Run;
    D.RunDelivers(n, moves);
    C.RunCredit(n, moves);
  }

  /**
   * Honest-pair safety: no careful run from the beginning puts either side in
   * ERROR, whatever the interleaving, the room left and the disconnects.
   */
  lemma HonestPairsAreSafe(n: Net, moves: seq<Move>)
    requires Begins(n) && Compatible(n) && CarefulRun(n, moves) && IdsLeft(Run(n, moves))
    ensures Run(n, moves).a.state != Error && Run(n, moves).b.state != Error
  {
    BeginLawful(n);
    RunSound(n, moves);
    assert Legible(Run(n, moves)) && Legible(Flip(Run(n, moves)));
  }
}
