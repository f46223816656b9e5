/**
 * The operations of `Engine` in the order src/sodchan.c performs their steps:
 * send first, then update the slot.  Each lemma turns one decided outcome
 * into that sequence.
 */
module Sequenced {
  import opened Base
  import opened Mux
  import opened Wire
  import opened WirePdu
  import opened Crypto
  import opened Engine
  import T = Table

  lemma SettleQuietly(cr: Suite, c: Ctx, o: Outcome)
    requires o.push == []
    ensures Settle(cr, c, o) == c.(state := o.state, table := T.Change(c.table, o.eff), log := c.log + o.events)
  {
  }

  /** A PDU whose loss is ignored. */
  lemma SettleTried(cr: Suite, c: Ctx, o: Outcome, p: Pdu)
    requires Legal(p) && o.push == TryPush(c.id.cfg, SinkOf(c), p)
    requires AllLegal(o.push) && |o.push| <= 1 && (o.push != [] ==> c.push.Some?)
    ensures Settle(cr, c, o) == SsSend(cr, c, p).0.(state := o.state, table := T.Change(c.table, o.eff), log := c.log + o.events)
  {
    hide T.Change;
  }

  lemma SettleRefused(cr: Suite, c: Ctx, rc: Rc)
    ensures Settle(cr, c, Refuse(c.state, rc)) == c && Settle(cr, c, Quiet(c.state)) == c
    ensures Settle(cr, c, Fatal(rc)) == Fail(c, rc)
  {
    assert c.log + [] == c.log;
  }

  // ------------------------------------------------------------------
  // Received PDUs
  // ------------------------------------------------------------------

  lemma MuxIs(cr: Suite, c: Ctx, plain: bytes, p: Pdu)
    requires Decode(plain) == Some(p)
    ensures var o := MuxOutcome(c, p);
      && AllLegal(o.push) && |o.push| <= 1 && (o.push != [] ==> c.push.Some?) && OnMux(cr, c, plain) == Settle(cr, c, o)
  {
    HandleLegal(c.id.cfg, c.state, T.Look(c.table, PduTarget(p)), T.CanAlloc(c.table, c.id.cfg.maxChannels),
                c.table.next, SinkOf(c), p);
    PongByType(plain);
    if p.Pong? { SettleRefused(cr, c, ErrProtocol); }
    hide Decode, Settle;
  }

  lemma OpenIs(cr: Suite, c: Ctx, plain: bytes, p: Pdu)
    requires Decode(plain) == Some(p) && p.Open?
    ensures var name := CString(p.name);
      var mp := if p.maxPacket != 0 then p.maxPacket else c.id.cfg.maxPacket;
      var ch := Channel(Pending, c.table.next, p.sender, true, name, p.initWindow, c.id.cfg.initialWindow, mp, false, false);
      OnMux(cr, c, plain) ==
        if !NameAllowed(c.id.cfg, name) then SsSend(cr, c, OpenFail(p.sender, REASON_ADMIN_PROHIBITED, NOT_ALLOWED)).0
        else if !T.CanAlloc(c.table, c.id.cfg.maxChannels) then SsSend(cr, c, OpenFail(p.sender, REASON_RESOURCE_SHORTAGE, [])).0
        else Emit(c.(table := T.Change(c.table, Add(ch))), ChannelOpen(c.table.next, p.sender, name, p.initWindow, mp))
  {
    MuxIs(cr, c, plain, p);
    var o := MuxOutcome(c, p);
    hide Settle, OnMux, Decode, NameAllowed, T.CanAlloc, T.Change, SsSend, PushRc;
    assert c.log + [] == c.log && T.Change(c.table, Keep) == c.table by { KeepIs(c.table); }
    if !NameAllowed(c.id.cfg, CString(p.name)) {
      SettleTried(cr, c, o, OpenFail(p.sender, REASON_ADMIN_PROHIBITED, NOT_ALLOWED));
      SendKeeps(cr, c, OpenFail(p.sender, REASON_ADMIN_PROHIBITED, NOT_ALLOWED));
    } else if !T.CanAlloc(c.table, c.id.cfg.maxChannels) {
      SettleTried(cr, c, o, OpenFail(p.sender, REASON_RESOURCE_SHORTAGE, []));
      SendKeeps(cr, c, OpenFail(p.sender, REASON_RESOURCE_SHORTAGE, []));
    } else {
      SettleQuietly(cr, c, o);
    }
  }

  lemma KeepIs(t: T.Table)
    ensures T.Change(t, Keep) == t
  {
  }

  lemma SendKeeps(cr: Suite, c: Ctx, p: Pdu)
    requires Legal(p)
    ensures var d := SsSend(cr, c, p).0; d == c.(push := d.push, out := d.out)
  {
    hide PushRc, Encode;
  }

  lemma SendFails(cr: Suite, c: Ctx, p: Pdu)
    requires Legal(p)
    ensures SsSend(cr, c, p).1 == PushRc(c.id.cfg, SinkOf(c), PduLen(p)) && (SsSend(cr, c, p).1 != Ok ==> SsSend(cr, c, p).0 == c)
  {
    hide PushRc, Encode;
  }

  /** CONFIRM, OPEN_FAIL, DATA, WINDOW, EOF and CLOSE answer nothing: one slot, one event. */
  lemma TargetedIs(cr: Suite, c: Ctx, plain: bytes, p: Pdu)
    requires Decode(plain) == Some(p) && PduTarget(p).Some?
    ensures var o := MuxOutcome(c, p);
      && o.push == []
      && OnMux(cr, c, plain) == c.(state := o.state, table := T.Change(c.table, o.eff), log := c.log + o.events)
  {
    MuxIs(cr, c, plain, p);
    SettleQuietly(cr, c, MuxOutcome(c, p)) by { hide Settle, OnMux, Decode, T.Change; }
    hide Settle, OnMux, Decode, T.Change;
  }

  lemma PingIs(cr: Suite, c: Ctx, plain: bytes, x: u32)
    requires Decode(plain) == Some(Ping(x))
    ensures OnMux(cr, c, plain) == SsSend(cr, Emit(c, PingEvent), Pong(x)).0
  {
    MuxIs(cr, c, plain, Ping(x));
    KeepIs(c.table);
    var o := MuxOutcome(c, Ping(x));
    hide Settle, OnMux, Decode, T.Change, Encode;
    SettleTried(cr, c, o, Pong(x));
  }

  lemma RestIs(cr: Suite, c: Ctx, plain: bytes, p: Pdu)
    requires Decode(plain) == Some(p)
    ensures p.Disconnect? ==> OnMux(cr, c, plain) == Emit(c.(state := Closed), Disconnected(p.reason))
    ensures p.Pong? ==> OnMux(cr, c, plain) == c
    ensures p.AuthDevice? || p.AuthOk? || p.AuthFail? ==> OnMux(cr, c, plain) == Fail(c, ErrProtocol)
  {
    MuxIs(cr, c, plain, p);
    SettleRefused(cr, c, ErrProtocol);
    if p.Disconnect? { SettleQuietly(cr, c, MuxOutcome(c, p)); }
    KeepIs(c.table);
    hide Settle, OnMux, Decode, T.Change;
  }

  // ------------------------------------------------------------------
  // Host calls
  // ------------------------------------------------------------------

  /** A call that sends one PDU and then records it, or is refused with the given code. */
  lemma SendsThen(cr: Suite, c: Ctx, call: Call, p: Pdu, eff: Effect, events: seq<Event>, refusal: Option<Rc>)
    requires Legal(p)
    requires var rc := PushRc(c.id.cfg, SinkOf(c), PduLen(p));
      CallOutcome(c, call) ==
        if rc == Ok then Outcome(Ok, c.state, eff, [p], events)
        else Refuse(c.state, if refusal.Some? then refusal.value else rc)
    ensures var (d, rc) := SsSend(cr, c, p);
      HostCall(cr, c, call) ==
        if rc == Ok then (d.(table := T.Change(c.table, eff), log := c.log + events), Ok)
        else (c, if refusal.Some? then refusal.value else rc)
  {
    var o := CallOutcome(c, call);
    CallPush(c, call);
    if PushRc(c.id.cfg, SinkOf(c), PduLen(p)) == Ok {
      SettleTried(cr, c, o, p);
      hide Settle, T.Change, CallOutcome, PushRc;
      SendKeeps(cr, c, p);
    } else {
      SettleRefused(cr, c, o.rc);
    }
  }

  lemma CallPush(c: Ctx, call: Call)
    ensures var o := CallOutcome(c, call); AllLegal(o.push) && |o.push| <= 1 && (o.push != [] ==> c.push.Some?)
  {
    PerformLegal(c.id.cfg, c.state, T.Look(c.table, CallTarget(call)), T.CanAlloc(c.table, c.id.cfg.maxChannels),
                 c.table.next, SinkOf(c), call);
    hide Perform;
  }

  lemma Refused(cr: Suite, c: Ctx, call: Call, rc: Rc)
    requires CallOutcome(c, call) == Refuse(c.state, rc)
    ensures HostCall(cr, c, call) == (c, rc)
  {
    SettleRefused(cr, c, rc);
  }

  /** A call that tries to send and goes on regardless. */
  lemma TriesThen(cr: Suite, c: Ctx, call: Call, p: Pdu, st: State, eff: Effect)
    requires Legal(p) && CallOutcome(c, call) == Outcome(Ok, st, eff, TryPush(c.id.cfg, SinkOf(c), p), [])
    ensures HostCall(cr, c, call) == (SsSend(cr, c, p).0.(state := st, table := T.Change(c.table, eff)), Ok)
  {
    CallPush(c, call);
    SettleTried(cr, c, CallOutcome(c, call), p);
    hide Settle, T.Change, CallOutcome, PushRc;
    SendKeeps(cr, c, p);
    assert c.log + [] == c.log;
  }

  /** A call that sends nothing. */
  lemma SilentThen(cr: Suite, c: Ctx, call: Call, st: State, eff: Effect)
    requires CallOutcome(c, call) == Outcome(Ok, st, eff, [], [])
    ensures HostCall(cr, c, call) == (c.(state := st, table := T.Change(c.table, eff)), Ok)
  {
    SettleQuietly(cr, c, CallOutcome(c, call));
    hide Settle, T.Change, CallOutcome;
    assert c.log + [] == c.log;
  }

  /** The slot table has no part in sending. */
  lemma SendIgnoresTable(cr: Suite, c: Ctx, t: T.Table, p: Pdu)
    requires Legal(p)
    ensures SsSend(cr, c.(table := t), p) == (SsSend(cr, c, p).0.(table := t), SsSend(cr, c, p).1)
  {
    hide PushRc, Encode;
  }

  /** An open takes its slot and id first, and gives the slot back when nothing fits. */
  lemma OpenCallIs(cr: Suite, c: Ctx, name: bytes)
    requires c.state == Ready && 0 < |name| <= CHANNEL_NAME_MAX && NameAllowed(c.id.cfg, name)
    requires T.CanAlloc(c.table, c.id.cfg.maxChannels)
    ensures var ch := BLANK.(state := Opening, localId := c.table.next, recvWindow := c.id.cfg.initialWindow,
                             maxPacket := c.id.cfg.maxPacket, name := name);
      var p := Open(c.table.next, c.id.cfg.initialWindow, c.id.cfg.maxPacket, name);
      var (d, rc) := SsSend(cr, c, p);
      HostCall(cr, c, CallOpen(name)) ==
        if rc == Ok then (d.(table := T.Change(c.table, Add(ch))), Ok) else (c.(table := T.Change(c.table, Burn)), ErrFull)
  {
    var ch := BLANK.(state := Opening, localId := c.table.next, recvWindow := c.id.cfg.initialWindow,
                     maxPacket := c.id.cfg.maxPacket, name := name);
    var p, call := Open(c.table.next, c.id.cfg.initialWindow, c.id.cfg.maxPacket, name), CallOpen(name);
    var o := CallOutcome(c, call);
    CallPush(c, call);
    hide NameAllowed, T.CanAlloc, T.Change, Settle, Encode;
    assert c.log + [] == c.log;
    if PushRc(c.id.cfg, SinkOf(c), PduLen(p)) == Ok {
      SettleTried(cr, c, o, p);
      SendKeeps(cr, c, p);
    } else {
      SettleQuietly(cr, c, o);
    }
  }

  /** One pass of the input loop. */
  lemma ProcessIs(cr: Suite, s: Side)
    requires !Stopped(s.c)
    ensures var r := Parse(s.inp, Limit(s.c));
      && (r.NeedMore? ==> Process(cr, s) == s)
      && (r.BadFrame? ==> Process(cr, s) == s.(c := Fail(s.c, ErrProtocol)))
      && (r.Framed? && OnFrame(cr, s.c, r.body).state == Error ==> Process(cr, s) == s.(c := OnFrame(cr, s.c, r.body)))
      && (r.Framed? && OnFrame(cr, s.c, r.body).state != Error ==>
            Process(cr, s) == Process(cr, Side(OnFrame(cr, s.c, r.body), s.inp[r.consumed..])))
  {
    hide Parse, OnFrame, Limit;
  }

  /** What is within the frame limit is short. */
  lemma RecordFits(c: Ctx, n: nat)
    ensures PushRc(c.id.cfg, SinkOf(c), n) == Ok ==> c.push.Some? && 0 < n <= IN_BUF_SIZE
  {
  }
}
