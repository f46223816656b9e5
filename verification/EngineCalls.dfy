/**
 * Host calls are all or nothing, and the secretstream counter moves exactly
 * when one whole frame joins the output.
 */
module EngineCalls {
  import opened Base
  import opened Mux
  import opened Wire
  import opened WirePdu
  import opened Crypto
  import opened Engine
  import opened EngineLife
  import T = Table

  /** From c to d, exactly one frame joined the output: p, sealed at the counter, within the frame limit. */
  predicate OneFrame(cr: Suite, c: Ctx, d: Ctx, p: Pdu) {
    && Legal(p) && c.push.Some?
    && var ct := cr.seal(c.push.value, TAG_MESSAGE, Encode(p));
       && 0 < |ct| <= FrameMaxBody(c.id.cfg.maxRecord)
       && d.out == c.out + Frame(ct)
       && d.push == Some(c.push.value.(n := c.push.value.n + 1))
  }

  predicate NoFrame(c: Ctx, d: Ctx) {
    d.out == c.out && d.push == c.push
  }

  lemma AppendIsOneFrame(cr: Suite, c: Ctx, p: Pdu)
    requires StreamLaw(cr) && Legal(p) && PushRc(c.id.cfg, SinkOf(c), PduLen(p)) == Ok
    ensures OneFrame(cr, c, Append(cr, c, p), p)
  {
    SealedLength(cr, c.push.value, p, c.id.cfg.maxRecord);
    hide StreamLaw, Encode, PutU32;
  }

  lemma SealedLength(cr: Suite, st: Stream, p: Pdu, maxRecord: nat)
    requires StreamLaw(cr) && Legal(p) && PduLen(p) + SS_ABYTES <= FrameMaxBody(maxRecord)
    ensures var n := |cr.seal(st, TAG_MESSAGE, Encode(p))|; n == PduLen(p) + SS_ABYTES && n % U32 == n
  {
    hide Encode;
  }

  /** ss_send_pdu writes the whole frame or leaves output and counter alone. */
  lemma SendIsAllOrNothing(cr: Suite, c: Ctx, p: Pdu)
    requires StreamLaw(cr) && Legal(p)
    ensures var (d, rc) := SsSend(cr, c, p);
      if rc == Ok then OneFrame(cr, c, d, p) && d == c.(out := d.out, push := d.push) else d == c
  {
    if PushRc(c.id.cfg, SinkOf(c), PduLen(p)) == Ok { AppendIsOneFrame(cr, c, p); }
    hide OneFrame;
  }

  /** What the PDU a granted call sends tells the peer. */
  predicate Tells(c: Ctx, call: Call, p: Pdu) {
    var look := T.Look(c.table, CallTarget(call));
    match call
    case CallOpen(name) => p == Open(c.table.next, c.id.cfg.initialWindow, c.id.cfg.maxPacket, name)
    case CallDisconnect(reason, msg) => p.Disconnect? && p.reason == reason && p.msg <= msg && |p.msg| == Min(|msg|, 64)
    case CallAccept(id, accept) =>
      && look.Some?
      && p == if accept then Confirm(id, look.value.peerId, c.id.cfg.initialWindow, c.id.cfg.maxPacket)
              else OpenFail(look.value.peerId, REASON_ADMIN_PROHIBITED, [])
    case CallSend(id, data) => look.Some? && p == Data(look.value.peerId, data)
    case CallEof(id) => look.Some? && p == Eof(look.value.peerId)
    case CallClose(id) => look.Some? && p == Close(look.value.peerId)
    case CallAdjust(id, credit) => look.Some? && p == Window(look.value.peerId, credit)
  }

  /** The calls whose OK means the peer will be told. */
  predicate MustTell(c: Ctx, call: Call) {
    match call
    case CallClose(_) => false
    case CallDisconnect(_, _) => false
    case CallEof(id) => T.Look(c.table, Some(id)).Some? && !T.Look(c.table, Some(id)).value.localEof
    case _ => true
  }

  lemma OutcomeTells(c: Ctx, call: Call)
    ensures var o := CallOutcome(c, call);
      && (o.rc != Ok ==> o.push == [] && o.events == [] && o.state == c.state && (o.eff == Keep || (call.CallOpen? && o.eff == Burn)))
      && |o.push| <= 1 && (o.push != [] ==> Tells(c, call, o.push[0]))
      && (o.rc == Ok && MustTell(c, call) ==> |o.push| == 1)
      && (o.eff == Burn ==> T.CanAlloc(c.table, c.id.cfg.maxChannels))
  {
    hide Segments, PushRc;
  }

  /** A refused call changes nothing; a refused open that got as far as a slot uses up its id. */
  lemma RefusedCallChangesNothing(cr: Suite, c: Ctx, call: Call)
    requires Wiped(c.table)
    ensures var (d, rc) := HostCall(cr, c, call);
      rc != Ok ==> d == c || (call.CallOpen? && d == c.(table := c.table.(next := Add32(c.table.next, 1))))
  {
    OutcomeTells(c, call);
    var o := CallOutcome(c, call);
    hide CallOutcome, Tells, MustTell;
    if o.rc != Ok && o.eff == Burn {
      var i := T.Vacant(c.table.slots);
      assert c.table.slots[i := BLANK] == c.table.slots;
    }
    assert c.log + [] == c.log;
  }

  /** A granted call appends exactly the frame it owes the peer; close and disconnect may lose theirs. */
  lemma GrantedCallSendsOneFrame(cr: Suite, c: Ctx, call: Call)
    requires StreamLaw(cr)
    ensures var (d, rc) := HostCall(cr, c, call);
      && (NoFrame(c, d) || exists p :: OneFrame(cr, c, d, p) && Tells(c, call, p))
      && (rc == Ok && MustTell(c, call) ==> exists p :: OneFrame(cr, c, d, p) && Tells(c, call, p))
  {
    OutcomeTells(c, call);
    CallRoomy(c, call);
    var o, d := CallOutcome(c, call), HostCall(cr, c, call).0;
    PerformLegal(c.id.cfg, c.state, T.Look(c.table, CallTarget(call)), T.CanAlloc(c.table, c.id.cfg.maxChannels),
                 c.table.next, SinkOf(c), call);
    assert AllLegal(o.push) && d == Settle(cr, c, o);
    hide CallOutcome, HostCall, Tells, MustTell, PushRc;
    if o.push != [] {
      AppendIsOneFrame(cr, c, o.push[0]);
      assert OneFrame(cr, c, d, o.push[0]);
    }
  }

  /**
   * A peer can leave a channel pending on a session that was never
   * authenticated: disconnect in AUTH leads to DRAINING, where OPEN is served.
   */
  lemma PendingNeedsNoAuth(cr: Suite, c: Ctx, open: Pdu, reason: u32, msg: bytes)
    requires StreamLaw(cr) && Inv(c) && c.state == Auth && T.CanAlloc(c.table, c.id.cfg.maxChannels)
    requires open.Open? && |open.name| <= CHANNEL_NAME_MAX && 0 !in open.name && NameAllowed(c.id.cfg, open.name)
    requires PduLen(open) <= c.id.cfg.maxRecord
    ensures var d := HostCall(cr, c, CallDisconnect(reason, msg)).0;
      var e := OnRecord(cr, d, cr.seal(d.pull.value, TAG_MESSAGE, Encode(open)));
      d.state == e.state == Draining && !e.auth.complete && exists i :: 0 <= i < |e.table.slots| && e.table.slots[i].state == Pending
  {
    var d := HostCall(cr, c, CallDisconnect(reason, msg)).0;
    LeavesAuth(cr, c, reason, msg);
    hide HostCall, Inv, Segments;
    var pulled := d.(pull := Some(d.pull.value.(n := d.pull.value.n + 1)));
    var e := OnRecord(cr, d, cr.seal(d.pull.value, TAG_MESSAGE, Encode(open)));
    OpenPends(cr, pulled, open);
    hide OnMux, Encode;
    assert e == OnMux(cr, pulled, Encode(open));
  }

  lemma LeavesAuth(cr: Suite, c: Ctx, reason: u32, msg: bytes)
    requires Inv(c) && c.state == Auth
    ensures var d := HostCall(cr, c, CallDisconnect(reason, msg)).0;
      d.state == Draining && d.table == c.table && d.pull.Some? && d.auth == c.auth && d.id == c.id && !c.auth.complete
  {
    hide PushRc, Encode;
  }

  /** An allowed OPEN with a slot to spare leaves a PENDING channel, whatever the session's standing. */
  lemma OpenPends(cr: Suite, c: Ctx, open: Pdu)
    requires open.Open? && |open.name| <= CHANNEL_NAME_MAX && 0 !in open.name && NameAllowed(c.id.cfg, open.name)
    requires T.CanAlloc(c.table, c.id.cfg.maxChannels)
    ensures var e := OnMux(cr, c, Encode(open));
      Encode(open)[0] == T_OPEN && e.state == c.state && e.auth == c.auth
      && exists i :: 0 <= i < |e.table.slots| && e.table.slots[i].state == Pending
  {
    DecodeEncode(open);
    assert Encode(open)[0] == T_OPEN;
    hide Decode, Encode, Segments;
    assert OnMux(cr, c, Encode(open)).table.slots[T.Vacant(c.table.slots)].state == Pending;
  }
}
