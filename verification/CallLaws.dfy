/**
 * When each host call is granted, and what it then does: exact conditions on
 * the slots, the configuration and the room in the output, the frame that
 * joins the output, and the slot that changes.  A session stands before the
 * call as c and after it as d.
 */
module CallLaws {
  import opened Base
  import opened Mux
  import opened WirePdu
  import opened Crypto
  import opened Engine
  import opened EngineCalls
  import L = EngineLife
  import T = Table

  // ------------------------------------------------------------------
  // The vocabulary
  // ------------------------------------------------------------------

  /** Slot i is the first live one under the id. */
  predicate First(slots: seq<Channel>, i: int, id: u32) {
    && 0 <= i < |slots| && slots[i].state != Unused && slots[i].localId == id
    && forall j :: 0 <= j < i ==> slots[j].state == Unused || slots[j].localId != id
  }

  /** Slot i is the first unused one. */
  predicate FirstFree(slots: seq<Channel>, i: int) {
    0 <= i < |slots| && slots[i].state == Unused && forall j :: 0 <= j < i ==> slots[j].state != Unused
  }

  /** The channel under an id, or a blank one. */
  function Slot(c: Ctx, id: u32): (ch: Channel)
    ensures ch.state != Unused ==> exists i :: First(c.table.slots, i, id) && ch == c.table.slots[i]
    ensures ch.state == Unused ==> ch == BLANK && forall i :: !First(c.table.slots, i, id)
  {
    var i := T.Find(c.table.slots, id);
    if i < |c.table.slots| then assert First(c.table.slots, i, id); c.table.slots[i] else BLANK
  }

  predicate IsOpen(ch: Channel) {
    ch.state == Opened && ch.havePeer
  }

  /** The channel under id becomes ch; every other slot, the counter and the count stay. */
  ghost predicate Overwrites(c: Ctx, d: Ctx, id: u32, ch: Channel) {
    exists i :: First(c.table.slots, i, id) && d.table == c.table.(slots := c.table.slots[i := ch])
  }

  /** The channel under id is gone, and counted out. */
  ghost predicate Frees(c: Ctx, d: Ctx, id: u32) {
    exists i :: First(c.table.slots, i, id)
      && d.table == c.table.(slots := c.table.slots[i := BLANK], active := if c.table.active > 0 then c.table.active - 1 else 0)
  }

  /** ch takes the first unused slot and the next id, and is counted in. */
  ghost predicate Fills(c: Ctx, d: Ctx, ch: Channel) {
    exists i :: FirstFree(c.table.slots, i)
      && d.table == c.table.(slots := c.table.slots[i := ch], next := (c.table.next + 1) % U32, active := c.table.active + 1)
  }

  /** There is an unused slot, and the limit is not reached. */
  ghost predicate HasRoom(c: Ctx) {
    c.table.active < c.id.cfg.maxChannels && exists i :: FirstFree(c.table.slots, i)
  }

  /** A record of n bytes may be sent: the stream is up, and frame, record and free output hold it. */
  predicate Sendable(c: Ctx, n: nat) {
    c.push.Some? && n <= c.id.cfg.maxRecord && |c.out| + 4 + n + SS_ABYTES <= OUT_BUF_SIZE
  }

  /** Nothing but output, table, log and state differs. */
  predicate Within(c: Ctx, d: Ctx) {
    d == c.(state := d.state, out := d.out, push := d.push, table := d.table, log := d.log)
  }

  /** The one frame that joined the output is p; state and log are as before. */
  predicate Sends(cr: Suite, c: Ctx, d: Ctx, p: Pdu) {
    OneFrame(cr, c, d, p) && Within(c, d) && d.state == c.state && d.log == c.log
  }

  // ------------------------------------------------------------------
  // What the vocabulary means for the table and the output
  // ------------------------------------------------------------------

  lemma LookIsSlot(c: Ctx, id: u32)
    ensures T.Look(c.table, Some(id)) == if Slot(c, id).state == Unused then None else Some(Slot(c, id))
  {
  }

  lemma PutOverwrites(c: Ctx, d: Ctx, id: u32, ch: Channel)
    requires Slot(c, id).state != Unused && d.table == T.Change(c.table, Put(id, ch))
    ensures Overwrites(c, d, id, ch)
  {
    assert First(c.table.slots, T.Find(c.table.slots, id), id);
  }

  lemma DropFrees(c: Ctx, d: Ctx, id: u32)
    requires Slot(c, id).state != Unused && d.table == T.Change(c.table, Drop(id))
    ensures Frees(c, d, id)
  {
    assert First(c.table.slots, T.Find(c.table.slots, id), id);
  }

  lemma AddFills(c: Ctx, d: Ctx, ch: Channel)
    requires T.CanAlloc(c.table, c.id.cfg.maxChannels) && d.table == T.Change(c.table, Add(ch))
    ensures Fills(c, d, ch)
  {
    assert FirstFree(c.table.slots, T.Vacant(c.table.slots));
  }

  lemma CanAllocIsRoom(c: Ctx)
    ensures T.CanAlloc(c.table, c.id.cfg.maxChannels) <==> HasRoom(c)
  {
    var i := T.Vacant(c.table.slots);
    if i < |c.table.slots| { assert FirstFree(c.table.slots, i); }
  }

  /** ss_send_pdu refuses for one of three reasons, in this order; the frame limit is never one of them. */
  lemma SendVerdict(c: Ctx, n: nat)
    requires n > 0
    ensures var rc := PushRc(c.id.cfg, SinkOf(c), n);
      && (rc == Ok <==> Sendable(c, n))
      && (rc == ErrState <==> c.push.None?)
      && (rc == ErrParam <==> c.push.Some? && n > c.id.cfg.maxRecord)
      && (rc == ErrFull <==> c.push.Some? && n <= c.id.cfg.maxRecord && !Sendable(c, n))
  {
  }

  /** What a call decides is what happens. */
  lemma CallIs(cr: Suite, c: Ctx, call: Call)
    requires StreamLaw(cr)
    ensures var o := CallOutcome(c, call); var (d, rc) := HostCall(cr, c, call);
      && rc == o.rc && Within(c, d) && d.state == o.state && d.table == T.Change(c.table, o.eff) && d.log == c.log + o.events
      && (o.push == [] ==> NoFrame(c, d))
      && (o.push != [] ==> OneFrame(cr, c, d, o.push[0]))
  {
    PerformLegal(c.id.cfg, c.state, T.Look(c.table, CallTarget(call)), T.CanAlloc(c.table, c.id.cfg.maxChannels),
                 c.table.next, SinkOf(c), call);
    L.CallRoomy(c, call);
    var o := CallOutcome(c, call);
    assert AllLegal(o.push) && |o.push| <= 1;
    hide CallOutcome, PushRc, T.Change, Encode, Legal;
    if o.push != [] { AppendIsOneFrame(cr, c, o.push[0]); }
  }

  lemma Unchanged(c: Ctx, d: Ctx)
    requires Within(c, d) && NoFrame(c, d) && d.state == c.state && d.table == T.Change(c.table, Keep) && d.log == c.log + []
    ensures d == c
  {
  }

  // ------------------------------------------------------------------
  // The calls
  // ------------------------------------------------------------------

  /**
   * channel_send: granted exactly on a READY session, on an open channel that
   * has not sent EOF, within packet limit, chunk limit, credit and room; then
   * one DATA joins the output and the credit is spent.
   */
  lemma SendLaw(cr: Suite, c: Ctx, id: u32, data: bytes)
    requires StreamLaw(cr)
    ensures var (d, rc) := HostCall(cr, c, CallSend(id, data)); var ch, n := Slot(c, id), |data|;
      && (rc == Ok <==> c.state == Ready && IsOpen(ch) && !ch.localEof
                        && n <= ch.maxPacket && n <= DATA_MAX && n <= ch.sendWindow && Sendable(c, 9 + n))
      && (rc == Ok ==> Sends(cr, c, d, Data(ch.peerId, data)) && Overwrites(c, d, id, ch.(sendWindow := ch.sendWindow - n)))
      && (rc != Ok ==> d == c)
      && (rc == ErrNotFound <==> c.state == Ready && !IsOpen(ch))
      && (rc == ErrWindow <==> c.state == Ready && IsOpen(ch) && !ch.localEof && ch.sendWindow < n <= Min(ch.maxPacket, DATA_MAX))
      && (rc == ErrState <==> c.state != Ready || (IsOpen(ch) && (ch.localEof ||
                                (n <= Min(ch.maxPacket, DATA_MAX) && n <= ch.sendWindow && c.push.None?))))
      && (rc == ErrParam <==> c.state == Ready && IsOpen(ch) && !ch.localEof && (n > Min(ch.maxPacket, DATA_MAX) ||
                                (n <= ch.sendWindow && c.push.Some? && 9 + n > c.id.cfg.maxRecord)))
      && (rc == ErrFull <==> c.state == Ready && IsOpen(ch) && !ch.localEof && n <= Min(ch.maxPacket, DATA_MAX) && n <= ch.sendWindow
                             && c.push.Some? && 9 + n <= c.id.cfg.maxRecord && !Sendable(c, 9 + n))
  {
    var call, ch := CallSend(id, data), Slot(c, id);
    var d := HostCall(cr, c, call).0;
    LookIsSlot(c, id);
    SendVerdict(c, 9 + |data|);
    CallIs(cr, c, call);
    hide Slot, HostCall, PushRc, T.Look, T.Change, OneFrame, Overwrites;
    if CallOutcome(c, call).rc == Ok { PutOverwrites(c, d, id, ch.(sendWindow := ch.sendWindow - |data|)); }
    else { Unchanged(c, d); }
  }

  /**
   * channel_open: granted exactly on a READY session, for an allowed name of
   * fitting length, with a slot and room; then OPEN joins the output and the
   * channel takes the next id.
   */
  lemma OpenLaw(cr: Suite, c: Ctx, name: bytes)
    requires StreamLaw(cr)
    ensures var (d, rc) := HostCall(cr, c, CallOpen(name)); var cfg := c.id.cfg;
      var ch := BLANK.(state := Opening, localId := c.table.next, recvWindow := cfg.initialWindow, maxPacket := cfg.maxPacket, name := name);
      var allowed := name != [] && c.state == Ready && |name| <= CHANNEL_NAME_MAX && NameAllowed(cfg, name);
      && (rc == Ok <==> allowed && HasRoom(c) && Sendable(c, 14 + |name|))
      && (rc == Ok ==> Sends(cr, c, d, Open(c.table.next, cfg.initialWindow, cfg.maxPacket, name)) && Fills(c, d, ch))
      && (rc == ErrParam <==> name == [] || (c.state == Ready && |name| > CHANNEL_NAME_MAX))
      && (rc == ErrState <==> name != [] && c.state != Ready)
      && (rc == ErrRejected <==> c.state == Ready && 0 < |name| <= CHANNEL_NAME_MAX && !NameAllowed(cfg, name))
      && (rc == ErrFull <==> allowed && !(HasRoom(c) && Sendable(c, 14 + |name|)))
  {
    var call, cfg := CallOpen(name), c.id.cfg;
    var d := HostCall(cr, c, call).0;
    CanAllocIsRoom(c);
    SendVerdict(c, 14 + |name|);
    CallIs(cr, c, call);
    hide HostCall, PushRc, T.CanAlloc, T.Change, OneFrame, Fills, HasRoom, NameAllowed;
    if CallOutcome(c, call).rc == Ok {
      AddFills(c, d, BLANK.(state := Opening, localId := c.table.next, recvWindow := cfg.initialWindow, maxPacket := cfg.maxPacket, name := name));
    }
  }

  /**
   * channel_accept, to accept: granted exactly on a READY session for a
   * pending channel, with room; then CONFIRM joins the output, announcing the
   * configured window and packet limit, and the channel is open with that
   * window.  The host is told the same.
   */
  lemma AcceptLaw(cr: Suite, c: Ctx, id: u32)
    requires StreamLaw(cr)
    ensures var (d, rc) := HostCall(cr, c, CallAccept(id, true)); var ch, w, mp := Slot(c, id), c.id.cfg.initialWindow, c.id.cfg.maxPacket;
      && (rc == Ok <==> c.state == Ready && ch.state == Pending && ch.havePeer && Sendable(c, 17))
      && (rc == Ok ==>
            && OneFrame(cr, c, d, Confirm(id, ch.peerId, w, mp)) && Within(c, d) && d.state == Ready
            && Overwrites(c, d, id, ch.(state := Opened, recvWindow := w))
            && d.log == c.log + [ChannelOpened(id, ch.peerId, ch.name, w, mp)])
      && (rc != Ok ==> d == c)
      && (rc == ErrState <==> !(c.state == Ready && ch.state == Pending && ch.havePeer))
      && (rc == ErrFull <==> c.state == Ready && ch.state == Pending && ch.havePeer && !Sendable(c, 17))
  {
    var call, ch := CallAccept(id, true), Slot(c, id);
    var d := HostCall(cr, c, call).0;
    LookIsSlot(c, id);
    SendVerdict(c, 17);
    CallIs(cr, c, call);
    hide Slot, HostCall, PushRc, T.Look, T.Change, OneFrame, Overwrites;
    if CallOutcome(c, call).rc == Ok { PutOverwrites(c, d, id, ch.(state := Opened, recvWindow := c.id.cfg.initialWindow)); }
    else { Unchanged(c, d); }
  }

  /** channel_accept, to refuse: OPEN_FAIL joins the output, and the pending channel is gone. */
  lemma RejectLaw(cr: Suite, c: Ctx, id: u32)
    requires StreamLaw(cr)
    ensures var (d, rc) := HostCall(cr, c, CallAccept(id, false)); var ch := Slot(c, id);
      && (rc == Ok <==> c.state == Ready && ch.state == Pending && ch.havePeer && Sendable(c, 10))
      && (rc == Ok ==> Sends(cr, c, d, OpenFail(ch.peerId, REASON_ADMIN_PROHIBITED, [])) && Frees(c, d, id))
      && (rc != Ok ==> d == c)
      && (rc == ErrState <==> !(c.state == Ready && ch.state == Pending && ch.havePeer))
      && (rc == ErrFull <==> c.state == Ready && ch.state == Pending && ch.havePeer && !Sendable(c, 10))
  {
    var call := CallAccept(id, false);
    var d := HostCall(cr, c, call).0;
    LookIsSlot(c, id);
    SendVerdict(c, 10);
    CallIs(cr, c, call);
    hide Slot, HostCall, PushRc, T.Look, T.Change, OneFrame, Frees;
    if CallOutcome(c, call).rc == Ok { DropFrees(c, d, id); } else { Unchanged(c, d); }
  }

  /** channel_eof: the first sends EOF and marks the channel, if it fits; any later one is OK and does nothing. */
  lemma EofLaw(cr: Suite, c: Ctx, id: u32)
    requires StreamLaw(cr)
    ensures var (d, rc) := HostCall(cr, c, CallEof(id)); var ch := Slot(c, id);
      && (rc == Ok <==> c.state == Ready && IsOpen(ch) && (ch.localEof || Sendable(c, 5)))
      && (rc == Ok && !ch.localEof ==> Sends(cr, c, d, Eof(ch.peerId)) && Overwrites(c, d, id, ch.(localEof := true)))
      && (rc != Ok || ch.localEof ==> d == c)
      && (rc == ErrState <==> c.state != Ready)
      && (rc == ErrNotFound <==> c.state == Ready && !IsOpen(ch))
      && (rc == ErrFull <==> c.state == Ready && IsOpen(ch) && !ch.localEof && !Sendable(c, 5))
  {
    var call, ch := CallEof(id), Slot(c, id);
    var d := HostCall(cr, c, call).0;
    LookIsSlot(c, id);
    SendVerdict(c, 5);
    CallIs(cr, c, call);
    hide Slot, HostCall, PushRc, T.Look, T.Change, OneFrame, Overwrites;
    if CallOutcome(c, call).eff == Keep { Unchanged(c, d); } else { PutOverwrites(c, d, id, ch.(localEof := true)); }
  }

  lemma AdjustDecided(c: Ctx, id: u32, credit: u32)
    ensures var o, ch := CallOutcome(c, CallAdjust(id, credit)), Slot(c, id);
      && (o.rc == Ok <==> credit != 0 && c.state == Ready && IsOpen(ch) && Sendable(c, 9))
      && (o.rc == Ok ==> o == Outcome(Ok, c.state, Put(id, ch.(recvWindow := (ch.recvWindow + credit) % U32)), [Window(ch.peerId, credit)], []))
      && (o.rc != Ok ==> o == Refuse(c.state, o.rc))
      && (o.rc == ErrParam <==> credit == 0)
      && (o.rc == ErrState <==> credit != 0 && c.state != Ready)
      && (o.rc == ErrNotFound <==> credit != 0 && c.state == Ready && !IsOpen(ch))
      && (o.rc == ErrFull <==> credit != 0 && c.state == Ready && IsOpen(ch) && !Sendable(c, 9))
  {
    LookIsSlot(c, id);
    SendVerdict(c, 9);
    hide Slot, PushRc, T.Look, SinkOf, T.CanAlloc;
  }

  /** channel_window_adjust: granted for any credit but zero, with room; WINDOW announces it, and the window grows modulo 2^32. */
  lemma AdjustLaw(cr: Suite, c: Ctx, id: u32, credit: u32)
    requires StreamLaw(cr)
    ensures var (d, rc) := HostCall(cr, c, CallAdjust(id, credit)); var ch := Slot(c, id);
      && (rc == Ok <==> credit != 0 && c.state == Ready && IsOpen(ch) && Sendable(c, 9))
      && (rc == Ok ==> Sends(cr, c, d, Window(ch.peerId, credit))
                       && Overwrites(c, d, id, ch.(recvWindow := (ch.recvWindow + credit) % U32)))
      && (rc != Ok ==> d == c)
      && (rc == ErrParam <==> credit == 0)
      && (rc == ErrState <==> credit != 0 && c.state != Ready)
      && (rc == ErrNotFound <==> credit != 0 && c.state == Ready && !IsOpen(ch))
      && (rc == ErrFull <==> credit != 0 && c.state == Ready && IsOpen(ch) && !Sendable(c, 9))
  {
    var call, ch := CallAdjust(id, credit), Slot(c, id);
    var d := HostCall(cr, c, call).0;
    hide Slot, HostCall, CallOutcome, T.Change, OneFrame, Overwrites, Sendable, StreamLaw, SinkOf;
    AdjustDecided(c, id, credit);
    CallIs(cr, c, call);
    if CallOutcome(c, call).rc == Ok { PutOverwrites(c, d, id, ch.(recvWindow := (ch.recvWindow + credit) % U32)); }
    else { Unchanged(c, d); }
  }

  /**
   * channel_close: granted for every live channel of a READY or DRAINING
   * session.  The slot goes at once; CLOSE joins the output exactly when the
   * channel is open and a CLOSE fits.
   */
  lemma CloseLaw(cr: Suite, c: Ctx, id: u32)
    requires StreamLaw(cr)
    ensures var (d, rc) := HostCall(cr, c, CallClose(id)); var ch := Slot(c, id); var running := c.state == Ready || c.state == Draining;
      && (rc == Ok <==> running && ch.state != Unused)
      && (rc == Ok ==> Frees(c, d, id) && Within(c, d) && d.state == c.state && d.log == c.log)
      && (rc == Ok && IsOpen(ch) && Sendable(c, 5) ==> OneFrame(cr, c, d, Close(ch.peerId)))
      && (rc == Ok && !(IsOpen(ch) && Sendable(c, 5)) ==> NoFrame(c, d))
      && (rc != Ok ==> d == c)
      && (rc == ErrState <==> !running)
      && (rc == ErrNotFound <==> running && ch.state == Unused)
  {
    var call := CallClose(id);
    var d := HostCall(cr, c, call).0;
    LookIsSlot(c, id);
    SendVerdict(c, 5);
    CallIs(cr, c, call);
    hide Slot, HostCall, PushRc, T.Look, T.Change, OneFrame, Frees;
    if CallOutcome(c, call).rc == Ok { DropFrees(c, d, id); } else { Unchanged(c, d); }
  }

  /**
   * disconnect: always OK.  From AUTH on, with the stream up, the session is
   * DRAINING, and DISCONNECT with at most 64 bytes of text joins the output
   * if it fits; before that, or after an error, it is CLOSED and silent; once
   * closed it stays as it is.
   */
  lemma DisconnectLaw(cr: Suite, c: Ctx, reason: u32, msg: bytes)
    requires StreamLaw(cr)
    ensures var (d, rc) := HostCall(cr, c, CallDisconnect(reason, msg)); var text := msg[..Min(|msg|, 64)];
      var speaks := c.push.Some? && (c.state == Auth || c.state == Ready || c.state == Draining);
      && rc == Ok && Within(c, d) && d.table == c.table && d.log == c.log
      && d.state == (if speaks then Draining else Closed)
      && (speaks && Sendable(c, 6 + |text|) ==> OneFrame(cr, c, d, Disconnect(reason, text)))
      && (!(speaks && Sendable(c, 6 + |text|)) ==> NoFrame(c, d))
  {
    var call := CallDisconnect(reason, msg);
    SendVerdict(c, 6 + Min(|msg|, 64));
    CallIs(cr, c, call);
    hide HostCall, PushRc, OneFrame;
  }
}
