/**
 * What each record does to the session that opens it: the answer that joins
 * the output, the slot that changes, and what the host is told.  The record
 * is the peer's next one, sealed where this side will open it.
 */
module PduLaws {
  import opened Base
  import opened Mux
  import opened WirePdu
  import opened Crypto
  import opened Engine
  import opened EngineCalls
  import opened CallLaws
  import L = EngineLife
  import P = Pair
  import T = Table

  /** The session after it was fed the PDU m, sealed at its stream position. */
  function Hears(cr: Suite, c: Ctx, m: Pdu): Ctx
    requires Legal(m) && c.pull.Some?
  {
    OnRecord(cr, c, cr.seal(c.pull.value, TAG_MESSAGE, Encode(m)))
  }

  /** One message further on the stream, and nothing else. */
  function Advanced(c: Ctx): Ctx
    requires c.pull.Some?
  {
    c.(pull := Some(c.pull.value.(n := c.pull.value.n + 1)))
  }

  /** The session takes m: the stream is up, and m is within the record limit and one chunk. */
  predicate Hearing(c: Ctx, m: Pdu) {
    c.pull.Some? && Legal(m) && PduLen(m) <= Min(c.id.cfg.maxRecord, DATA_MAX + 64)
  }

  /** As a multiplexer: in READY, or in DRAINING. */
  predicate Muxing(c: Ctx, m: Pdu) {
    Hearing(c, m) && (c.state == Ready || c.state == Draining)
  }

  /** The session fails with a code: the host is told so, and nothing else happens. */
  predicate Breaks(c: Ctx, d: Ctx, rc: Rc) {
    d == c.(state := Error, log := c.log + [ErrorEvent(rc)])
  }

  /** The session goes on; nothing is answered, and the host is told exactly these. */
  predicate Tells(c: Ctx, d: Ctx, events: seq<Event>)
    requires c.pull.Some?
  {
    Within(Advanced(c), d) && NoFrame(c, d) && d.state == c.state && d.log == c.log + events
  }

  /** p is answered where it fits, and is lost where it does not. */
  predicate Answers(cr: Suite, c: Ctx, d: Ctx, p: Pdu) {
    if Sendable(c, PduLen(p)) then OneFrame(cr, c, d, p) else NoFrame(c, d)
  }

  // ------------------------------------------------------------------
  // What is decided is what happens
  // ------------------------------------------------------------------

  lemma SettleIs(cr: Suite, c: Ctx, o: Outcome)
    requires StreamLaw(cr) && AllLegal(o.push) && |o.push| <= 1 && (o.push != [] ==> c.push.Some?) && L.Roomy(c.id.cfg, SinkOf(c), o)
    ensures var d := Settle(cr, c, o);
      && Within(c, d) && d.state == o.state && d.table == T.Change(c.table, o.eff) && d.log == c.log + o.events
      && (o.push == [] ==> NoFrame(c, d))
      && (o.push != [] ==> OneFrame(cr, c, d, o.push[0]))
  {
    hide PushRc, T.Change, Encode, Legal, StreamLaw, SinkOf;
    if o.push != [] { AppendIsOneFrame(cr, c, o.push[0]); }
  }

  lemma HearIs(cr: Suite, c: Ctx, m: Pdu)
    requires StreamLaw(cr) && Muxing(c, m)
    ensures var o, d := MuxOutcome(c, m), Hears(cr, c, m);
      && Within(Advanced(c), d) && d.state == o.state && d.table == T.Change(c.table, o.eff) && d.log == c.log + o.events
      && (o.push == [] ==> NoFrame(c, d))
      && (o.push != [] ==> OneFrame(cr, c, d, o.push[0]))
  {
    var e := Advanced(c);
    L.MuxRoomy(e, m);
    HearIsMux(cr, c, m);
    SameOutcome(c, m);
    hide MuxOutcome, T.Change, Hears, Settle, L.Roomy, StreamLaw;
    SettleIs(cr, e, MuxOutcome(c, m));
  }

  lemma HearIsMux(cr: Suite, c: Ctx, m: Pdu)
    requires StreamLaw(cr) && Muxing(c, m)
    ensures var o := MuxOutcome(Advanced(c), m);
      AllLegal(o.push) && |o.push| <= 1 && (o.push != [] ==> c.push.Some?) && Hears(cr, c, m) == Settle(cr, Advanced(c), o)
  {
    hide MuxOutcome, Encode, Legal, OnRecord, OnMux, StreamLaw, Settle;
    P.SealedOpens(cr, c, m);
    P.OnMuxIs(cr, Advanced(c), m);
  }

  /** The stream position has no part in what is decided. */
  lemma SameOutcome(c: Ctx, m: Pdu)
    requires c.pull.Some?
    ensures MuxOutcome(Advanced(c), m) == MuxOutcome(c, m)
  {
    assert SinkOf(Advanced(c)) == SinkOf(c);
    hide Handle, SinkOf;
  }

  /** A change to nothing. */
  lemma KeptTells(c: Ctx, d: Ctx, events: seq<Event>)
    requires c.pull.Some? && Within(Advanced(c), d) && NoFrame(c, d) && d.state == c.state
    requires d.table == T.Change(c.table, Keep) && d.log == c.log + events
    ensures Tells(c, d, events) && d.table == c.table && (events == [] ==> d == Advanced(c))
  {
  }

  // ------------------------------------------------------------------
  // Opening
  // ------------------------------------------------------------------

  /**
   * CHANNEL_OPEN: a name that is not allowed is refused with a text, and one
   * for which there is no slot without; neither is told to the host.
   * Otherwise the channel is pending under the next id with the peer's window
   * to send in, its packet limit or else one's own, and the configured window
   * to receive in - as the host is told.
   */
  lemma OpenIsHeard(cr: Suite, c: Ctx, m: Pdu)
    requires StreamLaw(cr) && Muxing(c, m) && m.Open?
    ensures var d, name, cfg := Hears(cr, c, m), CString(m.name), c.id.cfg;
      var mp := if m.maxPacket != 0 then m.maxPacket else cfg.maxPacket;
      if NameAllowed(cfg, name) && HasRoom(c) then
        && Fills(c, d, Channel(Pending, c.table.next, m.sender, true, name, m.initWindow, cfg.initialWindow, mp, false, false))
        && Tells(c, d, [ChannelOpen(c.table.next, m.sender, name, m.initWindow, mp)])
      else
        && Within(Advanced(c), d) && d.state == c.state && d.table == c.table && d.log == c.log
        && Answers(cr, c, d, if NameAllowed(cfg, name) then OpenFail(m.sender, REASON_RESOURCE_SHORTAGE, [])
                             else OpenFail(m.sender, REASON_ADMIN_PROHIBITED, NOT_ALLOWED))
  {
    var d := Hears(cr, c, m);
    HearIs(cr, c, m);
    CanAllocIsRoom(c);
    SendVerdict(c, 10);
    SendVerdict(c, 10 + |NOT_ALLOWED|);
    var mp := if m.maxPacket != 0 then m.maxPacket else c.id.cfg.maxPacket;
    var ch := Channel(Pending, c.table.next, m.sender, true, CString(m.name), m.initWindow, c.id.cfg.initialWindow, mp, false, false);
    hide Hears, PushRc, T.CanAlloc, T.Change, OneFrame, Fills, HasRoom, NameAllowed, CString;
    if MuxOutcome(c, m).eff.Add? { AddFills(c, d, ch); } else { Unanswered(c, d); }
  }

  lemma Unanswered(c: Ctx, d: Ctx)
    requires d.table == T.Change(c.table, Keep)
    ensures d.table == c.table
  {
  }

  /**
   * CONFIRM: an opening channel is open, with the peer's id, window and packet
   * limit (or else one's own), as the host is told.  For any other channel,
   * or none, it is the end of the session.
   */
  lemma ConfirmIsHeard(cr: Suite, c: Ctx, m: Pdu)
    requires StreamLaw(cr) && Muxing(c, m) && m.Confirm?
    ensures var d, ch := Hears(cr, c, m), Slot(c, m.recipient);
      var mp := if m.maxPacket != 0 then m.maxPacket else c.id.cfg.maxPacket;
      if ch.state == Opening then
        && Overwrites(c, d, m.recipient, ch.(state := Opened, peerId := m.sender, havePeer := true, sendWindow := m.initWindow, maxPacket := mp))
        && Tells(c, d, [ChannelOpened(m.recipient, m.sender, ch.name, m.initWindow, mp)])
      else Breaks(Advanced(c), d, ErrProtocol)
  {
    var d, ch := Hears(cr, c, m), Slot(c, m.recipient);
    HearIs(cr, c, m);
    LookIsSlot(c, m.recipient);
    var mp := if m.maxPacket != 0 then m.maxPacket else c.id.cfg.maxPacket;
    hide Hears, Slot, T.Look, T.Change, Overwrites;
    if ch.state == Opening {
      PutOverwrites(c, d, m.recipient, ch.(state := Opened, peerId := m.sender, havePeer := true, sendWindow := m.initWindow, maxPacket := mp));
    } else { Unanswered(c, d); }
  }

  /** OPEN_FAIL: an opening channel is gone, and the host is told its name.  For any other it is nothing. */
  lemma OpenFailIsHeard(cr: Suite, c: Ctx, m: Pdu)
    requires StreamLaw(cr) && Muxing(c, m) && m.OpenFail?
    ensures var d, ch := Hears(cr, c, m), Slot(c, m.recipient);
      if ch.state == Opening then Frees(c, d, m.recipient) && Tells(c, d, [ChannelOpenFail(m.recipient, ch.name)])
      else d == Advanced(c)
  {
    var d := Hears(cr, c, m);
    HearIs(cr, c, m);
    LookIsSlot(c, m.recipient);
    hide Hears, Slot, T.Look, T.Change, Frees;
    if Slot(c, m.recipient).state == Opening { DropFrees(c, d, m.recipient); } else { KeptTells(c, d, []); }
  }

  // ------------------------------------------------------------------
  // An open channel
  // ------------------------------------------------------------------

  lemma DataDecided(c: Ctx, m: Pdu)
    requires m.Data?
    ensures var ch := Slot(c, m.recipient);
      MuxOutcome(c, m) ==
        if ch.state == Opened && |m.data| <= ch.recvWindow && |m.data| <= DATA_MAX then
          Outcome(Ok, c.state, Put(m.recipient, ch.(recvWindow := ch.recvWindow - |m.data|)), [], [ChannelData(m.recipient, m.data)])
        else Fatal(ErrProtocol)
  {
    LookIsSlot(c, m.recipient);
    hide Slot, T.Look, T.CanAlloc, SinkOf;
  }

  lemma WindowDecided(c: Ctx, m: Pdu)
    requires m.Window?
    ensures var ch := Slot(c, m.recipient); var w := (ch.sendWindow + m.add) % U32;
      MuxOutcome(c, m) ==
        if ch.state == Opened then
          Outcome(Ok, c.state, Put(m.recipient, ch.(sendWindow := w)), [], [ChannelWindow(m.recipient, m.add, w)])
        else Quiet(c.state)
  {
    LookIsSlot(c, m.recipient);
    hide Slot, T.Look, T.CanAlloc, SinkOf;
  }

  /**
   * DATA: on an open channel, within its window and one chunk, it is told to
   * the host and spends the window.  Anything else is the end of the session.
   */
  lemma DataIsHeard(cr: Suite, c: Ctx, m: Pdu)
    requires StreamLaw(cr) && Muxing(c, m) && m.Data?
    ensures var d, ch := Hears(cr, c, m), Slot(c, m.recipient);
      if ch.state == Opened && |m.data| <= ch.recvWindow && |m.data| <= DATA_MAX then
        && Overwrites(c, d, m.recipient, ch.(recvWindow := ch.recvWindow - |m.data|))
        && Tells(c, d, [ChannelData(m.recipient, m.data)])
      else Breaks(Advanced(c), d, ErrProtocol)
  {
    var d, ch := Hears(cr, c, m), Slot(c, m.recipient);
    HearIs(cr, c, m);
    DataDecided(c, m);
    hide Hears, Slot, MuxOutcome, T.Change, Overwrites, Legal;
    if ch.state == Opened && |m.data| <= ch.recvWindow && |m.data| <= DATA_MAX { PutOverwrites(c, d, m.recipient, ch.(recvWindow := ch.recvWindow - |m.data|)); }
    else { Unanswered(c, d); }
  }

  /**
   * WINDOW: on an open channel the credit is added to the send window, modulo
   * 2^32, and the host is told what was added and then what it may send.
   */
  lemma WindowIsHeard(cr: Suite, c: Ctx, m: Pdu)
    requires StreamLaw(cr) && Muxing(c, m) && m.Window?
    ensures var d, ch := Hears(cr, c, m), Slot(c, m.recipient); var w := (ch.sendWindow + m.add) % U32;
      if ch.state == Opened then
        Overwrites(c, d, m.recipient, ch.(sendWindow := w)) && Tells(c, d, [ChannelWindow(m.recipient, m.add, w)])
      else d == Advanced(c)
  {
    var d, ch := Hears(cr, c, m), Slot(c, m.recipient);
    HearIs(cr, c, m);
    WindowDecided(c, m);
    hide Hears, Slot, MuxOutcome, T.Change, Overwrites, Legal;
    if ch.state == Opened { PutOverwrites(c, d, m.recipient, ch.(sendWindow := Add32(ch.sendWindow, m.add))); }
    else { KeptTells(c, d, []); }
  }

  /** EOF: any live channel is marked, and the host is told, every time. */
  lemma EofIsHeard(cr: Suite, c: Ctx, m: Pdu)
    requires StreamLaw(cr) && Muxing(c, m) && m.Eof?
    ensures var d, ch := Hears(cr, c, m), Slot(c, m.recipient);
      if ch.state != Unused then
        Overwrites(c, d, m.recipient, ch.(remoteEof := true)) && Tells(c, d, [ChannelEof(m.recipient)])
      else d == Advanced(c)
  {
    var d, ch := Hears(cr, c, m), Slot(c, m.recipient);
    HearIs(cr, c, m);
    LookIsSlot(c, m.recipient);
    hide Hears, Slot, T.Look, T.Change, Overwrites;
    if ch.state != Unused { PutOverwrites(c, d, m.recipient, ch.(remoteEof := true)); } else { KeptTells(c, d, []); }
  }

  /** CLOSE: any live channel is gone, and the host is told. */
  lemma CloseIsHeard(cr: Suite, c: Ctx, m: Pdu)
    requires StreamLaw(cr) && Muxing(c, m) && m.Close?
    ensures var d, ch := Hears(cr, c, m), Slot(c, m.recipient);
      if ch.state != Unused then Frees(c, d, m.recipient) && Tells(c, d, [ChannelClose(m.recipient)])
      else d == Advanced(c)
  {
    var d := Hears(cr, c, m);
    HearIs(cr, c, m);
    LookIsSlot(c, m.recipient);
    hide Hears, Slot, T.Look, T.Change, Frees;
    if Slot(c, m.recipient).state != Unused { DropFrees(c, d, m.recipient); } else { KeptTells(c, d, []); }
  }

  // ------------------------------------------------------------------
  // The session itself
  // ------------------------------------------------------------------

  /** PING is told to the host, and answered with the same word where the answer fits; PONG is nothing. */
  lemma PingIsHeard(cr: Suite, c: Ctx, m: Pdu)
    requires StreamLaw(cr) && Muxing(c, m) && (m.Ping? || m.Pong?)
    ensures var d := Hears(cr, c, m);
      if m.Ping? then
        && Within(Advanced(c), d) && d.state == c.state && d.table == c.table && d.log == c.log + [PingEvent]
        && Answers(cr, c, d, Pong(m.opaq))
      else d == Advanced(c)
  {
    var d := Hears(cr, c, m);
    HearIs(cr, c, m);
    SendVerdict(c, 5);
    hide Hears, PushRc, OneFrame, T.Change;
    if m.Ping? { Unanswered(c, d); } else { KeptTells(c, d, []); }
  }

  /** DISCONNECT closes the session, and the host is told why; every channel is left as it was. */
  lemma DisconnectIsHeard(cr: Suite, c: Ctx, m: Pdu)
    requires StreamLaw(cr) && Muxing(c, m) && m.Disconnect?
    ensures Hears(cr, c, m) == Advanced(c).(state := Closed, log := c.log + [Disconnected(m.reason)])
  {
    var d := Hears(cr, c, m);
    HearIs(cr, c, m);
    hide Hears, T.Change;
    Unanswered(c, d);
  }

  /** An AUTH PDU has no place here. */
  lemma AuthIsNoMux(cr: Suite, c: Ctx, m: Pdu)
    requires StreamLaw(cr) && Muxing(c, m) && (m.AuthDevice? || m.AuthOk? || m.AuthFail?)
    ensures Breaks(Advanced(c), Hears(cr, c, m), ErrProtocol)
  {
    var d := Hears(cr, c, m);
    HearIs(cr, c, m);
    hide Hears, T.Change;
    Unanswered(c, d);
  }

  /** A record above the limit is not even opened. */
  lemma TooLongIsFatal(cr: Suite, c: Ctx, m: Pdu)
    requires StreamLaw(cr) && c.pull.Some? && Legal(m) && PduLen(m) > Min(c.id.cfg.maxRecord, DATA_MAX + 64)
    ensures Breaks(c, Hears(cr, c, m), ErrProtocol)
  {
    P.SealedOpens(cr, c, m);
    hide OnRecord, Encode;
  }

  // ------------------------------------------------------------------
  // Records no honest peer sends
  // ------------------------------------------------------------------

  /** A ciphertext of a length that is looked at. */
  predicate Sizeable(c: Ctx, ct: bytes) {
    c.pull.Some? && SS_ABYTES <= |ct| <= SS_ABYTES + Min(c.id.cfg.maxRecord, DATA_MAX + 64)
  }

  /**
   * A record that is too short, too long, or does not open ends the session,
   * and leaves the stream where it was.  TAG_FINAL closes it, whatever else is
   * in the record; TAG_REKEY and an empty message are one message and no more.
   */
  lemma RecordsOpen(cr: Suite, c: Ctx, ct: bytes)
    requires c.pull.Some?
    ensures var d, r := OnRecord(cr, c, ct), cr.unseal(c.pull.value, ct);
      && (!Sizeable(c, ct) ==> Breaks(c, d, ErrProtocol))
      && (Sizeable(c, ct) && r.None? ==> Breaks(c, d, ErrCrypto))
      && (Sizeable(c, ct) && r.Some? && r.value.0 == TAG_FINAL ==>
            d == Advanced(c).(state := Closed, log := c.log + [Disconnected(0)]))
      && (Sizeable(c, ct) && r.Some? && r.value.0 != TAG_FINAL && (r.value.0 == TAG_REKEY || r.value.1 == []) ==> d == Advanced(c))
  {
    hide OnPlain;
  }

  /** A message that is no PDU ends the session, except that behind the type byte of a PONG anything will do. */
  lemma JunkIsFatal(cr: Suite, c: Ctx, ct: bytes, tag: byte, plain: bytes)
    requires Sizeable(c, ct) && cr.unseal(c.pull.value, ct) == Some((tag, plain)) && tag != TAG_FINAL && tag != TAG_REKEY
    requires plain != [] && Decode(plain).None? && (c.state == Ready || c.state == Draining || (c.state == Auth && c.tHello.Some?))
    ensures var d := OnRecord(cr, c, ct);
      if plain[0] == T_PONG && c.state != Auth then d == Advanced(c) else Breaks(Advanced(c), d, ErrProtocol)
  {
    assert plain[0] == T_AUTH_DEVICE ==> DecodeAuthDevice(plain) == Decode(plain);
    hide Decode, DecodeAuthDevice, SsSend, Settle, MuxOutcome;
    assert OnRecord(cr, c, ct) == OnPlain(cr, Advanced(c), plain);
  }
}
