/**
 * The channel multiplexer, src/sodchan.c: what each host call and each
 * received mux PDU does.  Every operation looks at one channel (or at the
 * allocator) and at the output path, and yields an `Outcome`: a return code,
 * the next session state, one change to the channel table, at most one PDU
 * for the peer, and the events offered to the host.
 */
module Mux {
  import opened Base

  datatype Pdu =
    | Open(sender: u32, initWindow: u32, maxPacket: u32, name: bytes)
    | Confirm(sender: u32, recipient: u32, initWindow: u32, maxPacket: u32)
    | OpenFail(recipient: u32, reason: u32, msg: bytes)
    | Window(recipient: u32, add: u32)
    | Data(recipient: u32, data: bytes)
    | Eof(recipient: u32)
    | Close(recipient: u32)
    | Ping(opaq: u32)
    | Pong(opaq: u32)
    | Disconnect(reason: u32, msg: bytes)
    | AuthDevice(pk: bytes, sig: bytes, user: bytes, device: bytes)
    | AuthOk(claims: bytes)
    | AuthFail(cause: byte, note: bytes)

  datatype Event =
    | HelloReceived(peerPk: Option<bytes>)
    | KxComplete
    | AuthDeviceEvent(pk: bytes, user: bytes, device: bytes)
    | Authenticated
    | AuthFailed(cause: int)
    | ChannelOpen(id: u32, peer: u32, name: bytes, initWindow: u32, maxPacket: u32)
    | ChannelOpened(id: u32, peer: u32, name: bytes, initWindow: u32, maxPacket: u32)
    | ChannelOpenFail(id: u32, name: bytes)
    | ChannelData(id: u32, data: bytes)
    | ChannelWindow(id: u32, added: u32, avail: u32)
    | ChannelEof(id: u32)
    | ChannelClose(id: u32)
    | PingEvent
    | Disconnected(reason: u32)
    | ErrorEvent(code: Rc)

  datatype ChState = Unused | Opening | Pending | Opened

  datatype Channel = Channel(
    state: ChState, localId: u32, peerId: u32, havePeer: bool, name: bytes,
    sendWindow: u32, recvWindow: u32, maxPacket: u32,
    localEof: bool, remoteEof: bool)

  /** A slot after memset(ch, 0, sizeof *ch). */
  const BLANK: Channel := Channel(Unused, 0, 0, false, [], 0, 0, 0, false, false)

  datatype Config = Config(
    maxRecord: nat, maxChannels: nat, initialWindow: u32, maxPacket: u32, allowed: bytes)

  /** What ss_send_pdu can see of the output path. */
  datatype Sink = Sink(ready: bool, free: nat)

  /** Length of the plaintext encoding of a PDU. */
  function PduLen(p: Pdu): nat {
    match p
    case Open(_, _, _, name) => 14 + |name|
    case Confirm(_, _, _, _) => 17
    case OpenFail(_, _, msg) => 10 + |msg|
    case Window(_, _) => 9
    case Data(_, data) => 9 + |data|
    case Eof(_) => 5
    case Close(_) => 5
    case Ping(_) => 5
    case Pong(_) => 5
    case Disconnect(_, msg) => 6 + |msg|
    case AuthDevice(pk, sig, user, device) => 3 + |pk| + |sig| + |user| + |device|
    case AuthOk(claims) => 3 + |claims|
    case AuthFail(_, note) => 3 + |note|
  }

  /** Largest ciphertext body: record limit plus tag, clamped to one input buffer. */
  function FrameMaxBody(maxRecord: nat): nat {
    Min(maxRecord + SS_ABYTES, IN_BUF_SIZE - 4)
  }

  /** The verdict of ss_send_pdu on a plaintext of n bytes. */
  function PushRc(cfg: Config, s: Sink, n: nat): Rc {
    if !s.ready || n == 0 then ErrState
    else if n > cfg.maxRecord then ErrParam
    else if 4 + n + SS_ABYTES > s.free then ErrFull
    else if n + SS_ABYTES > FrameMaxBody(cfg.maxRecord) then ErrProtocol
    else Ok
  }

  /** The single change an operation makes to the channel table. */
  datatype Effect =
    | Keep
    | Put(id: u32, ch: Channel)   // overwrite the live channel id
    | Drop(id: u32)               // free the live channel id
    | Add(ch: Channel)            // take a slot under the next id
    | Burn                        // an id was taken and its slot given back

  datatype Outcome = Outcome(rc: Rc, state: State, eff: Effect, push: seq<Pdu>, events: seq<Event>)

  function Refuse(state: State, rc: Rc): Outcome {
    Outcome(rc, state, Keep, [], [])
  }

  function Fatal(rc: Rc): Outcome {
    Outcome(rc, Error, Keep, [], [ErrorEvent(rc)])
  }

  function Quiet(state: State): Outcome {
    Outcome(Ok, state, Keep, [], [])
  }

  /** A reply whose failure the code ignores. */
  function TryPush(cfg: Config, s: Sink, p: Pdu): seq<Pdu> {
    if PushRc(cfg, s, PduLen(p)) == Ok then [p] else []
  }

  /** Split at the first comma: the segment and, when there is a comma, the rest. */
  function Segments(list: bytes): seq<bytes> {
    SegmentsFrom([], list)
  }

  function SegmentsFrom(acc: bytes, list: bytes): seq<bytes>
    decreases |list|
  {
    if list == [] then [acc]
    else if list[0] == COMMA then [acc] + SegmentsFrom([], list[1..])
    else SegmentsFrom(acc + [list[0]], list[1..])
  }

  const COMMA: byte := 44

  predicate NameAllowed(cfg: Config, name: bytes) {
    name != [] && name in Segments(cfg.allowed)
  }

  // ------------------------------------------------------------------
  // Host calls
  // ------------------------------------------------------------------

  datatype Call =
    | CallOpen(name: bytes)
    | CallAccept(id: u32, accept: bool)
    | CallSend(id: u32, data: bytes)
    | CallEof(id: u32)
    | CallClose(id: u32)
    | CallAdjust(id: u32, credit: u32)
    | CallDisconnect(reason: u32, msg: bytes)

  function DoOpen(cfg: Config, st: State, canAlloc: bool, next: u32, s: Sink, name: bytes): Outcome {
    if name == [] then Refuse(st, ErrParam)
    else if st != Ready then Refuse(st, ErrState)
    else if |name| > CHANNEL_NAME_MAX then Refuse(st, ErrParam)
    else if !NameAllowed(cfg, name) then Refuse(st, ErrRejected)
    else if !canAlloc then Refuse(st, ErrFull)
    else
      var ch := BLANK.(state := Opening, localId := next, recvWindow := cfg.initialWindow,
                       maxPacket := cfg.maxPacket, name := name);
      var p := Open(next, cfg.initialWindow, cfg.maxPacket, name);
      if PushRc(cfg, s, PduLen(p)) != Ok then Outcome(ErrFull, st, Burn, [], [])
      else Outcome(Ok, st, Add(ch), [p], [])
  }

  function DoAccept(cfg: Config, st: State, look: Option<Channel>, s: Sink, id: u32, accept: bool): Outcome {
    if st != Ready then Refuse(st, ErrState)
    else if look.None? || look.value.state != Pending || !look.value.havePeer then Refuse(st, ErrState)
    else
      var ch := look.value;
      if accept then
        var p := Confirm(ch.localId, ch.peerId, cfg.initialWindow, cfg.maxPacket);
        if PushRc(cfg, s, PduLen(p)) != Ok then Refuse(st, ErrFull)
        else Outcome(Ok, st, Put(id, ch.(state := Opened, recvWindow := cfg.initialWindow)), [p],
                     [ChannelOpened(ch.localId, ch.peerId, ch.name, cfg.initialWindow, cfg.maxPacket)])
      else
        var p := OpenFail(ch.peerId, REASON_ADMIN_PROHIBITED, []);
        if PushRc(cfg, s, PduLen(p)) != Ok then Refuse(st, ErrFull)
        else Outcome(Ok, st, Drop(id), [p], [])
  }

  function DoSend(cfg: Config, st: State, look: Option<Channel>, s: Sink, id: u32, data: bytes): Outcome {
    if st != Ready then Refuse(st, ErrState)
    else if look.None? || look.value.state != Opened || !look.value.havePeer then Refuse(st, ErrNotFound)
    else
      var ch := look.value;
      if ch.localEof then Refuse(st, ErrState)
      else if |data| > ch.maxPacket || |data| > DATA_MAX then Refuse(st, ErrParam)
      else if |data| > ch.sendWindow then Refuse(st, ErrWindow)
      else
        var p := Data(ch.peerId, data);
        var rc := PushRc(cfg, s, PduLen(p));
        if rc != Ok then Refuse(st, rc)
        else Outcome(Ok, st, Put(id, ch.(sendWindow := ch.sendWindow - |data|)), [p], [])
  }

  function DoEof(cfg: Config, st: State, look: Option<Channel>, s: Sink, id: u32): Outcome {
    if st != Ready then Refuse(st, ErrState)
    else if look.None? || look.value.state != Opened || !look.value.havePeer then Refuse(st, ErrNotFound)
    else if look.value.localEof then Quiet(st)
    else
      var p := Eof(look.value.peerId);
      if PushRc(cfg, s, PduLen(p)) != Ok then Refuse(st, ErrFull)
      else Outcome(Ok, st, Put(id, look.value.(localEof := true)), [p], [])
  }

  /** The slot is freed at once; the CLOSE is lost when it does not fit. */
  function DoClose(cfg: Config, st: State, look: Option<Channel>, s: Sink, id: u32): Outcome {
    if st != Ready && st != Draining then Refuse(st, ErrState)
    else if look.None? then Refuse(st, ErrNotFound)
    else
      var ch := look.value;
      Outcome(Ok, st, Drop(id),
              if ch.havePeer && ch.state == Opened then TryPush(cfg, s, Close(ch.peerId)) else [], [])
  }

  function DoAdjust(cfg: Config, st: State, look: Option<Channel>, s: Sink, id: u32, credit: u32): Outcome {
    if credit == 0 then Refuse(st, ErrParam)
    else if st != Ready then Refuse(st, ErrState)
    else if look.None? || look.value.state != Opened || !look.value.havePeer then Refuse(st, ErrNotFound)
    else
      var ch := look.value;
      var p := Window(ch.peerId, credit);
      if PushRc(cfg, s, PduLen(p)) != Ok then Refuse(st, ErrFull)
      else Outcome(Ok, st, Put(id, ch.(recvWindow := Add32(ch.recvWindow, credit))), [p], [])
  }

  /** A msg longer than 64 bytes is cut; DRAINING is entered even when nothing fits. */
  function DoDisconnect(cfg: Config, st: State, s: Sink, reason: u32, msg: bytes): Outcome {
    if st == Closed then Quiet(st)
    else if s.ready && (st == Ready || st == Auth || st == Draining) then
      Outcome(Ok, Draining, Keep, TryPush(cfg, s, Disconnect(reason, msg[..Min(|msg|, 64)])), [])
    else Outcome(Ok, Closed, Keep, [], [])
  }

  /** The channel a call names, if it names one. */
  function CallTarget(c: Call): Option<u32> {
    match c
    case CallOpen(_) => None
    case CallDisconnect(_, _) => None
    case CallAccept(id, _) => Some(id)
    case CallSend(id, _) => Some(id)
    case CallEof(id) => Some(id)
    case CallClose(id) => Some(id)
    case CallAdjust(id, _) => Some(id)
  }

  function Perform(cfg: Config, st: State, look: Option<Channel>, canAlloc: bool, next: u32, s: Sink, c: Call): Outcome {
    match c
    case CallOpen(name) => DoOpen(cfg, st, canAlloc, next, s, name)
    case CallAccept(id, accept) => DoAccept(cfg, st, look, s, id, accept)
    case CallSend(id, data) => DoSend(cfg, st, look, s, id, data)
    case CallEof(id) => DoEof(cfg, st, look, s, id)
    case CallClose(id) => DoClose(cfg, st, look, s, id)
    case CallAdjust(id, credit) => DoAdjust(cfg, st, look, s, id, credit)
    case CallDisconnect(reason, msg) => DoDisconnect(cfg, st, s, reason, msg)
  }

  // ------------------------------------------------------------------
  // Received mux PDUs
  // ------------------------------------------------------------------

  /** The local channel a received PDU names, if it names one. */
  function PduTarget(p: Pdu): Option<u32> {
    match p
    case Confirm(_, r, _, _) => Some(r)
    case OpenFail(r, _, _) => Some(r)
    case Window(r, _) => Some(r)
    case Data(r, _) => Some(r)
    case Eof(r) => Some(r)
    case Close(r) => Some(r)
    case _ => None
  }

  function HandleOpen(cfg: Config, st: State, canAlloc: bool, next: u32, s: Sink, p: Pdu): Outcome
    requires p.Open?
  {
    var name := CString(p.name);
    if !NameAllowed(cfg, name) then
      Outcome(Ok, st, Keep, TryPush(cfg, s, OpenFail(p.sender, REASON_ADMIN_PROHIBITED, NOT_ALLOWED)), [])
    else if !canAlloc then
      Outcome(Ok, st, Keep, TryPush(cfg, s, OpenFail(p.sender, REASON_RESOURCE_SHORTAGE, [])), [])
    else
      var mp := if p.maxPacket != 0 then p.maxPacket else cfg.maxPacket;
      var ch := Channel(Pending, next, p.sender, true, name, p.initWindow, cfg.initialWindow, mp, false, false);
      Outcome(Ok, st, Add(ch), [], [ChannelOpen(next, p.sender, name, p.initWindow, mp)])
  }

  /** "not allowed" */
  const NOT_ALLOWED: bytes := [110, 111, 116, 32, 97, 108, 108, 111, 119, 101, 100]

  /** handle_mux_pdu after decoding; an AUTH PDU here is an unknown mux PDU. */
  function Handle(cfg: Config, st: State, look: Option<Channel>, canAlloc: bool, next: u32, s: Sink, p: Pdu): Outcome {
    match p
    case Open(_, _, _, _) => HandleOpen(cfg, st, canAlloc, next, s, p)
    case Confirm(sender, r, initWindow, maxPacket) =>
      if look.None? || look.value.state != Opening then Fatal(ErrProtocol)
      else
        var mp := if maxPacket != 0 then maxPacket else cfg.maxPacket;
        Outcome(Ok, st,
                Put(r, look.value.(peerId := sender, havePeer := true, sendWindow := initWindow,
                                   maxPacket := mp, state := Opened)),
                [], [ChannelOpened(look.value.localId, sender, look.value.name, initWindow, mp)])
    case OpenFail(r, _, _) =>
      if look.Some? && look.value.state == Opening then
        Outcome(Ok, st, Drop(r), [], [ChannelOpenFail(look.value.localId, look.value.name)])
      else Quiet(st)
    case Data(r, data) =>
      if look.None? || look.value.state != Opened then Fatal(ErrProtocol)
      else if |data| > look.value.recvWindow then Fatal(ErrProtocol)
      else if |data| > DATA_MAX then Fatal(ErrProtocol)
      else
        Outcome(Ok, st, Put(r, look.value.(recvWindow := look.value.recvWindow - |data|)),
                [], [ChannelData(look.value.localId, data)])
    case Window(r, add) =>
      if look.None? || look.value.state != Opened then Quiet(st)
      else
        var w := Add32(look.value.sendWindow, add);
        Outcome(Ok, st, Put(r, look.value.(sendWindow := w)), [], [ChannelWindow(look.value.localId, add, w)])
    case Eof(r) =>
      if look.None? then Quiet(st)
      else Outcome(Ok, st, Put(r, look.value.(remoteEof := true)), [], [ChannelEof(look.value.localId)])
    case Close(r) =>
      if look.None? then Quiet(st)
      else Outcome(Ok, st, Drop(r), [], [ChannelClose(look.value.localId)])
    case Ping(x) => Outcome(Ok, st, Keep, TryPush(cfg, s, Pong(x)), [PingEvent])
    case Pong(_) => Quiet(st)
    case Disconnect(reason, _) => Outcome(Ok, Closed, Keep, [], [Disconnected(reason)])
    case _ => Fatal(ErrProtocol)
  }
}
