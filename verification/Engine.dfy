/**
 * One session as src/sodchan.c runs it: bytes in, bytes out, events out.
 * `Ctx` is sodchan_ctx as a value without its input buffer, which no handler
 * touches; `Side` adds the residual input.  Pending output is a byte string,
 * and `log` records every event offered to the event queue.
 */
module Engine {
  import opened Base
  import opened Mux
  import opened Wire
  import opened WirePdu
  import opened Transcript
  import opened Crypto
  import T = Table

  datatype Hs = Start | WaitPeerHello | WaitPeerSs | Done

  /** What sodchan_create copies from the configuration and nothing changes. */
  datatype Ident = Ident(
    role: Role, cfg: Config, acceptAny: bool,
    clientPk: Option<Key32>, clientSk: Option<Sig64>, serverSk: Option<Sig64>,
    user: bytes, device: bytes)

  datatype AuthFlags = AuthFlags(sent: bool, awaiting: bool, decided: bool, complete: bool)

  /** header is the next secretstream header the random source will give. */
  datatype Ctx = Ctx(
    id: Ident, serverPk: Option<Key32>,
    state: State, hs: Hs,
    ephPk: Key32, ephSk: Key32, header: Header24,
    peerEph: Option<Key32>, peerId: Option<Key32>,
    keyC2s: Key32, keyS2c: Key32,
    push: Option<Stream>, pull: Option<Stream>,
    tHello: Option<bytes>, auth: AuthFlags,
    table: T.Table, out: bytes, log: seq<Event>)

  datatype Side = Side(c: Ctx, inp: bytes)

  const ZERO32: Key32 := Zeros(32)
  const ZERO64: Sig64 := Zeros(64)
  const NO_AUTH: AuthFlags := AuthFlags(false, false, false, false)

  /** "sodchan-ss-c2s-v1" and "sodchan-ss-s2c-v1" */
  const DOM_SS_C2S: bytes := [115, 111, 100, 99, 104, 97, 110, 45, 115, 115, 45, 99, 50, 115, 45, 118, 49]
  const DOM_SS_S2C: bytes := [115, 111, 100, 99, 104, 97, 110, 45, 115, 115, 45, 115, 50, 99, 45, 118, 49]

  const REASON_UNSPEC: int := 0
  const REASON_BAD_SIG: int := 1
  const REASON_POLICY: int := 4

  function OrZero(k: Option<Key32>): Key32 {
    if k.Some? then k.value else ZERO32
  }

  function Emit(c: Ctx, e: Event): Ctx {
    c.(log := c.log + [e])
  }

  /** sodchan_i_set_error */
  function Fail(c: Ctx, rc: Rc): Ctx {
    Emit(c.(state := Error), ErrorEvent(rc))
  }

  // ------------------------------------------------------------------
  // The output path
  // ------------------------------------------------------------------

  function Room(c: Ctx): nat {
    if |c.out| <= OUT_BUF_SIZE then OUT_BUF_SIZE - |c.out| else 0
  }

  function SinkOf(c: Ctx): Sink {
    Sink(c.push.Some?, Room(c))
  }

  /** out_append_frame: a clear frame, or None when it does not fit. */
  function AppendClear(c: Ctx, body: bytes): Option<Ctx> {
    if body == [] || |body| > MAX_CLEAR_FRAME || 4 + |body| > Room(c) then None
    else Some(c.(out := c.out + Frame(body)))
  }

  /** The tail of ss_send_pdu: seal at the push counter, frame, count. */
  function Append(cr: Suite, c: Ctx, p: Pdu): Ctx
    requires Legal(p) && c.push.Some?
  {
    var ct := cr.seal(c.push.value, TAG_MESSAGE, Encode(p));
    c.(out := c.out + PutU32(|ct| % U32) + ct, push := Some(c.push.value.(n := c.push.value.n + 1)))
  }

  /** ss_send_pdu */
  function SsSend(cr: Suite, c: Ctx, p: Pdu): (Ctx, Rc)
    requires Legal(p)
  {
    var rc := PushRc(c.id.cfg, SinkOf(c), PduLen(p));
    if rc == Ok then (Append(cr, c, p), Ok) else (c, rc)
  }

  predicate AllLegal(ps: seq<Pdu>) {
    forall i :: 0 <= i < |ps| ==> Legal(ps[i])
  }

  /** Carry out what a multiplexer operation decided. */
  function Settle(cr: Suite, c: Ctx, o: Outcome): Ctx
    requires AllLegal(o.push) && |o.push| <= 1 && (o.push != [] ==> c.push.Some?)
  {
    var d := if o.push == [] then c else Append(cr, c, o.push[0]);
    d.(state := o.state, table := T.Change(c.table, o.eff), log := c.log + o.events)
  }

  lemma PerformLegal(cfg: Config, st: State, look: Option<Channel>, canAlloc: bool, next: u32, s: Sink, call: Call)
    ensures var o := Perform(cfg, st, look, canAlloc, next, s, call);
      AllLegal(o.push) && |o.push| <= 1 && (o.push != [] ==> s.ready)
  {
  }

  lemma HandleLegal(cfg: Config, st: State, look: Option<Channel>, canAlloc: bool, next: u32, s: Sink, p: Pdu)
    ensures var o := Handle(cfg, st, look, canAlloc, next, s, p);
      AllLegal(o.push) && |o.push| <= 1 && (o.push != [] ==> s.ready)
  {
  }

  // ------------------------------------------------------------------
  // Host calls on channels, and disconnect
  // ------------------------------------------------------------------

  function CallOutcome(c: Ctx, call: Call): Outcome {
    Perform(c.id.cfg, c.state, T.Look(c.table, CallTarget(call)), T.CanAlloc(c.table, c.id.cfg.maxChannels),
            c.table.next, SinkOf(c), call)
  }

  function HostCall(cr: Suite, c: Ctx, call: Call): (Ctx, Rc) {
    PerformLegal(c.id.cfg, c.state, T.Look(c.table, CallTarget(call)), T.CanAlloc(c.table, c.id.cfg.maxChannels),
                 c.table.next, SinkOf(c), call);
    var o := CallOutcome(c, call);
    (Settle(cr, c, o), o.rc)
  }

  // ------------------------------------------------------------------
  // Handshake
  // ------------------------------------------------------------------

  function RoleCode(r: Role): u16 {
    if r == Server then 0 else 1
  }

  /** queue_local_hello; the server records its transcript before it signs. */
  function QueueHello(cr: Suite, c: Ctx): (Ctx, Rc) {
    if c.id.role == Server then
      if c.peerEph.None? then (c, ErrState)
      else
        var t := BuildTHello(PROTO_VERSION, SUITE_V1, c.peerEph.value, c.ephPk, OrZero(c.serverPk));
        var sig := cr.sign(t, if c.id.serverSk.Some? then c.id.serverSk.value else ZERO64);
        var d := c.(tHello := Some(t));
        var h := HelloBody(PROTO_VERSION, SUITE_V1, RoleCode(Server), 0, c.ephPk, OrZero(c.serverPk), sig);
        var e := AppendClear(d, EncodeHello(h));
        if e.Some? then (e.value, Ok) else (d, ErrFull)
    else
      var h := HelloBody(PROTO_VERSION, SUITE_V1, RoleCode(Client), 0, c.ephPk, OrZero(c.id.clientPk), ZERO64);
      var e := AppendClear(c, EncodeHello(h));
      if e.Some? then (e.value, Ok) else (c, ErrFull)
  }

  /** init_push and the clear frame that carries its header. */
  function SendSsHeader(c: Ctx, key: Key32): Option<Ctx> {
    AppendClear(c.(push := Some(Stream(key, c.header, 0))), c.header)
  }

  /** client_send_auth_device; nothing is sent, and nothing is wrong, without a device key. */
  function SendAuthDevice(cr: Suite, c: Ctx): (Ctx, Rc) {
    if c.id.role != Client || c.auth.sent then (c, Ok)
    else if c.id.clientSk.None? || c.id.clientPk.None? || c.tHello.None? then (c, Ok)
    else
      var user, device := c.id.user[..Min(|c.id.user|, USER_MAX)], c.id.device[..Min(|c.id.device|, DEVICE_ID_MAX)];
      var t := BuildTAuth(c.tHello.value, c.id.clientPk.value, user, device);
      var p := AuthDevice(c.id.clientPk.value, cr.sign(t, c.id.clientSk.value), user, device);
      var (d, rc) := SsSend(cr, c, p);
      if rc != Ok then (d, ErrFull) else (d.(auth := d.auth.(sent := true)), Ok)
  }

  function ClientHello(cr: Suite, c: Ctx, h: HelloBody): Ctx
    requires LegalHello(h)
  {
    if h.role != RoleCode(Server) then Fail(c, ErrProtocol)
    else if !c.id.acceptAny && c.serverPk != Some(h.idPk) then Fail(c, ErrProtocol)
    else
      var t := BuildTHello(PROTO_VERSION, SUITE_V1, c.ephPk, h.ephPk, h.idPk);
      var d := c.(serverPk := Some(h.idPk), peerEph := Some(h.ephPk), peerId := Some(h.idPk), tHello := Some(t));
      if !cr.verify(h.idSig, t, h.idPk) then Fail(d, ErrCrypto)
      else
        var e := Emit(d, HelloReceived(Some(h.idPk)));
        var k := cr.kxClient(e.ephPk, e.ephSk, h.ephPk);
        if k.None? then Fail(e, ErrCrypto)
        else
          var f := e.(keyC2s := cr.kdf(k.value.tx, DOM_SS_C2S), keyS2c := cr.kdf(k.value.rx, DOM_SS_S2C));
          var g := SendSsHeader(f, f.keyC2s);
          if g.None? then Fail(f.(push := Some(Stream(f.keyC2s, f.header, 0))), ErrFull)
          else g.value.(state := SsHeader, hs := WaitPeerSs)
  }

  function ServerHello(cr: Suite, c: Ctx, h: HelloBody): Ctx
    requires LegalHello(h)
  {
    if h.role != RoleCode(Client) then Fail(c, ErrProtocol)
    else
      var d := c.(peerEph := Some(h.ephPk), peerId := if h.idPk == ZERO32 then c.peerId else Some(h.idPk));
      var e := Emit(d, HelloReceived(d.peerId));
      var (f, rc) := QueueHello(cr, e);
      if rc != Ok then Fail(f, ErrCrypto)
      else
        var k := cr.kxServer(f.ephPk, f.ephSk, h.ephPk);
        if k.None? then Fail(f, ErrCrypto)
        else f.(keyC2s := cr.kdf(k.value.rx, DOM_SS_C2S), keyS2c := cr.kdf(k.value.tx, DOM_SS_S2C),
                state := SsHeader, hs := WaitPeerSs)
  }

  /** handle_peer_hello */
  function PeerHello(cr: Suite, c: Ctx, body: bytes): Ctx {
    var h := DecodeHello(body);
    if h.None? then Fail(c, ErrProtocol)
    else
      EncodeDecodeHello(body);
      if c.id.role == Client then ClientHello(cr, c, h.value) else ServerHello(cr, c, h.value)
  }

  /** handle_peer_ss_header */
  function PeerSsHeader(cr: Suite, c: Ctx, body: bytes): Ctx {
    if |body| != SS_HEADER_BYTES then Fail(c, ErrProtocol)
    else if c.id.role == Client then
      var d := Emit(c.(pull := Some(Stream(c.keyS2c, body, 0)), hs := Done, state := Auth), KxComplete);
      var (e, rc) := SendAuthDevice(cr, d);
      if rc != Ok then Fail(e, ErrCrypto) else e
    else
      var d := c.(pull := Some(Stream(c.keyC2s, body, 0)));
      var e := SendSsHeader(d, d.keyS2c);
      if e.None? then Fail(d.(push := Some(Stream(d.keyS2c, d.header, 0))), ErrFull)
      else Emit(e.value.(hs := Done, state := Auth), KxComplete)
  }

  // ------------------------------------------------------------------
  // Authentication
  // ------------------------------------------------------------------

  const AUTH_FAIL_PDU: Pdu := AuthFail(0, [])

  /** handle_auth_device_pdu */
  function OnAuthDevice(cr: Suite, c: Ctx, plain: bytes): Ctx
    requires plain != [] && plain[0] == T_AUTH_DEVICE
  {
    if c.id.role != Server then Fail(c, ErrProtocol)
    else if c.auth.awaiting || c.auth.complete || c.auth.decided then Fail(c, ErrProtocol)
    else if c.tHello.None? then Fail(c, ErrState)
    else
      var p := DecodeAuthDevice(plain);
      if p.None? then Fail(c, ErrProtocol)
      else
        EncodeDecodeDevice(plain);
        var pk: Key32, sig: Sig64 := p.value.pk, p.value.sig;
        if !cr.verify(sig, BuildTAuth(c.tHello.value, pk, p.value.user, p.value.device), pk) then
          Fail(Emit(SsSend(cr, c, AUTH_FAIL_PDU).0, AuthFailed(REASON_BAD_SIG)), ErrCrypto)
        else
          Emit(c.(peerId := Some(pk), auth := c.auth.(awaiting := true)),
               AuthDeviceEvent(pk, CString(p.value.user), CString(p.value.device)))
  }

  /** handle_auth_ok_pdu */
  function OnAuthOk(c: Ctx, plain: bytes): Ctx {
    if c.id.role != Client then Fail(c, ErrProtocol)
    else if Decode(plain).None? then Fail(c, ErrProtocol)
    else Emit(c.(auth := c.auth.(complete := true), state := Ready), Authenticated)
  }

  /** handle_auth_fail_pdu */
  function OnAuthFail(c: Ctx, plain: bytes): Ctx {
    if Decode(plain).None? then Fail(c, ErrProtocol)
    else Fail(Emit(c, AuthFailed(REASON_UNSPEC)), ErrRejected)
  }

  function OnAuth(cr: Suite, c: Ctx, plain: bytes): Ctx
    requires plain != []
  {
    if plain[0] == T_AUTH_DEVICE then OnAuthDevice(cr, c, plain)
    else if plain[0] == T_AUTH_OK then OnAuthOk(c, plain)
    else if plain[0] == T_AUTH_FAIL then OnAuthFail(c, plain)
    else Fail(c, ErrProtocol)
  }

  /** sodchan_auth_decide_ex */
  function Decide(cr: Suite, c: Ctx, accept: bool, claims: bytes): (Ctx, Rc) {
    if c.id.role != Server then (c, ErrState)
    else if !c.auth.awaiting || c.auth.decided then (c, ErrState)
    else if c.state != Auth then (c, ErrState)
    else if |claims| > CLAIMS_MAX then (c, ErrParam)
    else
      var d := c.(auth := c.auth.(awaiting := false, decided := true));
      if accept then
        var (e, rc) := SsSend(cr, d, AuthOk(claims));
        if rc != Ok then (Fail(e, ErrFull), ErrFull)
        else (Emit(e.(auth := e.auth.(complete := true), state := Ready), Authenticated), Ok)
      else
        var (e, rc) := SsSend(cr, d, AUTH_FAIL_PDU);
        if rc != Ok then (Fail(e, ErrFull), ErrFull)
        else (Fail(Emit(e, AuthFailed(REASON_POLICY)), ErrRejected), Ok)
  }

  // ------------------------------------------------------------------
  // Records
  // ------------------------------------------------------------------

  function MuxOutcome(c: Ctx, p: Pdu): Outcome {
    Handle(c.id.cfg, c.state, T.Look(c.table, PduTarget(p)), T.CanAlloc(c.table, c.id.cfg.maxChannels),
           c.table.next, SinkOf(c), p)
  }

  /** handle_mux_pdu; a PONG is dropped without being looked at. */
  function OnMux(cr: Suite, c: Ctx, plain: bytes): Ctx {
    var p := Decode(plain);
    if plain != [] && plain[0] == T_PONG then c
    else if p.None? then Fail(c, ErrProtocol)
    else
      HandleLegal(c.id.cfg, c.state, T.Look(c.table, PduTarget(p.value)),
                  T.CanAlloc(c.table, c.id.cfg.maxChannels), c.table.next, SinkOf(c), p.value);
      Settle(cr, c, MuxOutcome(c, p.value))
  }

  /** The dispatch on state at the end of handle_encrypted_pdu. */
  function OnPlain(cr: Suite, c: Ctx, plain: bytes): Ctx
    requires plain != []
  {
    if c.state == Auth then OnAuth(cr, c, plain)
    else if c.state == Ready || c.state == Draining then OnMux(cr, c, plain)
    else Fail(c, ErrState)
  }

  /** handle_encrypted_pdu */
  function OnRecord(cr: Suite, c: Ctx, ct: bytes): Ctx {
    if c.pull.None? then Fail(c, ErrState)
    else if |ct| < SS_ABYTES then Fail(c, ErrProtocol)
    else if |ct| - SS_ABYTES > DATA_MAX + 64 || |ct| - SS_ABYTES > c.id.cfg.maxRecord then Fail(c, ErrProtocol)
    else
      var r := cr.unseal(c.pull.value, ct);
      if r.None? then Fail(c, ErrCrypto)
      else
        var (tag, plain) := r.value;
        var d := c.(pull := Some(c.pull.value.(n := c.pull.value.n + 1)));
        if tag == TAG_FINAL then Emit(d.(state := Closed), Disconnected(0))
        else if tag == TAG_REKEY || plain == [] then d
        else OnPlain(cr, d, plain)
  }

  // ------------------------------------------------------------------
  // Input
  // ------------------------------------------------------------------

  /** The frame limit of the phase. */
  function Limit(c: Ctx): nat {
    if c.hs == Done then FrameMaxBody(c.id.cfg.maxRecord) else MAX_CLEAR_FRAME
  }

  function OnFrame(cr: Suite, c: Ctx, body: bytes): Ctx {
    match c.hs
    case WaitPeerHello => PeerHello(cr, c, body)
    case WaitPeerSs => PeerSsHeader(cr, c, body)
    case Done => OnRecord(cr, c, body)
    case Start => Fail(c, ErrState)
  }

  predicate Stopped(c: Ctx) {
    c.state == Error || c.state == Closed
  }

  /** process_input: a frame that leads to ERROR stays in the buffer. */
  function Process(cr: Suite, s: Side): Side
    decreases |s.inp|
  {
    if Stopped(s.c) then s
    else
      match Parse(s.inp, Limit(s.c))
      case NeedMore => s
      case BadFrame => s.(c := Fail(s.c, ErrProtocol))
      case Framed(body, consumed) =>
        var d := OnFrame(cr, s.c, body);
        if d.state == Error then s.(c := d) else Process(cr, Side(d, s.inp[consumed..]))
  }

  /** Channel ids taken between two states, read off the 32-bit counter. */
  function IdsBetween(c: Ctx, d: Ctx): nat {
    (d.table.next - c.table.next) % U32
  }

  /** Ids taken while the input is processed, frame by frame. */
  function IdsUsed(cr: Suite, s: Side): nat
    decreases |s.inp|
  {
    if Stopped(s.c) then 0
    else
      match Parse(s.inp, Limit(s.c))
      case Framed(body, consumed) =>
        var d := OnFrame(cr, s.c, body);
        if d.state == Error then 0 else IdsBetween(s.c, d) + IdsUsed(cr, Side(d, s.inp[consumed..]))
      case _ => 0
  }

  /** How much of the data sodchan_feed_input takes. */
  function Taken(s: Side, data: bytes): (n: nat)
    ensures n <= |data|
  {
    if Stopped(s.c) then 0
    else if |s.inp| >= IN_BUF_SIZE then 0
    else Min(|data|, IN_BUF_SIZE - |s.inp|)
  }

  function Feed(cr: Suite, s: Side, data: bytes): Side {
    var n := Taken(s, data);
    if n == 0 then s else Process(cr, s.(inp := s.inp + data[..n]))
  }

  /** sodchan_get_output: at most max bytes, oldest first. */
  function Output(c: Ctx, max: nat): (Ctx, bytes) {
    var n := Min(max, |c.out|);
    (c.(out := c.out[n..]), c.out[..n])
  }

  // ------------------------------------------------------------------
  // Creation and reset
  // ------------------------------------------------------------------

  /** handshake_start, with the ephemeral and header the random source gives. */
  function StartHandshake(cr: Suite, c: Ctx, ephSk: Key32, header: Header24): Ctx {
    var d := c.(ephPk := cr.kxPk(ephSk), ephSk := ephSk, header := header);
    var e := if d.id.role == Client then QueueHello(cr, d).0 else d;
    e.(state := Hello, hs := WaitPeerHello)
  }

  function Blank(id: Ident, serverPk: Option<Key32>): Ctx {
    Ctx(id, serverPk, Hello, Start, ZERO32, ZERO32, Zeros(24), None, None, ZERO32, ZERO32, None, None,
        None, NO_AUTH, T.EMPTY, [], [])
  }

  predicate Creatable(id: Ident, serverPk: Option<Key32>) {
    if id.role == Server then serverPk.Some? && id.serverSk.Some? else id.acceptAny || serverPk.Some?
  }

  /** sodchan_create; None where the library returns NULL. */
  function Create(cr: Suite, id: Ident, serverPk: Option<Key32>, ephSk: Key32, header: Header24): Option<Side> {
    if Creatable(id, serverPk) then Some(Side(StartHandshake(cr, Blank(id, serverPk), ephSk, header), [])) else None
  }

  /** sodchan_reset keeps the configuration, and the pin accept_any last stored. */
  function Reset(cr: Suite, s: Side, ephSk: Key32, header: Header24): Side {
    Side(StartHandshake(cr, Blank(s.c.id, s.c.serverPk), ephSk, header), [])
  }
}
