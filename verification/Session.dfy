/**
 * sodchan_ctx and its functions in the form src/sodchan.c has them: one
 * object whose fields, buffers, channel slots and event ring are updated in
 * place.  Every method is proved to do what the functions of `Engine` say.
 */
module Session {
  import opened Base
  import opened Mux
  import opened Wire
  import opened WirePdu
  import opened Transcript
  import opened Crypto
  import opened Engine
  import Allow
  import B = Buffers
  import C = ChannelTable
  import D = Decoder
  import E = Encoder
  import R = EventRing
  import Q = Sequenced
  import T = Table

  lemma SealLength(cr: Suite, st: Stream, plain: bytes)
    requires StreamLaw(cr) && |plain| <= IN_BUF_SIZE
    ensures var n := |cr.seal(st, TAG_MESSAGE, plain)|; n == |plain| + SS_ABYTES && n % U32 == n
  {
  }

  lemma QueueHelloKeeps(cr: Suite, c: Ctx)
    ensures var d := QueueHello(cr, c).0; d == c.(tHello := d.tHello, out := d.out)
  {
    hide BuildTHello, EncodeHello, Frame;
  }

  lemma SendDeviceKeepsState(cr: Suite, c: Ctx)
    ensures var d := SendAuthDevice(cr, c).0; d == c.(push := d.push, out := d.out, auth := d.auth)
  {
    hide PushRc, Encode, BuildTAuth;
  }

  lemma TAuthLength(tHello: bytes, pk: Key32, user: bytes, device: bytes)
    requires |tHello| == T_HELLO_LEN && LegalNames(user, device)
    ensures |BuildTAuth(tHello, pk, user, device)| <= 512
  {
  }

  lemma DecodesDevice(plain: bytes)
    requires plain != [] && plain[0] == T_AUTH_DEVICE
    ensures Decode(plain) == DecodeAuthDevice(plain) && D.Accepts(plain, T_AUTH_DEVICE) == DecodeAuthDevice(plain).Some?
  {
  }

  /** AUTH PDUs and unknown types are no business of the multiplexer. */
  lemma UnknownType(cr: Suite, c: Ctx, plain: bytes)
    requires plain != [] && !(T_OPEN <= plain[0] <= T_DISCONNECT)
    ensures OnMux(cr, c, plain) == Fail(c, ErrProtocol)
  {
    var p := Decode(plain);
    if p.Some? {
      AuthByType(plain);
      Q.RestIs(cr, c, plain, p.value);
    }
    hide Decode, Settle;
  }

  lemma AuthByType(plain: bytes)
    requires plain != [] && !(T_OPEN <= plain[0] <= T_DISCONNECT) && Decode(plain).Some?
    ensures Decode(plain).value.AuthDevice? || Decode(plain).value.AuthOk? || Decode(plain).value.AuthFail?
  {
  }

  lemma Overwritten(s: seq<Channel>, i: nat, x: Channel, y: Channel)
    requires i < |s|
    ensures s[i := x][i := y] == s[i := y]
  {
  }

  class Session {
    const cr: Suite
    const id: Ident
    const out: B.OutBuffer
    const input: B.InBuffer
    const table: C.ChannelTable
    const events: R.EventRing

    var serverPk: Option<Key32>
    var state: State
    var hs: Hs
    var ephPk: Key32
    var ephSk: Key32
    var header: Header24
    var peerEph: Option<Key32>
    var peerId: Option<Key32>
    var keyC2s: Key32
    var keyS2c: Key32
    var push: Option<Stream>
    var pull: Option<Stream>
    var tHello: Option<bytes>
    var authSent: bool
    var authAwaiting: bool
    var authDecided: bool
    var authComplete: bool

    /** Everything but the input buffer, which no handler touches. */
    ghost function Parts(): set<object> {
      {this, out, out.buf, table, table.slots, events, events.ring}
    }

    ghost predicate Valid()
      reads this, out, out.buf, table, table.slots, events, events.ring, input, input.buf
    {
      && out.Valid() && input.Valid() && table.Valid() && events.Valid() && StreamLaw(cr)
      && out.buf != input.buf && (tHello.Some? ==> |tHello.value| == T_HELLO_LEN)
    }

    /** The abstract session: what the fields, the buffers and the slots stand for. */
    ghost function Core(): Ctx
      requires out.Valid()
      reads this, out, out.buf, table, table.slots, events, events.ring
    {
      Ctx(id, serverPk, state, hs, ephPk, ephSk, header, peerEph, peerId, keyC2s, keyS2c, push, pull, tHello,
          AuthFlags(authSent, authAwaiting, authDecided, authComplete), table.Model(), out.Pending(), events.offered)
    }

    ghost function Model(): Side
      requires out.Valid() && input.Valid()
      reads this, out, out.buf, table, table.slots, events, events.ring, input, input.buf
    {
      Side(Core(), input.Held())
    }

    // ----------------------------------------------------------------
    // Events, errors, the output path
    // ----------------------------------------------------------------

    /** A queued event whose loss the callers ignore. */
    method QueueEvent(e: Event)
      requires Valid()
      modifies events, events.ring
      ensures Valid() && Core() == Emit(old(Core()), e)
    {
      var _ := events.Queue(e);
    }

    /** sodchan_i_set_error */
    method SetError(rc: Rc)
      requires Valid()
      modifies Parts()
      ensures Valid() && Core() == Fail(old(Core()), rc)
    {
      state := Error;
      QueueEvent(ErrorEvent(rc));
    }

    /** ss_frame_max_body */
    function MaxBody(): nat {
      FrameMaxBody(id.cfg.maxRecord)
    }

    /** out_append_frame */
    method AppendFrame(body: bytes) returns (rc: Rc)
      requires Valid()
      modifies out, out.buf
      ensures Valid() && (rc == Ok <==> AppendClear(old(Core()), body).Some?)
      ensures Core() == if rc == Ok then AppendClear(old(Core()), body).value else old(Core())
      ensures rc != Ok && 0 < |body| <= MAX_CLEAR_FRAME ==> rc == ErrFull
    {
      hide R.EventRing.Valid, StreamLaw, PutU32;
      var frame := new byte[4 + MAX_CLEAR_FRAME](_ => 0);
      var flen;
      rc, flen := E.FrameBody(body, MAX_CLEAR_FRAME, frame);
      if rc != Ok {
        return;
      }
      rc := out.Append(frame[..flen]);
    }

    /** The checks at the head of ss_send_pdu; the buffer is compacted once the size is right. */
    method CheckRecord(n: nat) returns (rc: Rc)
      requires Valid()
      modifies out, out.buf
      ensures Valid() && Core() == old(Core()) && rc == PushRc(id.cfg, SinkOf(Core()), n)
      ensures rc == Ok ==> out.off == 0 && out.len + 4 + n + SS_ABYTES <= out.buf.Length
    {
      hide R.EventRing.Valid, StreamLaw;
      if push.None? || n == 0 {
        return ErrState;
      }
      if n > id.cfg.maxRecord {
        return ErrParam;
      }
      out.Compact();
      if 4 + n + SS_ABYTES > out.buf.Length - out.len {
        return ErrFull;
      }
      if n + SS_ABYTES > MaxBody() {
        return ErrProtocol;
      }
      return Ok;
    }

    /** ss_send_pdu: one whole sealed frame and the counter, or nothing. */
    method SsSendPdu(plain: bytes, ghost p: Pdu) returns (rc: Rc)
      requires Valid() && Legal(p) && plain == Encode(p)
      modifies this`push, out, out.buf
      ensures Valid() && (Core(), rc) == SsSend(cr, old(Core()), p)
    {
      hide Encode, Legal, PutU32, StreamLaw, R.EventRing.Valid, SinkOf;
      Q.RecordFits(Core(), |plain|);
      rc := CheckRecord(|plain|);
      hide PushRc;
      if rc != Ok {
        return;
      }
      var ct := cr.seal(push.value, TAG_MESSAGE, plain);
      SealLength(cr, push.value, plain);
      out.AppendRecord(ct);
      SetPush(Some(push.value.(n := push.value.n + 1)));
      assert Core() == Append(cr, old(Core()), p);
    }

    /** Write a channel slot. */
    method SetChannel(i: nat, ch: Channel)
      requires Valid() && i < MAX_CHANNELS
      modifies table.slots
      ensures Valid() && Core() == old(Core()).(table := old(Core()).table.(slots := old(Core()).table.slots[i := ch]))
    {
      table.Set(i, ch);
    }

    // ----------------------------------------------------------------
    // Handshake
    // ----------------------------------------------------------------

    /** queue_local_hello */
    method QueueLocalHello() returns (rc: Rc)
      requires Valid()
      modifies this`tHello, out, out.buf
      ensures Valid() && (Core(), rc) == QueueHello(cr, old(Core()))
    {
      hide R.EventRing.Valid, StreamLaw, AppendClear, BuildTHello, EncodeHello;
      var h := HelloBody(PROTO_VERSION, SUITE_V1, RoleCode(id.role), 0, ephPk, ZERO32, ZERO64);
      if id.role == Server {
        if peerEph.None? {
          return ErrState;
        }
        StoreTranscript(peerEph.value, ephPk, OrZero(serverPk));
        h := h.(idPk := OrZero(serverPk), idSig := cr.sign(tHello.value, if id.serverSk.Some? then id.serverSk.value else ZERO64));
      } else {
        h := h.(idPk := OrZero(id.clientPk));
      }
      var body := new byte[HELLO_BODY_LEN](_ => 0);
      var blen;
      rc, blen := E.Hello(h, body);
      rc := AppendFrame(body[..blen]);
    }

    method Enter(st: State, step: Hs)
      requires Valid()
      modifies this`state, this`hs
      ensures Valid() && Core() == old(Core()).(state := st, hs := step)
    {
      hide R.EventRing.Valid, StreamLaw;
      state, hs := st, step;
    }

    method SetEphemeral(pk: Key32, sk: Key32, header: Header24)
      requires Valid()
      modifies this`ephPk, this`ephSk, this`header
      ensures Valid() && Core() == old(Core()).(ephPk := pk, ephSk := sk, header := header)
    {
      hide R.EventRing.Valid, StreamLaw;
      ephPk, ephSk, this.header := pk, sk, header;
    }

    method SetPeer(eph: Option<Key32>, pk: Option<Key32>)
      requires Valid()
      modifies this`peerEph, this`peerId
      ensures Valid() && Core() == old(Core()).(peerEph := eph, peerId := pk)
    {
      hide R.EventRing.Valid, StreamLaw;
      peerEph, peerId := eph, pk;
    }

    method SetTranscript(t: Option<bytes>)
      requires Valid() && (t.Some? ==> |t.value| == T_HELLO_LEN)
      modifies this`tHello
      ensures Valid() && Core() == old(Core()).(tHello := t)
    {
      hide R.EventRing.Valid, StreamLaw;
      tHello := t;
    }

    method SetKeys(c2s: Key32, s2c: Key32)
      requires Valid()
      modifies this`keyC2s, this`keyS2c
      ensures Valid() && Core() == old(Core()).(keyC2s := c2s, keyS2c := s2c)
    {
      hide R.EventRing.Valid, StreamLaw;
      keyC2s, keyS2c := c2s, s2c;
    }

    method SetPush(st: Option<Stream>)
      requires Valid()
      modifies this`push
      ensures Valid() && Core() == old(Core()).(push := st)
    {
      hide R.EventRing.Valid, StreamLaw;
      push := st;
    }

    method SetPull(st: Option<Stream>)
      requires Valid()
      modifies this`pull
      ensures Valid() && Core() == old(Core()).(pull := st)
    {
      hide R.EventRing.Valid, StreamLaw;
      pull := st;
    }

    method ClearAuth()
      requires Valid()
      modifies this`authSent, this`authAwaiting, this`authDecided, this`authComplete
      ensures Valid() && Core() == old(Core()).(auth := NO_AUTH)
    {
      hide R.EventRing.Valid, StreamLaw;
      ClearClientAuth();
      ClearServerAuth();
    }

    method ClearClientAuth()
      requires Valid()
      modifies this`authSent, this`authComplete
      ensures Valid() && Core() == old(Core()).(auth := old(Core()).auth.(sent := false, complete := false))
    {
      hide R.EventRing.Valid, StreamLaw;
      authSent, authComplete := false, false;
    }

    method ClearServerAuth()
      requires Valid()
      modifies this`authAwaiting, this`authDecided
      ensures Valid() && Core() == old(Core()).(auth := old(Core()).auth.(awaiting := false, decided := false))
    {
      hide R.EventRing.Valid, StreamLaw;
      authAwaiting, authDecided := false, false;
    }

    /** handshake_start */
    method HandshakeStart(ephSk: Key32, header: Header24)
      requires Valid()
      modifies this, out, out.buf
      ensures Valid() && Core() == StartHandshake(cr, old(Core()), ephSk, header)
    {
      hide R.EventRing.Valid, StreamLaw, QueueHello;
      SetEphemeral(cr.kxPk(ephSk), ephSk, header);
      if id.role == Client {
        var _ := QueueLocalHello();
      }
      Enter(Hello, WaitPeerHello);
    }

    /** sodchan_create, once its arguments have been accepted. */
    constructor (cr: Suite, id: Ident, serverPk: Option<Key32>, ephSk: Key32, header: Header24, eventCap: nat)
      requires StreamLaw(cr) && Creatable(id, serverPk) && eventCap > 0
      ensures Valid() && Some(Model()) == Create(cr, id, serverPk, ephSk, header) && events.ring.Length == eventCap
      ensures fresh(out) && fresh(out.buf) && fresh(input) && fresh(input.buf)
      ensures fresh(table) && fresh(table.slots) && fresh(events) && fresh(events.ring)
    {
      this.cr, this.id, this.serverPk := cr, id, serverPk;
      out := new B.OutBuffer();
      input := new B.InBuffer();
      table := new C.ChannelTable();
      events := new R.EventRing(eventCap);
      state, hs := Hello, Start;
      ephPk, this.ephSk, this.header := ZERO32, ZERO32, Zeros(24);
      peerEph, peerId, tHello := None, None, None;
      keyC2s, keyS2c := ZERO32, ZERO32;
      push, pull := None, None;
      authSent, authAwaiting, authDecided, authComplete := false, false, false, false;
      new;
      hide R.EventRing.Valid, StreamLaw, StartHandshake, T.EMPTY, Creatable;
      assert Core() == Blank(id, serverPk);
      HandshakeStart(ephSk, header);
    }

    /** The scalar part of sodchan_reset; the configuration and the stored pin stay. */
    method Forget()
      requires Valid()
      modifies this
      ensures Valid() && Core() == Blank(id, old(serverPk)).(table := old(Core()).table, out := old(Core()).out, log := old(Core()).log)
    {
      hide R.EventRing.Valid, StreamLaw, T.EMPTY;
      SetEphemeral(ZERO32, ZERO32, Zeros(24));
      SetKeys(ZERO32, ZERO32);
      SetPeer(None, None);
      SetTranscript(None);
      SetPush(None);
      SetPull(None);
      ClearAuth();
      Enter(Hello, Start);
    }

    method Empty()
      requires Valid()
      modifies table, table.slots, events, out, input
      ensures Valid() && Core() == old(Core()).(table := T.EMPTY, out := [], log := []) && input.Held() == []
    {
      hide StreamLaw, T.EMPTY;
      table.Clear();
      events.Clear();
      out.Clear();
      input.Clear();
    }

    /** sodchan_reset */
    method Reset(ephSk: Key32, header: Header24)
      requires Valid()
      modifies Parts(), input
      ensures Valid() && Model() == Engine.Reset(cr, old(Model()), ephSk, header)
    {
      hide R.EventRing.Valid, StreamLaw, StartHandshake, T.EMPTY;
      Forget();
      Empty();
      HandshakeStart(ephSk, header);
    }

    method Pin(pk: Key32)
      requires Valid()
      modifies this`serverPk
      ensures Valid() && Core() == old(Core()).(serverPk := Some(pk))
    {
      hide R.EventRing.Valid, StreamLaw;
      serverPk := Some(pk);
    }

    /** The transcript of this session, built in a buffer and stored. */
    method StoreTranscript(clientEph: Key32, serverEph: Key32, serverId: Key32)
      requires Valid()
      modifies this`tHello
      ensures Valid()
      ensures Core() == old(Core()).(tHello := Some(BuildTHello(PROTO_VERSION, SUITE_V1, clientEph, serverEph, serverId)))
    {
      hide R.EventRing.Valid, StreamLaw, BuildTHello;
      var t := new byte[T_HELLO_LEN](_ => 0);
      E.THello(PROTO_VERSION, SUITE_V1, clientEph, serverEph, serverId, t);
      SetTranscript(Some(t[..]));
    }

    /** client_send_ss_header_c2s and server_send_ss_header_s2c */
    method SendHeader(key: Key32) returns (rc: Rc)
      requires Valid()
      modifies this`push, out, out.buf
      ensures Valid() && (rc == Ok <==> SendSsHeader(old(Core()), key).Some?)
      ensures Core() == if rc == Ok then SendSsHeader(old(Core()), key).value
        else old(Core()).(push := Some(Stream(key, old(Core()).header, 0)))
    {
      hide R.EventRing.Valid, StreamLaw, AppendClear;
      SetPush(Some(Stream(key, header, 0)));
      rc := AppendFrame(header);
    }

    /** The client's half of handle_peer_hello. */
    method HandleServerHello(h: HelloBody) returns (bad: bool)
      requires Valid() && LegalHello(h) && state != Error && id.role == Client
      modifies Parts()
      ensures Valid() && Core() == ClientHello(cr, old(Core()), h) && bad == (state == Error)
    {
      hide R.EventRing.Valid, StreamLaw, BuildTHello, SendSsHeader;
      if h.role != RoleCode(Server) {
        SetError(ErrProtocol);
        return true;
      }
      if !id.acceptAny {
        if serverPk != Some(h.idPk) {
          SetError(ErrProtocol);
          return true;
        }
      } else {
        Pin(h.idPk);
      }
      SetPeer(Some(h.ephPk), Some(h.idPk));
      StoreTranscript(ephPk, h.ephPk, h.idPk);
      if !cr.verify(h.idSig, tHello.value, h.idPk) {
        SetError(ErrCrypto);
        return true;
      }
      bad := StartClientStream();
    }

    /** derive_ss_keys_client and the header frame, once the server is proven. */
    method StartClientStream() returns (bad: bool)
      requires Valid() && state != Error && peerEph.Some? && peerId.Some?
      modifies Parts()
      ensures Valid() && bad == (state == Error)
      ensures var e := Emit(old(Core()), HelloReceived(old(Core()).peerId));
        var k := cr.kxClient(e.ephPk, e.ephSk, e.peerEph.value);
        Core() == if k.None? then Fail(e, ErrCrypto)
          else
            var f := e.(keyC2s := cr.kdf(k.value.tx, DOM_SS_C2S), keyS2c := cr.kdf(k.value.rx, DOM_SS_S2C));
            var g := SendSsHeader(f, f.keyC2s);
            if g.None? then Fail(f.(push := Some(Stream(f.keyC2s, f.header, 0))), ErrFull)
            else g.value.(state := SsHeader, hs := WaitPeerSs)
    {
      hide R.EventRing.Valid, StreamLaw, SendSsHeader, DOM_SS_C2S, DOM_SS_S2C;
      QueueEvent(HelloReceived(peerId));
      var k := cr.kxClient(ephPk, ephSk, peerEph.value);
      if k.None? {
        SetError(ErrCrypto);
        return true;
      }
      SetKeys(cr.kdf(k.value.tx, DOM_SS_C2S), cr.kdf(k.value.rx, DOM_SS_S2C));
      var rc := SendHeader(keyC2s);
      if rc != Ok {
        SetError(ErrFull);
        return true;
      }
      Enter(SsHeader, WaitPeerSs);
      return false;
    }

    /** The server's half of handle_peer_hello. */
    method HandleClientHello(h: HelloBody) returns (bad: bool)
      requires Valid() && LegalHello(h) && state != Error && id.role == Server
      modifies Parts()
      ensures Valid() && Core() == ServerHello(cr, old(Core()), h) && bad == (state == Error)
    {
      hide R.EventRing.Valid, StreamLaw, QueueHello, DOM_SS_C2S, DOM_SS_S2C;
      if h.role != RoleCode(Client) {
        SetError(ErrProtocol);
        return true;
      }
      SetPeer(Some(h.ephPk), if h.idPk == ZERO32 then peerId else Some(h.idPk));
      QueueEvent(HelloReceived(peerId));
      QueueHelloKeeps(cr, Core());
      var rc := QueueLocalHello();
      if rc != Ok {
        SetError(ErrCrypto);
        return true;
      }
      bad := DeriveServerKeys();
    }

    /** derive_ss_keys_server */
    method DeriveServerKeys() returns (bad: bool)
      requires Valid() && state != Error && peerEph.Some?
      modifies Parts()
      ensures Valid() && bad == (state == Error)
      ensures var f := old(Core()); var k := cr.kxServer(f.ephPk, f.ephSk, f.peerEph.value);
        Core() == if k.None? then Fail(f, ErrCrypto)
          else f.(keyC2s := cr.kdf(k.value.rx, DOM_SS_C2S), keyS2c := cr.kdf(k.value.tx, DOM_SS_S2C), state := SsHeader, hs := WaitPeerSs)
    {
      hide R.EventRing.Valid, StreamLaw, DOM_SS_C2S, DOM_SS_S2C;
      var k := cr.kxServer(ephPk, ephSk, peerEph.value);
      if k.None? {
        SetError(ErrCrypto);
        return true;
      }
      SetKeys(cr.kdf(k.value.rx, DOM_SS_C2S), cr.kdf(k.value.tx, DOM_SS_S2C));
      Enter(SsHeader, WaitPeerSs);
      return false;
    }

    /** handle_peer_hello */
    method HandlePeerHello(body: bytes) returns (bad: bool)
      requires Valid() && state != Error
      modifies Parts()
      ensures Valid() && Core() == PeerHello(cr, old(Core()), body) && bad == (state == Error)
    {
      hide R.EventRing.Valid, StreamLaw, DecodeHello, ClientHello, ServerHello;
      var rc, h := D.Hello(body);
      if rc != Ok {
        SetError(ErrProtocol);
        return true;
      }
      EncodeDecodeHello(body);
      if id.role == Client {
        bad := HandleServerHello(h);
      } else {
        bad := HandleClientHello(h);
      }
    }

    method MarkSent()
      requires Valid()
      modifies this`authSent
      ensures Valid() && Core() == old(Core()).(auth := old(Core()).auth.(sent := true))
    {
      hide R.EventRing.Valid, StreamLaw;
      authSent := true;
    }

    /** client_send_auth_device */
    method ClientSendAuthDevice() returns (rc: Rc)
      requires Valid()
      modifies this`push, this`authSent, out, out.buf
      ensures Valid() && (Core(), rc) == SendAuthDevice(cr, old(Core()))
    {
      hide R.EventRing.Valid, StreamLaw, SsSend, BuildTAuth, Encode;
      if id.role != Client || authSent {
        return Ok;
      }
      if id.clientSk.None? || id.clientPk.None? || tHello.None? {
        return Ok;
      }
      var user, device := id.user[..Min(|id.user|, USER_MAX)], id.device[..Min(|id.device|, DEVICE_ID_MAX)];
      var tAuth := new byte[512](_ => 0);
      var pdu := new byte[512](_ => 0);
      TAuthLength(tHello.value, id.clientPk.value, user, device);
      var t, n;
      rc, t := E.TAuth(tHello.value, id.clientPk.value, user, device, tAuth);
      var sig := cr.sign(tAuth[..t], id.clientSk.value);
      rc, n := E.AuthDevice(id.clientPk.value, sig, user, device, pdu);
      rc := SsSendPdu(pdu[..n], AuthDevice(id.clientPk.value, sig, user, device));
      if rc != Ok {
        return ErrFull;
      }
      MarkSent();
      return Ok;
    }

    /** handle_peer_ss_header, the client: AUTH_DEVICE goes out at once. */
    method TakeServerHeader(body: Header24) returns (bad: bool)
      requires Valid() && state != Error && id.role == Client
      modifies Parts()
      ensures Valid() && Core() == PeerSsHeader(cr, old(Core()), body) && bad == (state == Error)
    {
      hide R.EventRing.Valid, StreamLaw, SendAuthDevice, SendSsHeader;
      SetPull(Some(Stream(keyS2c, body, 0)));
      Enter(Auth, Done);
      QueueEvent(KxComplete);
      SendDeviceKeepsState(cr, Core());
      var rc := ClientSendAuthDevice();
      if rc != Ok {
        SetError(ErrCrypto);
      }
      return rc != Ok;
    }

    /** handle_peer_ss_header, the server: its own header goes out first. */
    method TakeClientHeader(body: Header24) returns (bad: bool)
      requires Valid() && state != Error && id.role == Server
      modifies Parts()
      ensures Valid() && Core() == PeerSsHeader(cr, old(Core()), body) && bad == (state == Error)
    {
      hide R.EventRing.Valid, StreamLaw, SendAuthDevice, SendSsHeader;
      SetPull(Some(Stream(keyC2s, body, 0)));
      var rc := SendHeader(keyS2c);
      if rc != Ok {
        SetError(ErrFull);
        return true;
      }
      Enter(Auth, Done);
      QueueEvent(KxComplete);
      return false;
    }

    method HandlePeerSsHeader(body: bytes) returns (bad: bool)
      requires Valid() && state != Error
      modifies Parts()
      ensures Valid() && Core() == PeerSsHeader(cr, old(Core()), body) && bad == (state == Error)
    {
      hide R.EventRing.Valid, StreamLaw, SendAuthDevice, SendSsHeader;
      if |body| != SS_HEADER_BYTES {
        SetError(ErrProtocol);
        return true;
      }
      if id.role == Client {
        bad := TakeServerHeader(body);
      } else {
        bad := TakeClientHeader(body);
      }
    }

    // ----------------------------------------------------------------
    // Authentication
    // ----------------------------------------------------------------

    /** server_send_auth_fail */
    method ServerSendAuthFail() returns (rc: Rc)
      requires Valid()
      modifies this`push, out, out.buf
      ensures Valid() && (Core(), rc) == SsSend(cr, old(Core()), AUTH_FAIL_PDU)
    {
      hide R.EventRing.Valid, StreamLaw, SsSend;
      var pdu := new byte[8](_ => 0);
      var n;
      rc, n := E.AuthFail(pdu);
      rc := SsSendPdu(pdu[..n], AUTH_FAIL_PDU);
    }

    /** server_send_auth_ok */
    method ServerSendAuthOk(claims: bytes) returns (rc: Rc)
      requires Valid() && |claims| <= CLAIMS_MAX
      modifies this`push, out, out.buf
      ensures Valid() && (Core(), rc) == SsSend(cr, old(Core()), AuthOk(claims))
    {
      hide R.EventRing.Valid, StreamLaw, SsSend, Encode;
      var pdu := new byte[3 + CLAIMS_MAX](_ => 0);
      var n;
      rc, n := E.AuthOk(claims, pdu);
      rc := SsSendPdu(pdu[..n], AuthOk(claims));
    }

    method Await(pk: Key32)
      requires Valid()
      modifies this`peerId, this`authAwaiting
      ensures Valid() && Core() == old(Core()).(peerId := Some(pk), auth := old(Core()).auth.(awaiting := true))
    {
      hide R.EventRing.Valid, StreamLaw;
      peerId, authAwaiting := Some(pk), true;
    }

    /** handle_auth_device_pdu */
    method HandleAuthDevicePdu(plain: bytes) returns (bad: bool)
      requires Valid() && state != Error && plain != [] && plain[0] == T_AUTH_DEVICE
      modifies Parts()
      ensures Valid() && Core() == OnAuthDevice(cr, old(Core()), plain) && bad == (state == Error)
    {
      hide R.EventRing.Valid, StreamLaw, SsSend, BuildTAuth, DecodeAuthDevice, CString;
      if id.role != Server {
        SetError(ErrProtocol);
        return true;
      }
      if authAwaiting || authComplete || authDecided {
        SetError(ErrProtocol);
        return true;
      }
      if tHello.None? {
        SetError(ErrState);
        return true;
      }
      bad := VerifyDevice(plain);
    }

    /** A bad device signature: told to the peer and to the host, then fatal. */
    method RejectDevice()
      requires Valid()
      modifies Parts()
      ensures Valid() && state == Error
      ensures Core() == Fail(Emit(SsSend(cr, old(Core()), AUTH_FAIL_PDU).0, AuthFailed(REASON_BAD_SIG)), ErrCrypto)
    {
      hide R.EventRing.Valid, StreamLaw, SsSend;
      var _ := ServerSendAuthFail();
      QueueEvent(AuthFailed(REASON_BAD_SIG));
      SetError(ErrCrypto);
    }

    /** Decode, rebuild the transcript, verify. */
    method VerifyDevice(plain: bytes) returns (bad: bool)
      requires Valid() && state != Error && plain != [] && plain[0] == T_AUTH_DEVICE
      requires id.role == Server && !authAwaiting && !authComplete && !authDecided && tHello.Some?
      modifies Parts()
      ensures Valid() && Core() == OnAuthDevice(cr, old(Core()), plain) && bad == (state == Error)
    {
      hide R.EventRing.Valid, StreamLaw, SsSend, BuildTAuth, CString, Encode, DecodeAuthDevice, Decode;
      DecodesDevice(plain);
      var rc, pk, sig, user, device := D.AuthDevice(plain);
      if rc != Ok {
        SetError(ErrProtocol);
        return true;
      }
      EncodeDecodeDevice(plain);
      var tAuth := new byte[512](_ => 0);
      TAuthLength(tHello.value, pk, user, device);
      var n;
      rc, n := E.TAuth(tHello.value, pk, user, device, tAuth);
      if !cr.verify(sig, tAuth[..n], pk) {
        RejectDevice();
        return true;
      }
      Await(pk);
      QueueEvent(AuthDeviceEvent(pk, CString(user), CString(device)));
      return false;
    }

    method Complete()
      requires Valid()
      modifies this`authComplete, this`state
      ensures Valid() && Core() == old(Core()).(auth := old(Core()).auth.(complete := true), state := Ready)
    {
      hide R.EventRing.Valid, StreamLaw;
      authComplete, state := true, Ready;
    }

    method MarkDecided()
      requires Valid()
      modifies this`authAwaiting, this`authDecided
      ensures Valid() && Core() == old(Core()).(auth := old(Core()).auth.(awaiting := false, decided := true))
    {
      hide R.EventRing.Valid, StreamLaw;
      authAwaiting, authDecided := false, true;
    }

    /** handle_auth_ok_pdu */
    method HandleAuthOkPdu(plain: bytes) returns (bad: bool)
      requires Valid() && state != Error && plain != [] && plain[0] == T_AUTH_OK
      modifies Parts()
      ensures Valid() && Core() == OnAuthOk(old(Core()), plain) && bad == (state == Error)
    {
      hide R.EventRing.Valid, StreamLaw, Decode;
      if id.role != Client {
        SetError(ErrProtocol);
        return true;
      }
      var rc, claims := D.AuthOk(plain);
      if rc != Ok {
        SetError(ErrProtocol);
        return true;
      }
      Complete();
      QueueEvent(Authenticated);
      return false;
    }

    /** handle_auth_fail_pdu */
    method HandleAuthFailPdu(plain: bytes)
      requires Valid() && plain != [] && plain[0] == T_AUTH_FAIL
      modifies Parts()
      ensures Valid() && Core() == OnAuthFail(old(Core()), plain) && state == Error
    {
      hide R.EventRing.Valid, StreamLaw, Decode;
      var rc, cause, note := D.AuthFail(plain);
      if rc != Ok {
        SetError(ErrProtocol);
        return;
      }
      QueueEvent(AuthFailed(REASON_UNSPEC));
      SetError(ErrRejected);
    }

    /** sodchan_auth_decide_ex */
    method AuthDecide(accept: bool, claims: bytes) returns (rc: Rc)
      requires Valid()
      modifies Parts()
      ensures Valid() && (Core(), rc) == Decide(cr, old(Core()), accept, claims)
    {
      hide R.EventRing.Valid, StreamLaw, SsSend;
      if id.role != Server {
        return ErrState;
      }
      if !authAwaiting || authDecided {
        return ErrState;
      }
      if state != Auth {
        return ErrState;
      }
      if |claims| > CLAIMS_MAX {
        return ErrParam;
      }
      if accept {
        rc := AcceptDevice(claims);
      } else {
        rc := RefuseDevice();
      }
    }

    method AcceptDevice(claims: bytes) returns (rc: Rc)
      requires Valid() && id.role == Server && authAwaiting && !authDecided && state == Auth && |claims| <= CLAIMS_MAX
      modifies Parts()
      ensures Valid() && (Core(), rc) == Decide(cr, old(Core()), true, claims)
    {
      hide R.EventRing.Valid, StreamLaw, SsSend;
      MarkDecided();
      rc := ServerSendAuthOk(claims);
      if rc != Ok {
        SetError(ErrFull);
        return ErrFull;
      }
      Complete();
      QueueEvent(Authenticated);
    }

    method RefuseDevice() returns (rc: Rc)
      requires Valid() && id.role == Server && authAwaiting && !authDecided && state == Auth
      modifies Parts()
      ensures Valid() && (Core(), rc) == Decide(cr, old(Core()), false, [])
    {
      hide R.EventRing.Valid, StreamLaw, SsSend;
      MarkDecided();
      rc := ServerSendAuthFail();
      if rc != Ok {
        SetError(ErrFull);
        return ErrFull;
      }
      QueueEvent(AuthFailed(REASON_POLICY));
      SetError(ErrRejected);
    }

    // ----------------------------------------------------------------
    // Received channel PDUs
    // ----------------------------------------------------------------

    /** ch_alloc */
    method AllocChannel() returns (i: nat)
      requires Valid()
      modifies table, table.slots
      ensures Valid() && i <= MAX_CHANNELS && (i < MAX_CHANNELS <==> T.CanAlloc(old(Core()).table, id.cfg.maxChannels))
      ensures i == MAX_CHANNELS ==> Core() == old(Core())
      ensures i < MAX_CHANNELS ==>
        var t := old(Core()).table;
        i == T.Vacant(t.slots)
        && Core() == old(Core()).(table := T.Table(t.slots[i := BLANK.(localId := t.next)], Add32(t.next, 1), t.active + 1))
    {
      hide R.EventRing.Valid, StreamLaw, T.CanAlloc, T.Vacant;
      i := table.Alloc(id.cfg.maxChannels);
    }

    /** ch_free of a live slot */
    method FreeChannel(i: nat)
      requires Valid() && i < MAX_CHANNELS && T.Live(table.slots[i])
      modifies table, table.slots
      ensures Valid()
      ensures var t := old(Core()).table;
        Core() == old(Core()).(table := t.(slots := t.slots[i := BLANK], active := if t.active > 0 then t.active - 1 else 0))
    {
      hide R.EventRing.Valid, StreamLaw;
      table.Free(i);
    }

    /** The error reply to an OPEN; its loss is ignored. */
    method ReplyOpenFail(recipient: u32, reason: u32, msg: bytes)
      requires Valid() && |msg| <= 32
      modifies this`push, out, out.buf
      ensures Valid() && Core() == SsSend(cr, old(Core()), OpenFail(recipient, reason, msg)).0
    {
      hide R.EventRing.Valid, StreamLaw, SsSend, Encode;
      var fail := new byte[64](_ => 0);
      var rc, n := E.OpenFail(recipient, reason, msg, fail);
      var _ := SsSendPdu(fail[..n], OpenFail(recipient, reason, msg));
    }

    /** CHANNEL_OPEN */
    method MuxOpen(plain: bytes) returns (bad: bool)
      requires Valid() && state != Error && plain != [] && plain[0] == T_OPEN
      modifies Parts()
      ensures Valid() && Core() == OnMux(cr, old(Core()), plain) && bad == (state == Error)
    {
      hide R.EventRing.Valid, StreamLaw, SsSend, Decode, T.CanAlloc, T.Vacant, CString, MuxOutcome, Settle, Segments;
      var rc, sender, initWindow, maxPacket, name := D.Open(plain);
      if rc != Ok {
        SetError(ErrProtocol);
        return true;
      }
      Q.OpenIs(cr, Core(), plain, Open(sender, initWindow, maxPacket, name));
      hide OnMux;
      var allowed := Allow.ChannelNameAllowed(id.cfg.allowed, CString(name));
      if !allowed {
        Q.SendKeeps(cr, Core(), OpenFail(sender, REASON_ADMIN_PROHIBITED, NOT_ALLOWED));
        ReplyOpenFail(sender, REASON_ADMIN_PROHIBITED, NOT_ALLOWED);
        return false;
      }
      var i := AllocChannel();
      if i == MAX_CHANNELS {
        Q.SendKeeps(cr, Core(), OpenFail(sender, REASON_RESOURCE_SHORTAGE, []));
        ReplyOpenFail(sender, REASON_RESOURCE_SHORTAGE, []);
        return false;
      }
      PendChannel(i, sender, initWindow, if maxPacket != 0 then maxPacket else id.cfg.maxPacket, CString(name));
      return false;
    }

    /** The rest of CHANNEL_OPEN, on the slot just allocated. */
    method PendChannel(i: nat, sender: u32, initWindow: u32, maxPacket: u32, name: bytes)
      requires Valid() && i < MAX_CHANNELS
      modifies table.slots, events, events.ring
      ensures Valid()
      ensures var t := old(Core()).table; var lid := t.slots[i].localId;
        var ch := Channel(Pending, lid, sender, true, name, initWindow, id.cfg.initialWindow, maxPacket, false, false);
        Core() == Emit(old(Core()).(table := t.(slots := t.slots[i := ch])), Event.ChannelOpen(lid, sender, name, initWindow, maxPacket))
    {
      hide R.EventRing.Valid, StreamLaw;
      var lid := table.slots[i].localId;
      SetChannel(i, Channel(Pending, lid, sender, true, name, initWindow, id.cfg.initialWindow, maxPacket, false, false));
      QueueEvent(Event.ChannelOpen(lid, sender, name, initWindow, maxPacket));
    }

    /** ch_by_local */
    method ByLocal(id: u32) returns (i: nat)
      requires Valid()
      ensures i == T.Find(Core().table.slots, id) <= MAX_CHANNELS && |Core().table.slots| == MAX_CHANNELS
      ensures i < MAX_CHANNELS ==> Core().table.slots[i] == table.slots[i] && T.Live(table.slots[i])
    {
      hide R.EventRing.Valid, StreamLaw, T.Find;
      i := table.ByLocal(id);
    }

    /** A slot update and its event. */
    method Update(i: nat, ch: Channel, e: Event)
      requires Valid() && i < MAX_CHANNELS
      modifies table.slots, events, events.ring
      ensures Valid()
      ensures var t := old(Core()).table; Core() == Emit(old(Core()).(table := t.(slots := t.slots[i := ch])), e)
    {
      hide R.EventRing.Valid, StreamLaw;
      SetChannel(i, ch);
      QueueEvent(e);
    }

    /** CHANNEL_OPEN_CONFIRM */
    method MuxConfirm(plain: bytes) returns (bad: bool)
      requires Valid() && state != Error && plain != [] && plain[0] == T_CONFIRM
      modifies Parts()
      ensures Valid() && Core() == OnMux(cr, old(Core()), plain) && bad == (state == Error)
    {
      hide R.EventRing.Valid, StreamLaw, Decode, T.Find, T.CanAlloc, Settle, SinkOf;
      var rc, sender, recipient, initWindow, maxPacket := D.Confirm(plain);
      if rc != Ok {
        SetError(ErrProtocol);
        return true;
      }
      Q.TargetedIs(cr, Core(), plain, Confirm(sender, recipient, initWindow, maxPacket));
      hide OnMux;
      var i := ByLocal(recipient);
      if i == MAX_CHANNELS || table.slots[i].state != Opening {
        SetError(ErrProtocol);
        return true;
      }
      var ch, mp := table.slots[i], if maxPacket != 0 then maxPacket else id.cfg.maxPacket;
      Update(i, ch.(peerId := sender, havePeer := true, sendWindow := initWindow, maxPacket := mp, state := Opened),
             ChannelOpened(ch.localId, sender, ch.name, initWindow, mp));
      return false;
    }

    /** CHANNEL_OPEN_FAIL: stale ones are ignored. */
    method MuxOpenFail(plain: bytes) returns (bad: bool)
      requires Valid() && state != Error && plain != [] && plain[0] == T_OPEN_FAIL
      modifies Parts()
      ensures Valid() && Core() == OnMux(cr, old(Core()), plain) && bad == (state == Error)
    {
      hide R.EventRing.Valid, StreamLaw, Decode, T.Find, T.CanAlloc, Settle, SinkOf;
      var rc, recipient, reason, msg := D.OpenFail(plain);
      if rc != Ok {
        SetError(ErrProtocol);
        return true;
      }
      Q.TargetedIs(cr, Core(), plain, OpenFail(recipient, reason, msg));
      hide OnMux;
      assert Core().log + [] == Core().log;
      var i := ByLocal(recipient);
      if i < MAX_CHANNELS && table.slots[i].state == Opening {
        QueueEvent(ChannelOpenFail(table.slots[i].localId, table.slots[i].name));
        FreeChannel(i);
      }
      return false;
    }

    /** CHANNEL_DATA: the window is checked before the packet limit. */
    method MuxData(plain: bytes) returns (bad: bool)
      requires Valid() && state != Error && plain != [] && plain[0] == T_DATA
      modifies Parts()
      ensures Valid() && Core() == OnMux(cr, old(Core()), plain) && bad == (state == Error)
    {
      hide R.EventRing.Valid, StreamLaw, Decode, T.Find, T.CanAlloc, Settle, SinkOf;
      var rc, recipient, data := D.Data(plain);
      if rc != Ok {
        SetError(ErrProtocol);
        return true;
      }
      Q.TargetedIs(cr, Core(), plain, Data(recipient, data));
      hide OnMux;
      var i := ByLocal(recipient);
      if i == MAX_CHANNELS || table.slots[i].state != Opened {
        SetError(ErrProtocol);
        return true;
      }
      var ch := table.slots[i];
      bad := |data| > ch.recvWindow || |data| > DATA_MAX;
      if bad {
        SetError(ErrProtocol);
      } else {
        Update(i, ch.(recvWindow := ch.recvWindow - |data|), ChannelData(ch.localId, data));
      }
    }

    /** CHANNEL_WINDOW: the sum is taken modulo 2^32; stale ones are ignored. */
    method MuxWindow(plain: bytes) returns (bad: bool)
      requires Valid() && state != Error && plain != [] && plain[0] == T_WINDOW
      modifies Parts()
      ensures Valid() && Core() == OnMux(cr, old(Core()), plain) && bad == (state == Error)
    {
      hide R.EventRing.Valid, StreamLaw, Decode, T.Find, T.CanAlloc, Settle, SinkOf, Add32;
      var rc, recipient, add := D.Window(plain);
      if rc != Ok {
        SetError(ErrProtocol);
        return true;
      }
      Q.TargetedIs(cr, Core(), plain, Window(recipient, add));
      hide OnMux;
      assert Core().log + [] == Core().log;
      var i := ByLocal(recipient);
      if i == MAX_CHANNELS || table.slots[i].state != Opened {
        return false;
      }
      var ch := table.slots[i];
      var w := Add32(ch.sendWindow, add);
      Update(i, ch.(sendWindow := w), ChannelWindow(ch.localId, add, w));
      return false;
    }

    /** CHANNEL_EOF, on a channel in any live state. */
    method MuxEof(plain: bytes) returns (bad: bool)
      requires Valid() && state != Error && plain != [] && plain[0] == T_EOF
      modifies Parts()
      ensures Valid() && Core() == OnMux(cr, old(Core()), plain) && bad == (state == Error)
    {
      hide R.EventRing.Valid, StreamLaw, Decode, T.Find, T.CanAlloc, Settle, SinkOf;
      var rc, recipient := D.Short(plain, T_EOF);
      if rc != Ok {
        SetError(ErrProtocol);
        return true;
      }
      Q.TargetedIs(cr, Core(), plain, Eof(recipient));
      hide OnMux;
      assert Core().log + [] == Core().log;
      var i := ByLocal(recipient);
      if i < MAX_CHANNELS {
        Update(i, table.slots[i].(remoteEof := true), Event.ChannelEof(table.slots[i].localId));
      }
      return false;
    }

    /** CHANNEL_CLOSE */
    method MuxClose(plain: bytes) returns (bad: bool)
      requires Valid() && state != Error && plain != [] && plain[0] == T_CLOSE
      modifies Parts()
      ensures Valid() && Core() == OnMux(cr, old(Core()), plain) && bad == (state == Error)
    {
      hide R.EventRing.Valid, StreamLaw, Decode, T.Find, T.CanAlloc, Settle, SinkOf;
      var rc, recipient := D.Short(plain, T_CLOSE);
      if rc != Ok {
        SetError(ErrProtocol);
        return true;
      }
      Q.TargetedIs(cr, Core(), plain, Close(recipient));
      hide OnMux;
      assert Core().log + [] == Core().log;
      var i := ByLocal(recipient);
      if i < MAX_CHANNELS {
        QueueEvent(Event.ChannelClose(table.slots[i].localId));
        FreeChannel(i);
      }
      return false;
    }

    /** PING: an event, and a PONG if it fits. */
    method MuxPing(plain: bytes) returns (bad: bool)
      requires Valid() && state != Error && plain != [] && plain[0] == T_PING
      modifies Parts()
      ensures Valid() && Core() == OnMux(cr, old(Core()), plain) && bad == (state == Error)
    {
      hide R.EventRing.Valid, StreamLaw, SsSend, Decode, Settle, Encode;
      var rc, opaq := D.Short(plain, T_PING);
      if rc != Ok {
        SetError(ErrProtocol);
        return true;
      }
      Q.PingIs(cr, Core(), plain, opaq);
      hide OnMux;
      QueueEvent(PingEvent);
      Q.SendKeeps(cr, Core(), Pong(opaq));
      SendPong(opaq);
      return false;
    }

    /** The automatic reply; its loss is ignored. */
    method SendPong(opaq: u32)
      requires Valid()
      modifies this`push, out, out.buf
      ensures Valid() && Core() == SsSend(cr, old(Core()), Pong(opaq)).0
    {
      hide R.EventRing.Valid, StreamLaw, SsSend, Encode;
      var pong := new byte[8](_ => 0);
      var rc, n := E.Short(Pong(opaq), pong);
      var _ := SsSendPdu(pong[..n], Pong(opaq));
    }

    /** DISCONNECT */
    method MuxDisconnect(plain: bytes) returns (bad: bool)
      requires Valid() && state != Error && plain != [] && plain[0] == T_DISCONNECT
      modifies Parts()
      ensures Valid() && Core() == OnMux(cr, old(Core()), plain) && bad == (state == Error)
    {
      hide R.EventRing.Valid, StreamLaw, Decode, Settle;
      var rc, reason, msg := D.Disconnect(plain);
      if rc != Ok {
        SetError(ErrProtocol);
        return true;
      }
      Q.RestIs(cr, Core(), plain, Pdu.Disconnect(reason, msg));
      hide OnMux;
      QueueEvent(Disconnected(reason));
      Enter(Closed, hs);
      return false;
    }

    /** The dispatch of handle_mux_pdu. */
    method HandleMuxPdu(plain: bytes) returns (bad: bool)
      requires Valid() && state != Error && plain != []
      modifies Parts()
      ensures Valid() && Core() == OnMux(cr, old(Core()), plain) && bad == (state == Error)
    {
      hide R.EventRing.Valid, StreamLaw, Settle, MuxOutcome;
      var t := plain[0];
      if t == T_PONG {
        return false;
      }
      if !(T_OPEN <= t <= T_DISCONNECT) { UnknownType(cr, Core(), plain); }
      hide OnMux, Decode;
      if t == T_OPEN { bad := MuxOpen(plain); }
      else if t == T_CONFIRM { bad := MuxConfirm(plain); }
      else if t == T_OPEN_FAIL { bad := MuxOpenFail(plain); }
      else if t == T_DATA { bad := MuxData(plain); }
      else if t == T_WINDOW { bad := MuxWindow(plain); }
      else if t == T_EOF { bad := MuxEof(plain); }
      else if t == T_CLOSE { bad := MuxClose(plain); }
      else if t == T_PING { bad := MuxPing(plain); }
      else if t == T_DISCONNECT { bad := MuxDisconnect(plain); }
      else {
        SetError(ErrProtocol);
        bad := true;
      }
    }

    /** The dispatch in AUTH. */
    method HandleAuthPdu(plain: bytes) returns (bad: bool)
      requires Valid() && state != Error && plain != []
      modifies Parts()
      ensures Valid() && Core() == OnAuth(cr, old(Core()), plain) && bad == (state == Error)
    {
      hide R.EventRing.Valid, StreamLaw, OnAuthDevice, OnAuthOk, OnAuthFail;
      if plain[0] == T_AUTH_DEVICE {
        bad := HandleAuthDevicePdu(plain);
      } else if plain[0] == T_AUTH_OK {
        bad := HandleAuthOkPdu(plain);
      } else if plain[0] == T_AUTH_FAIL {
        HandleAuthFailPdu(plain);
        bad := true;
      } else {
        SetError(ErrProtocol);
        bad := true;
      }
    }

    /** The end of handle_encrypted_pdu: dispatch on the state. */
    method HandlePlain(plain: bytes) returns (bad: bool)
      requires Valid() && state != Error && plain != []
      modifies Parts()
      ensures Valid() && Core() == OnPlain(cr, old(Core()), plain) && bad == (state == Error)
    {
      hide R.EventRing.Valid, StreamLaw, OnAuth, OnMux;
      if state == Auth {
        bad := HandleAuthPdu(plain);
      } else if state == Ready || state == Draining {
        bad := HandleMuxPdu(plain);
      } else {
        SetError(ErrState);
        bad := true;
      }
    }

    /** handle_encrypted_pdu */
    method HandleEncryptedPdu(ct: bytes) returns (bad: bool)
      requires Valid() && state != Error
      modifies Parts()
      ensures Valid() && Core() == OnRecord(cr, old(Core()), ct) && bad == (state == Error)
    {
      hide R.EventRing.Valid, StreamLaw, OnPlain;
      if pull.None? {
        SetError(ErrState);
        return true;
      }
      if |ct| < SS_ABYTES {
        SetError(ErrProtocol);
        return true;
      }
      var plainMax := |ct| - SS_ABYTES;
      if plainMax > DATA_MAX + 64 || plainMax > id.cfg.maxRecord {
        SetError(ErrProtocol);
        return true;
      }
      var r := cr.unseal(pull.value, ct);
      if r.None? {
        SetError(ErrCrypto);
        return true;
      }
      bad := HandleRecord(ct, r.value.0, r.value.1);
    }

    /** The record has opened: count it, and look at its tag. */
    method HandleRecord(ghost ct: bytes, tag: byte, plain: bytes) returns (bad: bool)
      requires Valid() && state != Error && pull.Some? && cr.unseal(pull.value, ct) == Some((tag, plain))
      requires SS_ABYTES <= |ct| && |ct| - SS_ABYTES <= DATA_MAX + 64 && |ct| - SS_ABYTES <= id.cfg.maxRecord
      modifies Parts()
      ensures Valid() && Core() == OnRecord(cr, old(Core()), ct) && bad == (state == Error)
    {
      hide R.EventRing.Valid, StreamLaw, OnPlain;
      SetPull(Some(pull.value.(n := pull.value.n + 1)));
      if tag == TAG_FINAL {
        QueueEvent(Disconnected(0));
        Enter(Closed, hs);
        return false;
      }
      if tag == TAG_REKEY || |plain| == 0 {
        return false;
      }
      bad := HandlePlain(plain);
    }

    // ----------------------------------------------------------------
    // Input and output
    // ----------------------------------------------------------------

    /** The dispatch on the handshake's sub-state. */
    method HandleFrame(body: bytes) returns (bad: bool)
      requires Valid() && state != Error
      modifies Parts()
      ensures Valid() && Core() == OnFrame(cr, old(Core()), body) && bad == (state == Error)
    {
      hide R.EventRing.Valid, StreamLaw, PeerHello, PeerSsHeader, OnRecord;
      if hs == WaitPeerHello {
        bad := HandlePeerHello(body);
      } else if hs == WaitPeerSs {
        bad := HandlePeerSsHeader(body);
      } else if hs == Done {
        bad := HandleEncryptedPdu(body);
      } else {
        SetError(ErrState);
        bad := true;
      }
    }

    /** One pass of the loop in process_input: a frame handled and dropped, or a reason to stop. */
    method Pass() returns (more: bool)
      requires Valid() && state != Error && state != Closed
      modifies Parts(), input, input.buf
      ensures Valid()
      ensures if more then Process(cr, Model()) == Process(cr, old(Model())) && |input.Held()| < |old(input.Held())|
        else Model() == Process(cr, old(Model()))
    {
      hide R.EventRing.Valid, StreamLaw, OnFrame, Parse, Process;
      Q.ProcessIs(cr, Model());
      var maxBody := if hs == Done then MaxBody() else MAX_CLEAR_FRAME;
      var rc, consumed, bodyLen := D.FrameOf(input.buf, input.len, maxBody);
      if rc == ErrFull {
        return false;
      }
      if rc != Ok {
        SetError(ErrProtocol);
        return false;
      }
      var bad := HandleFrame(input.buf[4..4 + bodyLen]);
      if bad {
        return false;
      }
      input.Consume(consumed);
      return true;
    }

    /** process_input: frame after frame, until the buffer holds no whole frame or the session has stopped. */
    method ProcessInput()
      requires Valid()
      modifies Parts(), input, input.buf
      ensures Valid() && Model() == Process(cr, old(Model()))
    {
      hide R.EventRing.Valid, StreamLaw, OnFrame, Parse, Limit;
      while state != Error && state != Closed
        invariant Valid() && Process(cr, Model()) == Process(cr, old(Model()))
        decreases |input.Held()|
      {
        var more := Pass();
        if !more {
          return;
        }
      }
    }

    /** sodchan_feed_input */
    method FeedInput(data: bytes) returns (take: nat)
      requires Valid()
      modifies Parts(), input, input.buf
      ensures Valid() && take == Taken(old(Model()), data) && Model() == Feed(cr, old(Model()), data)
    {
      hide R.EventRing.Valid, StreamLaw, Process;
      if |data| == 0 {
        return 0;
      }
      if state == Error || state == Closed {
        return 0;
      }
      take := Min(|data|, input.buf.Length - input.len);
      if take == 0 {
        return;
      }
      take := input.Fill(data);
      ProcessInput();
    }

    /** sodchan_get_output */
    method GetOutput(dst: array<byte>, max: nat) returns (n: nat)
      requires Valid() && max <= dst.Length && dst != out.buf && dst != input.buf
      modifies out, dst
      ensures Valid() && n <= dst.Length && (Core(), dst[..n]) == Output(old(Core()), max)
      ensures dst[n..] == old(dst[n..])
    {
      hide R.EventRing.Valid, StreamLaw;
      n := out.Take(dst, max);
    }

    /** sodchan_next_event: the host's view of the log. */
    method NextEvent() returns (e: Option<Event>)
      requires Valid()
      modifies events
      ensures Valid() && Core() == old(Core()) && R.Subsequence(events.taken + events.Contents(), Core().log)
      ensures e == if old(events.Contents()) == [] then None else Some(old(events.Contents())[0])
      ensures events.taken == if e.Some? then old(events.taken) + [e.value] else old(events.taken)
    {
      hide StreamLaw, R.Subsequence;
      e := events.Next();
    }

    // ----------------------------------------------------------------
    // Host calls
    // ----------------------------------------------------------------

    /** sodchan_channel_open */
    method ChannelOpen(name: bytes) returns (rc: Rc, localId: u32)
      requires Valid()
      modifies this`push, out, out.buf, table, table.slots
      ensures Valid() && (Core(), rc) == HostCall(cr, old(Core()), CallOpen(name))
      ensures rc == Ok ==> localId == old(table.next)
    {
      hide R.EventRing.Valid, StreamLaw, SsSend, Settle, T.CanAlloc, T.Vacant, Segments, PushRc, Encode;
      localId := 0;
      ghost var c, call := Core(), CallOpen(name);
      if |name| == 0 {
        Q.Refused(cr, c, call, ErrParam);
        return ErrParam, 0;
      }
      if state != Ready {
        Q.Refused(cr, c, call, ErrState);
        return ErrState, 0;
      }
      if |name| > CHANNEL_NAME_MAX {
        Q.Refused(cr, c, call, ErrParam);
        return ErrParam, 0;
      }
      rc, localId := OpenNamed(name);
    }

    /** The rest of sodchan_channel_open, for a name of a possible length. */
    method OpenNamed(name: bytes) returns (rc: Rc, localId: u32)
      requires Valid() && 0 < |name| <= CHANNEL_NAME_MAX && state == Ready
      modifies this`push, out, out.buf, table, table.slots
      ensures Valid() && (Core(), rc) == HostCall(cr, old(Core()), CallOpen(name))
      ensures rc == Ok ==> localId == old(table.next)
    {
      hide R.EventRing.Valid, StreamLaw, SsSend, Settle, T.CanAlloc, T.Vacant, Segments, PushRc, Encode;
      localId := 0;
      ghost var c, call := Core(), CallOpen(name);
      var allowed := Allow.ChannelNameAllowed(id.cfg.allowed, name);
      if !allowed {
        Q.Refused(cr, c, call, ErrRejected);
        return ErrRejected, 0;
      }
      if !T.CanAlloc(c.table, c.id.cfg.maxChannels) { Q.Refused(cr, c, call, ErrFull); }
      else { Q.OpenCallIs(cr, c, name); }
      hide HostCall, CallOutcome, NameAllowed;
      var i := AllocChannel();
      if i == MAX_CHANNELS {
        return ErrFull, 0;
      }
      rc, localId := OpenSlot(i, name, c);
    }

    /** Announce the slot just taken, or give it back. */
    method OpenSlot(i: nat, name: bytes, ghost c: Ctx) returns (rc: Rc, localId: u32)
      requires Valid() && 0 < |name| <= CHANNEL_NAME_MAX && i < MAX_CHANNELS && i == T.Vacant(c.table.slots) < |c.table.slots|
      requires Core() == c.(table := T.Table(c.table.slots[i := BLANK.(localId := c.table.next)], Add32(c.table.next, 1), c.table.active + 1))
      modifies this`push, out, out.buf, table, table.slots
      ensures Valid() && (rc == Ok ==> localId == c.table.next)
      ensures var ch := BLANK.(state := Opening, localId := c.table.next, recvWindow := id.cfg.initialWindow,
                               maxPacket := id.cfg.maxPacket, name := name);
        var p := Open(c.table.next, id.cfg.initialWindow, id.cfg.maxPacket, name);
        var (d, sent) := SsSend(cr, c, p);
        (Core(), rc) == if sent == Ok then (d.(table := T.Change(c.table, Add(ch))), Ok)
          else (c.(table := T.Change(c.table, Burn)), ErrFull)
    {
      hide R.EventRing.Valid, StreamLaw, SsSend, T.Vacant, Add32, Encode;
      localId := table.slots[i].localId;
      SetChannel(i, table.slots[i].(state := Opening, recvWindow := id.cfg.initialWindow, maxPacket := id.cfg.maxPacket, name := name));
      ghost var p := Open(localId, id.cfg.initialWindow, id.cfg.maxPacket, name);
      Q.SendIgnoresTable(cr, c, Core().table, p);
      Q.SendKeeps(cr, c, p);
      Q.SendFails(cr, c, p);
      Overwritten(c.table.slots, i, BLANK.(localId := localId), table.slots[i]);
      Overwritten(c.table.slots, i, table.slots[i], BLANK);
      rc := SendOpen(localId, name);
      if rc != Ok {
        FreeChannel(i);
        rc := ErrFull;
      }
    }

    method SendOpen(localId: u32, name: bytes) returns (rc: Rc)
      requires Valid() && |name| <= CHANNEL_NAME_MAX
      modifies this`push, out, out.buf
      ensures Valid() && (Core(), rc) == SsSend(cr, old(Core()), Open(localId, id.cfg.initialWindow, id.cfg.maxPacket, name))
    {
      hide R.EventRing.Valid, StreamLaw, SsSend, Encode;
      var pdu := new byte[128](_ => 0);
      var n;
      rc, n := E.Open(localId, id.cfg.initialWindow, id.cfg.maxPacket, name, pdu);
      rc := SsSendPdu(pdu[..n], Open(localId, id.cfg.initialWindow, id.cfg.maxPacket, name));
    }

    /** sodchan_channel_send */
    method ChannelSend(lid: u32, data: bytes) returns (rc: Rc)
      requires Valid()
      modifies this`push, out, out.buf, table.slots
      ensures Valid() && (Core(), rc) == HostCall(cr, old(Core()), CallSend(lid, data))
    {
      hide R.EventRing.Valid, StreamLaw, SsSend, Settle, T.Find, T.CanAlloc, PushRc, SinkOf, Encode;
      ghost var c, call := Core(), CallSend(lid, data);
      if state != Ready {
        Q.Refused(cr, c, call, ErrState);
        return ErrState;
      }
      var i := ByLocal(lid);
      if i == MAX_CHANNELS || table.slots[i].state != Opened || !table.slots[i].havePeer {
        Q.Refused(cr, c, call, ErrNotFound);
        return ErrNotFound;
      }
      var ch := table.slots[i];
      if ch.localEof {
        Q.Refused(cr, c, call, ErrState);
        return ErrState;
      }
      if |data| > ch.maxPacket || |data| > DATA_MAX {
        Q.Refused(cr, c, call, ErrParam);
        return ErrParam;
      }
      if |data| > ch.sendWindow {
        Q.Refused(cr, c, call, ErrWindow);
        return ErrWindow;
      }
      var sent := ch.(sendWindow := ch.sendWindow - |data|);
      Q.SendsThen(cr, c, call, Data(ch.peerId, data), Put(lid, sent), [], None);
      hide HostCall, CallOutcome;
      rc := SendData(ch.peerId, data);
      Q.SendKeeps(cr, c, Data(ch.peerId, data));
      assert Core().log + [] == Core().log;
      if rc != Ok {
        Q.SendFails(cr, c, Data(ch.peerId, data));
        return;
      }
      SetChannel(i, sent);
    }

    method SendData(peer: u32, data: bytes) returns (rc: Rc)
      requires Valid() && |data| <= DATA_MAX
      modifies this`push, out, out.buf
      ensures Valid() && (Core(), rc) == SsSend(cr, old(Core()), Data(peer, data))
    {
      hide R.EventRing.Valid, StreamLaw, SsSend, Encode;
      var pdu := new byte[9 + |data|](_ => 0);
      var n;
      rc, n := E.Data(peer, data, pdu);
      rc := SsSendPdu(pdu[..n], Data(peer, data));
    }

    /** A short PDU that a call sends. */
    method SendShort(p: Pdu) returns (rc: Rc)
      requires Valid() && (p.Eof? || p.Close? || p.Window? || p.Confirm?)
      modifies this`push, out, out.buf
      ensures Valid() && (Core(), rc) == SsSend(cr, old(Core()), p)
    {
      hide R.EventRing.Valid, StreamLaw, SsSend, Encode;
      var pdu := new byte[64](_ => 0);
      var n;
      if p.Window? {
        rc, n := E.Window(p.recipient, p.add, pdu);
      } else if p.Confirm? {
        rc, n := E.Confirm(p.sender, p.recipient, p.initWindow, p.maxPacket, pdu);
      } else {
        rc, n := E.Short(p, pdu);
      }
      rc := SsSendPdu(pdu[..n], p);
    }

    method SendReject(peer: u32) returns (rc: Rc)
      requires Valid()
      modifies this`push, out, out.buf
      ensures Valid() && (Core(), rc) == SsSend(cr, old(Core()), OpenFail(peer, REASON_ADMIN_PROHIBITED, []))
    {
      hide R.EventRing.Valid, StreamLaw, SsSend, Encode;
      var pdu := new byte[64](_ => 0);
      var n;
      rc, n := E.OpenFail(peer, REASON_ADMIN_PROHIBITED, [], pdu);
      rc := SsSendPdu(pdu[..n], OpenFail(peer, REASON_ADMIN_PROHIBITED, []));
    }

    /** sodchan_channel_accept */
    method ChannelAccept(lid: u32, accept: bool) returns (rc: Rc)
      requires Valid()
      modifies this`push, out, out.buf, table, table.slots, events, events.ring
      ensures Valid() && (Core(), rc) == HostCall(cr, old(Core()), CallAccept(lid, accept))
    {
      hide R.EventRing.Valid, StreamLaw, Settle, T.Find, T.CanAlloc, PushRc, SinkOf;
      ghost var c, call := Core(), CallAccept(lid, accept);
      if state != Ready {
        Q.Refused(cr, c, call, ErrState);
        return ErrState;
      }
      var i := ByLocal(lid);
      if i == MAX_CHANNELS || table.slots[i].state != Pending || !table.slots[i].havePeer {
        Q.Refused(cr, c, call, ErrState);
        return ErrState;
      }
      if accept {
        rc := AcceptChannel(lid, i);
      } else {
        rc := RejectChannel(lid, i);
      }
    }

    method AcceptChannel(lid: u32, i: nat) returns (rc: Rc)
      requires Valid() && state == Ready && i < MAX_CHANNELS && i == T.Find(table.slots[..], lid)
      requires table.slots[i].state == Pending && table.slots[i].havePeer
      modifies this`push, out, out.buf, table.slots, events, events.ring
      ensures Valid() && (Core(), rc) == HostCall(cr, old(Core()), CallAccept(lid, true))
    {
      hide R.EventRing.Valid, StreamLaw, SsSend, Settle, T.Find, T.CanAlloc, PushRc, SinkOf;
      ghost var c := Core();
      var ch := table.slots[i];
      var p := Confirm(ch.localId, ch.peerId, id.cfg.initialWindow, id.cfg.maxPacket);
      var accepted := ch.(state := Opened, recvWindow := id.cfg.initialWindow);
      var e := ChannelOpened(ch.localId, ch.peerId, ch.name, id.cfg.initialWindow, id.cfg.maxPacket);
      Q.SendsThen(cr, c, CallAccept(lid, true), p, Put(lid, accepted), [e], Some(ErrFull));
      hide HostCall, CallOutcome;
      Q.SendKeeps(cr, c, p);
      Q.SendFails(cr, c, p);
      rc := SendShort(p);
      if rc != Ok {
        return ErrFull;
      }
      Update(i, accepted, e);
    }

    method RejectChannel(lid: u32, i: nat) returns (rc: Rc)
      requires Valid() && state == Ready && i < MAX_CHANNELS && i == T.Find(table.slots[..], lid)
      requires table.slots[i].state == Pending && table.slots[i].havePeer
      modifies this`push, out, out.buf, table, table.slots
      ensures Valid() && (Core(), rc) == HostCall(cr, old(Core()), CallAccept(lid, false))
    {
      hide R.EventRing.Valid, StreamLaw, SsSend, Settle, T.Find, T.CanAlloc, PushRc, SinkOf;
      ghost var c := Core();
      var peer := table.slots[i].peerId;
      var p := OpenFail(peer, REASON_ADMIN_PROHIBITED, []);
      Q.SendsThen(cr, c, CallAccept(lid, false), p, Drop(lid), [], Some(ErrFull));
      hide HostCall, CallOutcome;
      assert c.log + [] == c.log;
      Q.SendKeeps(cr, c, p);
      Q.SendFails(cr, c, p);
      rc := SendReject(peer);
      if rc != Ok {
        return ErrFull;
      }
      FreeChannel(i);
    }

    /** sodchan_channel_eof: a second one is accepted and sends nothing. */
    method ChannelEof(lid: u32) returns (rc: Rc)
      requires Valid()
      modifies this`push, out, out.buf, table.slots
      ensures Valid() && (Core(), rc) == HostCall(cr, old(Core()), CallEof(lid))
    {
      hide R.EventRing.Valid, StreamLaw, SsSend, Settle, T.Find, T.CanAlloc, PushRc, SinkOf;
      ghost var c, call := Core(), CallEof(lid);
      if state != Ready {
        Q.Refused(cr, c, call, ErrState);
        return ErrState;
      }
      var i := ByLocal(lid);
      if i == MAX_CHANNELS || table.slots[i].state != Opened || !table.slots[i].havePeer {
        Q.Refused(cr, c, call, ErrNotFound);
        return ErrNotFound;
      }
      var ch := table.slots[i];
      if ch.localEof {
        Q.KeepIs(c.table);
        Q.SilentThen(cr, c, call, Ready, Keep);
        return Ok;
      }
      var p := Eof(ch.peerId);
      Q.SendsThen(cr, c, call, p, Put(lid, ch.(localEof := true)), [], Some(ErrFull));
      hide HostCall, CallOutcome;
      assert c.log + [] == c.log;
      Q.SendKeeps(cr, c, p);
      Q.SendFails(cr, c, p);
      rc := SendShort(p);
      if rc != Ok {
        return ErrFull;
      }
      SetChannel(i, ch.(localEof := true));
    }

    /** sodchan_channel_close: the slot goes at once, the CLOSE only if it fits. */
    method ChannelClose(lid: u32) returns (rc: Rc)
      requires Valid()
      modifies this`push, out, out.buf, table, table.slots
      ensures Valid() && (Core(), rc) == HostCall(cr, old(Core()), CallClose(lid))
    {
      hide R.EventRing.Valid, StreamLaw, SsSend, Settle, T.Find, T.CanAlloc, PushRc, SinkOf;
      ghost var c, call := Core(), CallClose(lid);
      if state != Ready && state != Draining {
        Q.Refused(cr, c, call, ErrState);
        return ErrState;
      }
      var i := ByLocal(lid);
      if i == MAX_CHANNELS {
        Q.Refused(cr, c, call, ErrNotFound);
        return ErrNotFound;
      }
      var ch := table.slots[i];
      if ch.havePeer && ch.state == Opened {
        Q.TriesThen(cr, c, call, Close(ch.peerId), c.state, Drop(lid));
        hide HostCall, CallOutcome;
        Q.SendKeeps(cr, c, Close(ch.peerId));
        var _ := SendShort(Close(ch.peerId));
      } else {
        Q.SilentThen(cr, c, call, c.state, Drop(lid));
        hide HostCall, CallOutcome;
      }
      FreeChannel(i);
      return Ok;
    }

    /** sodchan_channel_window_adjust: the sum is taken modulo 2^32. */
    method ChannelWindowAdjust(lid: u32, credit: u32) returns (rc: Rc)
      requires Valid()
      modifies this`push, out, out.buf, table.slots
      ensures Valid() && (Core(), rc) == HostCall(cr, old(Core()), CallAdjust(lid, credit))
    {
      hide R.EventRing.Valid, StreamLaw, SsSend, Settle, T.Find, T.CanAlloc, PushRc, SinkOf, Add32;
      ghost var c, call := Core(), CallAdjust(lid, credit);
      if credit == 0 {
        Q.Refused(cr, c, call, ErrParam);
        return ErrParam;
      }
      if state != Ready {
        Q.Refused(cr, c, call, ErrState);
        return ErrState;
      }
      var i := ByLocal(lid);
      if i == MAX_CHANNELS || table.slots[i].state != Opened || !table.slots[i].havePeer {
        Q.Refused(cr, c, call, ErrNotFound);
        return ErrNotFound;
      }
      var ch := table.slots[i];
      var p, credited := Window(ch.peerId, credit), ch.(recvWindow := Add32(ch.recvWindow, credit));
      Q.SendsThen(cr, c, call, p, Put(lid, credited), [], Some(ErrFull));
      hide HostCall, CallOutcome;
      assert c.log + [] == c.log;
      Q.SendKeeps(cr, c, p);
      Q.SendFails(cr, c, p);
      rc := SendShort(p);
      if rc != Ok {
        return ErrFull;
      }
      SetChannel(i, credited);
    }

    /** sodchan_channel_window_avail */
    method ChannelWindowAvail(lid: u32) returns (w: u32)
      requires Valid()
      ensures (exists i :: 0 <= i < MAX_CHANNELS && table.slots[i].state == Opened && table.slots[i].localId == lid
                && w == table.slots[i].sendWindow
                && forall j :: 0 <= j < i ==> !(table.slots[j].state == Opened && table.slots[j].localId == lid))
        || (w == 0 && forall j :: 0 <= j < MAX_CHANNELS ==> !(table.slots[j].state == Opened && table.slots[j].localId == lid))
    {
      var i := 0;
      while i < table.slots.Length
        invariant i <= table.slots.Length
        invariant forall j :: 0 <= j < i ==> !(table.slots[j].state == Opened && table.slots[j].localId == lid)
      {
        if table.slots[i].state == Opened && table.slots[i].localId == lid {
          return table.slots[i].sendWindow;
        }
        i := i + 1;
      }
      return 0;
    }

    /** sodchan_disconnect */
    method Disconnect(reason: u32, msg: bytes) returns (rc: Rc)
      requires Valid()
      modifies this`push, this`state, this`hs, out, out.buf
      ensures Valid() && (Core(), rc) == HostCall(cr, old(Core()), CallDisconnect(reason, msg))
    {
      hide R.EventRing.Valid, StreamLaw, SsSend, Settle, PushRc;
      ghost var c, call := Core(), CallDisconnect(reason, msg);
      Q.KeepIs(c.table);
      if state == Closed {
        Q.SilentThen(cr, c, call, Closed, Keep);
        return Ok;
      }
      var mlen := Min(|msg|, 64);
      if push.Some? && (state == Ready || state == Auth || state == Draining) {
        Q.TriesThen(cr, c, call, Pdu.Disconnect(reason, msg[..mlen]), Draining, Keep);
        hide HostCall, CallOutcome;
        Q.SendKeeps(cr, c, Pdu.Disconnect(reason, msg[..mlen]));
        SendGoodbye(reason, msg[..mlen]);
        Enter(Draining, hs);
      } else {
        Q.SilentThen(cr, c, call, Closed, Keep);
        hide HostCall, CallOutcome;
        Enter(Closed, hs);
      }
      return Ok;
    }

    method SendGoodbye(reason: u32, msg: bytes)
      requires Valid() && |msg| <= 64
      modifies this`push, out, out.buf
      ensures Valid() && Core() == SsSend(cr, old(Core()), Pdu.Disconnect(reason, msg)).0
    {
      hide R.EventRing.Valid, StreamLaw, SsSend, Encode;
      var pdu := new byte[128](_ => 0);
      var rc, n := E.Disconnect(reason, msg, pdu);
      var _ := SsSendPdu(pdu[..n], Pdu.Disconnect(reason, msg));
    }
  }
}
