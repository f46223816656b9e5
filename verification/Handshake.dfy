/**
 * The handshake of an honest pair: the server is side A, the client side B,
 * and exactly one frame is in flight at a time - HELLO, HELLO, header, header,
 * AUTH_DEVICE, and after the host's decision AUTH_OK.
 */
module Handshake {
  import opened Base
  import opened Mux
  import opened Wire
  import opened WirePdu
  import opened Transcript
  import opened Crypto
  import opened Engine
  import opened Pair
  import opened EngineInput
  import opened PairRun
  import S = NetSafety
  import T = Table

  /** Matching keys and pin, fresh ephemerals, and room for every handshake PDU. */
  predicate Suited(cr: Suite, a: Ctx, b: Ctx) {
    && a.id.role == Server && b.id.role == Client
    && a.id.serverSk.Some? && a.serverPk == Some(cr.signPk(a.id.serverSk.value))
    && b.id.clientSk.Some? && b.id.clientPk == Some(cr.signPk(b.id.clientSk.value))
    && (b.id.acceptAny || b.serverPk == a.serverPk)
    && a.ephPk == cr.kxPk(a.ephSk) && b.ephPk == cr.kxPk(b.ephSk)
    && a.id.cfg.maxRecord >= 3 + CLAIMS_MAX && b.id.cfg.maxRecord >= 3 + CLAIMS_MAX
    && a.id.cfg.maxChannels <= MAX_CHANNELS && b.id.cfg.maxChannels <= MAX_CHANNELS
  }

  /** Two such sessions with no channel yet, and nothing told but the handshake. */
  predicate Honest(cr: Suite, a: Ctx, b: Ctx) {
    && Suited(cr, a, b) && a.table == T.EMPTY && b.table == T.EMPTY
    && S.Greetings(a.log) && S.Greetings(b.log) && OnlyDevice(b, a.log)
  }

  /** What a server's host is to be told of the client. */
  function DeviceEvent(b: Ctx): Event
    requires b.id.clientPk.Some?
  {
    AuthDeviceEvent(b.id.clientPk.value, CString(b.id.user[..Min(|b.id.user|, USER_MAX)]),
                    CString(b.id.device[..Min(|b.id.device|, DEVICE_ID_MAX)]))
  }

  /** No other device has been told of. */
  predicate OnlyDevice(b: Ctx, log: seq<Event>)
    requires b.id.clientPk.Some?
  {
    forall i :: 0 <= i < |log| && log[i].AuthDeviceEvent? ==> log[i] == DeviceEvent(b)
  }

  // ------------------------------------------------------------------
  // What both sides are to agree on
  // ------------------------------------------------------------------

  function Transcripted(a: Ctx, b: Ctx): bytes
    requires a.serverPk.Some?
  {
    BuildTHello(PROTO_VERSION, SUITE_V1, b.ephPk, a.ephPk, a.serverPk.value)
  }

  function Keys(cr: Suite, a: Ctx, b: Ctx): (Key32, Key32) {
    var k := cr.kxClient(b.ephPk, b.ephSk, a.ephPk);
    if k.None? then (ZERO32, ZERO32) else (cr.kdf(k.value.tx, DOM_SS_C2S), cr.kdf(k.value.rx, DOM_SS_S2C))
  }

  function C2s(cr: Suite, a: Ctx, b: Ctx): Stream {
    Stream(Keys(cr, a, b).0, b.header, 0)
  }

  function S2c(cr: Suite, a: Ctx, b: Ctx): Stream {
    Stream(Keys(cr, a, b).1, a.header, 0)
  }

  function ClientHelloBody(b: Ctx): bytes {
    EncodeHello(HelloBody(PROTO_VERSION, SUITE_V1, RoleCode(Client), 0, b.ephPk, OrZero(b.id.clientPk), ZERO64))
  }

  function ServerHelloBody(cr: Suite, a: Ctx, b: Ctx): bytes
    requires a.serverPk.Some? && a.id.serverSk.Some?
  {
    EncodeHello(HelloBody(PROTO_VERSION, SUITE_V1, RoleCode(Server), 0, a.ephPk, a.serverPk.value,
                          cr.sign(Transcripted(a, b), a.id.serverSk.value)))
  }

  function DevicePdu(cr: Suite, a: Ctx, b: Ctx): (p: Pdu)
    requires a.serverPk.Some? && b.id.clientPk.Some? && b.id.clientSk.Some?
    ensures Legal(p) && p.AuthDevice? && PduLen(p) <= 3 + CLAIMS_MAX
  {
    var user, device := b.id.user[..Min(|b.id.user|, USER_MAX)], b.id.device[..Min(|b.id.device|, DEVICE_ID_MAX)];
    AuthDevice(b.id.clientPk.value, cr.sign(BuildTAuth(Transcripted(a, b), b.id.clientPk.value, user, device), b.id.clientSk.value),
               user, device)
  }

  // ------------------------------------------------------------------
  // Where each side stands in phase k
  // ------------------------------------------------------------------

  predicate Greeted(cr: Suite, a: Ctx, b: Ctx)
    requires a.serverPk.Some?
  {
    && a.peerEph == Some(b.ephPk) && a.tHello == Some(Transcripted(a, b))
    && a.keyC2s == Keys(cr, a, b).0 && a.keyS2c == Keys(cr, a, b).1
  }

  predicate ServerSecure(cr: Suite, a: Ctx, b: Ctx, k: nat)
    requires Suited(cr, a, b)
  {
    && a.hs == Done && a.state == (if k <= 5 then Auth else Ready)
    && a.auth == (if k <= 4 then NO_AUTH else if k == 5 then NO_AUTH.(awaiting := true) else AuthFlags(false, false, true, true))
    && (k >= 5 ==> a.peerId == b.id.clientPk && DeviceEvent(b) in a.log)
    && a.push == Some(Later(S2c(cr, a, b), if k <= 5 then 0 else 1))
    && a.pull == Some(Later(C2s(cr, a, b), if k <= 4 then 0 else 1))
  }

  /**
   * Before its secretstream is up a side may have left: it is CLOSED, and
   * stays where it was.
   */
  predicate ServerAt(cr: Suite, a: Ctx, b: Ctx, k: nat)
    requires Suited(cr, a, b)
  {
    if k == 0 then (a.state == Hello || a.state == Closed) && a.hs == WaitPeerHello && a.auth == NO_AUTH && a.push.None? && a.pull.None?
    else if k <= 2 then
      && (a.state == SsHeader || a.state == Closed) && a.hs == WaitPeerSs && a.auth == NO_AUTH && a.push.None? && a.pull.None?
      && Greeted(cr, a, b)
    else ServerSecure(cr, a, b, k) && Greeted(cr, a, b)
  }

  predicate ClientGreeted(cr: Suite, a: Ctx, b: Ctx)
    requires Suited(cr, a, b)
  {
    && b.peerEph == Some(a.ephPk) && b.peerId == a.serverPk && b.serverPk == a.serverPk && b.tHello == Some(Transcripted(a, b))
    && b.keyC2s == Keys(cr, a, b).0 && b.keyS2c == Keys(cr, a, b).1
  }

  predicate ClientAt(cr: Suite, a: Ctx, b: Ctx, k: nat)
    requires Suited(cr, a, b)
  {
    if k <= 1 then (b.state == Hello || b.state == Closed) && b.hs == WaitPeerHello && b.auth == NO_AUTH && b.push.None? && b.pull.None?
    else if k <= 3 then
      && (b.state == SsHeader || b.state == Closed) && b.hs == WaitPeerSs && b.auth == NO_AUTH
      && b.push == Some(C2s(cr, a, b)) && b.pull.None?
      && ClientGreeted(cr, a, b)
    else
      && b.hs == Done && b.state == (if k <= 6 then Auth else Ready) && b.auth == AuthFlags(true, false, false, k == 7)
      && b.push == Some(Later(C2s(cr, a, b), 1)) && b.pull == Some(Later(S2c(cr, a, b), if k <= 6 then 0 else 1))
      && ClientGreeted(cr, a, b)
  }

  /** The frame on its way to the server in phase k, or nothing. */
  function ToServer(cr: Suite, a: Ctx, b: Ctx, k: nat): bytes
    requires Suited(cr, a, b)
  {
    if k == 0 then Frame(ClientHelloBody(b))
    else if k == 2 then Frame(b.header)
    else if k == 4 then SealFrame(cr, C2s(cr, a, b), DevicePdu(cr, a, b))
    else []
  }

  function ToClient(cr: Suite, a: Ctx, b: Ctx, k: nat, claims: bytes): bytes
    requires Suited(cr, a, b)
  {
    if k == 1 then Frame(ServerHelloBody(cr, a, b))
    else if k == 3 then Frame(a.header)
    else if k == 6 && |claims| <= CLAIMS_MAX then SealFrame(cr, S2c(cr, a, b), AuthOk(claims))
    else []
  }

  /** No channel id taken, no chunk accepted. */
  predicate Uncounted(n: Pair) {
    n.na == 0 && n.nb == 0 && n.ra == NOTHING && n.rb == NOTHING
  }

  ghost predicate AtPhase(cr: Suite, n: Pair, k: nat, claims: bytes) {
    && k <= 7 && |claims| <= CLAIMS_MAX
    && Honest(cr, n.a.c, n.b.c) && ServerAt(cr, n.a.c, n.b.c, k) && ClientAt(cr, n.a.c, n.b.c, k)
    && n.a.inp + n.ba + n.b.c.out == ToServer(cr, n.a.c, n.b.c, k)
    && n.b.inp + n.ab + n.a.c.out == ToClient(cr, n.a.c, n.b.c, k, claims)
    && Settled(n.a) && Settled(n.b)
    && Uncounted(n)
  }

  // ------------------------------------------------------------------
  // The handlers, one phase each
  // ------------------------------------------------------------------

  /** Everything a phase rests on that a handler leaves alone. */
  predicate SameRoots(c: Ctx, d: Ctx) {
    d.id == c.id && d.ephPk == c.ephPk && d.ephSk == c.ephSk && d.header == c.header && d.table == c.table
  }

  lemma KeysMatch(cr: Suite, a: Ctx, b: Ctx)
    requires KxLaw(cr) && Suited(cr, a, b)
    ensures cr.kxClient(b.ephPk, b.ephSk, a.ephPk).Some? && cr.kxServer(a.ephPk, a.ephSk, b.ephPk).Some?
    ensures var k := cr.kxServer(a.ephPk, a.ephSk, b.ephPk).value;
      Keys(cr, a, b) == (cr.kdf(k.rx, DOM_SS_C2S), cr.kdf(k.tx, DOM_SS_S2C))
  {
  }

  lemma ServerTakesHello(cr: Suite, a: Ctx, b: Ctx)
    requires Ideal(cr) && Honest(cr, a, b) && ServerAt(cr, a, b, 0) && a.out == []
    ensures var d := PeerHello(cr, a, ClientHelloBody(b));
      SameRoots(a, d) && d.serverPk == a.serverPk && Honest(cr, d, b) && ServerAt(cr, d, b, 1) && d.state == SsHeader
      && d.out == Frame(ServerHelloBody(cr, d, b))
  {
    KeysMatch(cr, a, b);
    var h := HelloBody(PROTO_VERSION, SUITE_V1, RoleCode(Client), 0, b.ephPk, OrZero(b.id.clientPk), ZERO64);
    DecodeEncodeHello(h);
    hide Ideal, DecodeHello, BuildTHello, PutU32, PutU16;
    var d := ServerHello(cr, a, h);
    assert |ServerHelloBody(cr, a, b)| == 140;
    hide EncodeHello;
    assert d == PeerHello(cr, a, ClientHelloBody(b));
  }

  lemma ClientTakesHello(cr: Suite, a: Ctx, b: Ctx)
    requires Ideal(cr) && Honest(cr, a, b) && ClientAt(cr, a, b, 1) && b.out == []
    ensures var d := PeerHello(cr, b, ServerHelloBody(cr, a, b));
      SameRoots(b, d) && Honest(cr, a, d) && ClientAt(cr, a, d, 2) && d.state == SsHeader && d.out == Frame(d.header)
  {
    KeysMatch(cr, a, b);
    var h := HelloBody(PROTO_VERSION, SUITE_V1, RoleCode(Server), 0, a.ephPk, a.serverPk.value,
                       cr.sign(Transcripted(a, b), a.id.serverSk.value));
    assert cr.verify(h.idSig, Transcripted(a, b), h.idPk);
    DecodeEncodeHello(h);
    hide Ideal, SignLaw, KxLaw, StreamLaw, DecodeHello, EncodeHello, BuildTHello, PutU32, PutU16;
    var d := ClientHello(cr, b, h);
    assert d == PeerHello(cr, b, ServerHelloBody(cr, a, b));
  }

  lemma ServerTakesHeader(cr: Suite, a: Ctx, b: Ctx)
    requires Honest(cr, a, b) && ServerAt(cr, a, b, 2) && a.out == []
    ensures var d := PeerSsHeader(cr, a, b.header);
      SameRoots(a, d) && d.serverPk == a.serverPk && Honest(cr, d, b) && ServerAt(cr, d, b, 3) && d.out == Frame(d.header)
  {
    hide BuildTHello, PutU32;
  }

  /** What a client does with the server's header, step by step. */
  lemma ClientSendsDevice(cr: Suite, a: Ctx, b: Ctx)
    requires StreamLaw(cr) && Suited(cr, a, b) && ClientAt(cr, a, b, 3) && b.out == []
    ensures var d := Emit(b.(pull := Some(Stream(b.keyS2c, a.header, 0)), hs := Done, state := Auth), KxComplete);
      PeerSsHeader(cr, b, a.header) == Append(cr, d, DevicePdu(cr, a, b)).(auth := d.auth.(sent := true))
  {
    var p := DevicePdu(cr, a, b);
    hide StreamLaw, BuildTHello, BuildTAuth, PutU32, Encode, Keys;
    var d := Emit(b.(pull := Some(Stream(b.keyS2c, a.header, 0)), hs := Done, state := Auth), KxComplete);
    assert PushRc(d.id.cfg, SinkOf(d), PduLen(p)) == Ok;
    assert SsSend(cr, d, p) == (Append(cr, d, p), Ok);
    hide PushRc, SsSend;
  }

  lemma ClientTakesHeader(cr: Suite, a: Ctx, b: Ctx)
    requires Ideal(cr) && Suited(cr, a, b) && ClientAt(cr, a, b, 3) && b.out == []
    ensures var d := PeerSsHeader(cr, b, a.header);
      SameRoots(b, d) && Suited(cr, a, d) && ClientAt(cr, a, d, 4) && d.log == b.log + [KxComplete]
      && d.out == SealFrame(cr, C2s(cr, a, d), DevicePdu(cr, a, d))
  {
    IdealStream(cr);
    ClientSendsDevice(cr, a, b);
    var d := PeerSsHeader(cr, b, a.header);
    hide Ideal, StreamLaw, BuildTHello, PutU32, Encode, PeerSsHeader;
    assert SameRoots(b, d) && Suited(cr, a, d) && DevicePdu(cr, a, d) == DevicePdu(cr, a, b);
    hide DevicePdu;
    assert [] + SealFrame(cr, C2s(cr, a, d), DevicePdu(cr, a, b)) == SealFrame(cr, C2s(cr, a, d), DevicePdu(cr, a, b));
  }

  /** The transcript rebuilt from the decoded AUTH_DEVICE is the one the client signed. */
  lemma DeviceVerifies(cr: Suite, a: Ctx, b: Ctx)
    requires Ideal(cr) && Suited(cr, a, b)
    ensures var p := DevicePdu(cr, a, b);
      cr.verify(p.sig, BuildTAuth(Transcripted(a, b), p.pk, p.user, p.device), p.pk)
  {
    hide KxLaw, StreamLaw, BuildTAuth, BuildTHello;
  }

  lemma ServerVerifiesDevice(cr: Suite, a: Ctx, b: Ctx, p: Pdu)
    requires Ideal(cr) && Suited(cr, a, b) && p == DevicePdu(cr, a, b)
    requires !a.auth.awaiting && !a.auth.decided && !a.auth.complete && a.tHello == Some(Transcripted(a, b))
    ensures Encode(p) != [] && Encode(p)[0] == T_AUTH_DEVICE
    ensures OnAuthDevice(cr, a, Encode(p)) ==
      Emit(a.(peerId := Some(p.pk), auth := a.auth.(awaiting := true)), AuthDeviceEvent(p.pk, CString(p.user), CString(p.device)))
  {
    DeviceVerifies(cr, a, b);
    DecodeEncode(p);
    TypeByte(p);
    assert DecodeAuthDevice(Encode(p)) == Decode(Encode(p));
    hide Ideal, Encode, Decode, DecodeAuthDevice, BuildTHello, BuildTAuth, SsSend, DevicePdu, CString;
  }

  /** What a server does with the client's AUTH_DEVICE. */
  lemma ServerAwaits(cr: Suite, a: Ctx, b: Ctx)
    requires Ideal(cr) && Honest(cr, a, b) && ServerAt(cr, a, b, 4)
    ensures var d := OnRecord(cr, a, cr.seal(C2s(cr, a, b), TAG_MESSAGE, Encode(DevicePdu(cr, a, b))));
      d == Emit(a.(pull := Some(Later(a.pull.value, 1)), peerId := b.id.clientPk, auth := a.auth.(awaiting := true)), DeviceEvent(b))
  {
    var p, c := DevicePdu(cr, a, b), a.(pull := Some(Later(a.pull.value, 1)));
    SealedOpens(cr, a, p);
    assert Suited(cr, c, b) && p == DevicePdu(cr, c, b) by { hide BuildTAuth, BuildTHello; }
    assert p.pk == b.id.clientPk.value && AuthDeviceEvent(p.pk, CString(p.user), CString(p.device)) == DeviceEvent(b);
    hide DevicePdu, DeviceEvent, Suited, OnRecord, OnAuthDevice, Encode, Transcripted, Keys, CString;
    ServerVerifiesDevice(cr, c, b, p);
    hide Ideal;
  }

  lemma ServerTakesDevice(cr: Suite, a: Ctx, b: Ctx)
    requires Ideal(cr) && Honest(cr, a, b) && ServerAt(cr, a, b, 4)
    ensures var d := OnRecord(cr, a, cr.seal(C2s(cr, a, b), TAG_MESSAGE, Encode(DevicePdu(cr, a, b))));
      SameRoots(a, d) && d.serverPk == a.serverPk && Honest(cr, d, b) && ServerAt(cr, d, b, 5) && d.out == a.out
  {
    ServerAwaits(cr, a, b);
    hide Ideal, OnRecord, Encode, DevicePdu, Transcripted, CString;
  }

  /** An accepting decision with claims that fit cannot fail. */
  lemma ServerDecides(cr: Suite, a: Ctx, b: Ctx, claims: bytes)
    requires Honest(cr, a, b) && ServerAt(cr, a, b, 5) && a.out == [] && |claims| <= CLAIMS_MAX
    ensures var (d, rc) := Decide(cr, a, true, claims);
      && rc == Ok && SameRoots(a, d) && d.serverPk == a.serverPk && Honest(cr, d, b) && ServerAt(cr, d, b, 6)
      && d.out == SealFrame(cr, S2c(cr, d, b), AuthOk(claims))
  {
    var p := AuthOk(claims);
    hide BuildTHello, Encode, PutU32;
    var c := a.(auth := a.auth.(awaiting := false, decided := true));
    assert SsSend(cr, c, p) == (Append(cr, c, p), Ok);
    hide SsSend, PushRc;
    assert [] + SealFrame(cr, S2c(cr, a, b), p) == SealFrame(cr, S2c(cr, a, b), p);
  }

  lemma ClientTakesOk(cr: Suite, a: Ctx, b: Ctx, claims: bytes)
    requires Ideal(cr) && Honest(cr, a, b) && ClientAt(cr, a, b, 6) && |claims| <= CLAIMS_MAX
    ensures var d := OnRecord(cr, b, cr.seal(S2c(cr, a, b), TAG_MESSAGE, Encode(AuthOk(claims))));
      SameRoots(b, d) && Honest(cr, a, d) && ClientAt(cr, a, d, 7) && d.out == b.out
  {
    var p := AuthOk(claims);
    SealedOpens(cr, b, p);
    DecodeEncode(p);
    TypeByte(p);
    hide Ideal, OnRecord, Encode, Decode, BuildTHello, Keys;
  }

  // ------------------------------------------------------------------
  // Bytes: one frame, in any number of pieces
  // ------------------------------------------------------------------

  /** A prefix of the only frame in flight waits; the whole of it is handled, and nothing is left. */
  lemma TakeFrame(cr: Suite, s: Side, data: bytes, rest: bytes, body: bytes)
    requires !Stopped(s.c) && LegalBody(body, Limit(s.c)) && s.inp + data + rest == Frame(body)
    ensures var fed := s.(inp := s.inp + data); var d := OnFrame(cr, s.c, body);
      if rest != [] then Process(cr, fed) == fed && IdsUsed(cr, fed) == 0 && Settled(fed)
      else if d.state == Error then true
      else Process(cr, fed) == Side(d, []) && IdsUsed(cr, fed) == IdsBetween(s.c, d) && Settled(Side(d, []))
  {
    var fed := s.(inp := s.inp + data);
    hide OnFrame, IdsBetween, Frame;
    if rest != [] {
      assert fed.inp == Frame(body)[..|fed.inp|];
      FrameLength(body);
      ParseProperPrefix(body, |fed.inp|, Limit(s.c));
      hide Parse, Limit;
    } else {
      assert fed.inp == Frame(body) + [];
      ParseFrame(body, [], Limit(s.c));
      var d := OnFrame(cr, s.c, body);
      NothingToParse(Limit(d));
      hide Parse, Limit;
      NothingToProcess(cr, d);
    }
  }

  lemma FrameLength(body: bytes)
    requires |body| < U32
    ensures |Frame(body)| == 4 + |body|
  {
  }

  lemma NothingToParse(maxBody: nat)
    ensures Parse([], maxBody).NeedMore?
  {
  }

  lemma NothingToProcess(cr: Suite, c: Ctx)
    ensures Process(cr, Side(c, [])) == Side(c, []) && IdsUsed(cr, Side(c, [])) == 0 && Settled(Side(c, []))
  {
    NothingToParse(Limit(c));
    hide Parse, Limit;
  }

  // ------------------------------------------------------------------
  // One side takes the frame of its phase
  // ------------------------------------------------------------------

  /** What either side keeps for the other's sake. */
  lemma RootsKept(cr: Suite, a: Ctx, a': Ctx, b: Ctx, b': Ctx)
    requires Suited(cr, a, b) && SameRoots(a, a') && a'.serverPk == a.serverPk && SameRoots(b, b')
    ensures Keys(cr, a', b') == Keys(cr, a, b) && C2s(cr, a', b') == C2s(cr, a, b) && S2c(cr, a', b') == S2c(cr, a, b)
    ensures Transcripted(a', b') == Transcripted(a, b) && ClientHelloBody(b') == ClientHelloBody(b)
    ensures DevicePdu(cr, a', b') == DevicePdu(cr, a, b) && ServerHelloBody(cr, a', b') == ServerHelloBody(cr, a, b)
  {
    hide EncodeHello, BuildTHello, BuildTAuth;
  }

  ghost predicate ServerMoved(cr: Suite, a: Ctx, d: Ctx, b: Ctx, k: nat, claims: bytes)
    requires Suited(cr, a, b)
  {
    && SameRoots(a, d) && d.serverPk == a.serverPk && Honest(cr, d, b)
    && ServerAt(cr, d, b, k + 1) && ClientAt(cr, d, b, k + 1)
    && d.out == ToClient(cr, d, b, k + 1, claims) && ToServer(cr, d, b, k + 1) == [] && d.state != Closed
  }

  lemma ServerMovesOnHello(cr: Suite, a: Ctx, b: Ctx, claims: bytes)
    requires Ideal(cr) && Honest(cr, a, b) && ServerAt(cr, a, b, 0) && ClientAt(cr, a, b, 0) && a.out == []
    ensures ServerMoved(cr, a, PeerHello(cr, a, ClientHelloBody(b)), b, 0, claims)
  {
    ServerTakesHello(cr, a, b);
    hide PeerHello, Keys, Transcripted, ClientHelloBody, ServerHelloBody, Ideal, Frame, DevicePdu, Greeted;
  }

  lemma ServerMovesOnHeader(cr: Suite, a: Ctx, b: Ctx, claims: bytes)
    requires Honest(cr, a, b) && ServerAt(cr, a, b, 2) && ClientAt(cr, a, b, 2) && a.out == []
    ensures ServerMoved(cr, a, PeerSsHeader(cr, a, b.header), b, 2, claims)
  {
    ServerTakesHeader(cr, a, b);
    RootsKept(cr, a, PeerSsHeader(cr, a, b.header), b, b);
    hide PeerSsHeader, Keys, Transcripted, Frame, DevicePdu, Greeted, ServerSecure;
  }

  lemma ServerMovesOnDevice(cr: Suite, a: Ctx, b: Ctx, claims: bytes)
    requires Ideal(cr) && Honest(cr, a, b) && ServerAt(cr, a, b, 4) && ClientAt(cr, a, b, 4) && a.out == []
    ensures ServerMoved(cr, a, OnRecord(cr, a, cr.seal(C2s(cr, a, b), TAG_MESSAGE, Encode(DevicePdu(cr, a, b)))), b, 4, claims)
  {
    ServerTakesDevice(cr, a, b);
    var body := cr.seal(C2s(cr, a, b), TAG_MESSAGE, Encode(DevicePdu(cr, a, b)));
    RootsKept(cr, a, OnRecord(cr, a, body), b, b);
    hide OnRecord, Keys, Transcripted, Frame, DevicePdu, Greeted, ServerSecure, Ideal, Encode;
  }

  /** The bodies the server is to be sent. */
  function ServerBody(cr: Suite, a: Ctx, b: Ctx, k: nat): bytes
    requires Suited(cr, a, b)
  {
    if k == 0 then ClientHelloBody(b) else if k == 2 then b.header
    else cr.seal(C2s(cr, a, b), TAG_MESSAGE, Encode(DevicePdu(cr, a, b)))
  }

  lemma ServerBodyFramed(cr: Suite, a: Ctx, b: Ctx, k: nat)
    requires StreamLaw(cr) && Honest(cr, a, b) && ServerAt(cr, a, b, k) && (k == 0 || k == 2 || k == 4)
    ensures LegalBody(ServerBody(cr, a, b, k), Limit(a)) && ToServer(cr, a, b, k) == Frame(ServerBody(cr, a, b, k))
  {
    hide Keys, PutU32, PutU16, Transcripted;
    if k == 4 {
      var p := DevicePdu(cr, a, b);
      assert |ServerBody(cr, a, b, k)| == PduLen(p) + SS_ABYTES && PduLen(p) > 0;
    }
  }

  lemma ServerAdvances(cr: Suite, a: Ctx, b: Ctx, k: nat, claims: bytes)
    requires Ideal(cr) && Honest(cr, a, b) && ServerAt(cr, a, b, k) && ClientAt(cr, a, b, k) && (k == 0 || k == 2 || k == 4)
    requires a.out == []
    ensures ServerMoved(cr, a, OnFrame(cr, a, ServerBody(cr, a, b, k)), b, k, claims)
  {
    assert a.hs == (if k == 0 then WaitPeerHello else if k == 2 then WaitPeerSs else Done) by {
      hide Keys, Transcripted;
    }
    hide ServerAt, ClientAt, ServerMoved, PeerHello, PeerSsHeader, OnRecord, Ideal, Honest;
    if k == 0 { ServerMovesOnHello(cr, a, b, claims); }
    else if k == 2 { ServerMovesOnHeader(cr, a, b, claims); }
    else { ServerMovesOnDevice(cr, a, b, claims); }
  }

  ghost predicate ClientMoved(cr: Suite, a: Ctx, b: Ctx, d: Ctx, k: nat, claims: bytes)
    requires Suited(cr, a, b)
  {
    && SameRoots(b, d) && Honest(cr, a, d) && ServerAt(cr, a, d, k + 1) && ClientAt(cr, a, d, k + 1)
    && d.out == ToServer(cr, a, d, k + 1) && ToClient(cr, a, d, k + 1, claims) == [] && d.state != Closed
  }

  lemma ClientMovesOnHello(cr: Suite, a: Ctx, b: Ctx, claims: bytes)
    requires Ideal(cr) && Honest(cr, a, b) && ServerAt(cr, a, b, 1) && ClientAt(cr, a, b, 1) && b.out == []
    ensures ClientMoved(cr, a, b, PeerHello(cr, b, ServerHelloBody(cr, a, b)), 1, claims)
  {
    ClientTakesHello(cr, a, b);
    RootsKept(cr, a, a, b, PeerHello(cr, b, ServerHelloBody(cr, a, b)));
    hide PeerHello, Keys, Transcripted, ClientHelloBody, ServerHelloBody, Ideal, Frame, DevicePdu, ClientGreeted;
  }

  lemma ClientMovesOnHeader(cr: Suite, a: Ctx, b: Ctx, claims: bytes)
    requires Ideal(cr) && Honest(cr, a, b) && ServerAt(cr, a, b, 3) && ClientAt(cr, a, b, 3) && b.out == []
    ensures ClientMoved(cr, a, b, PeerSsHeader(cr, b, a.header), 3, claims)
  {
    ClientTakesHeader(cr, a, b);
    RootsKept(cr, a, a, b, PeerSsHeader(cr, b, a.header));
    hide PeerSsHeader, Keys, Transcripted, Ideal, Frame, DevicePdu, ClientGreeted;
  }

  lemma ClientMovesOnOk(cr: Suite, a: Ctx, b: Ctx, claims: bytes)
    requires Ideal(cr) && Honest(cr, a, b) && ServerAt(cr, a, b, 6) && ClientAt(cr, a, b, 6) && b.out == []
    requires |claims| <= CLAIMS_MAX
    ensures ClientMoved(cr, a, b, OnRecord(cr, b, cr.seal(S2c(cr, a, b), TAG_MESSAGE, Encode(AuthOk(claims)))), 6, claims)
  {
    ClientTakesOk(cr, a, b, claims);
    var body := cr.seal(S2c(cr, a, b), TAG_MESSAGE, Encode(AuthOk(claims)));
    RootsKept(cr, a, a, b, OnRecord(cr, b, body));
    hide OnRecord, Keys, Transcripted, Ideal, Encode, DevicePdu, ClientGreeted;
  }

  function ClientBody(cr: Suite, a: Ctx, b: Ctx, k: nat, claims: bytes): bytes
    requires Suited(cr, a, b) && |claims| <= CLAIMS_MAX
  {
    if k == 1 then ServerHelloBody(cr, a, b) else if k == 3 then a.header
    else cr.seal(S2c(cr, a, b), TAG_MESSAGE, Encode(AuthOk(claims)))
  }

  lemma ClientBodyFramed(cr: Suite, a: Ctx, b: Ctx, k: nat, claims: bytes)
    requires StreamLaw(cr) && Honest(cr, a, b) && ClientAt(cr, a, b, k) && (k == 1 || k == 3 || k == 6) && |claims| <= CLAIMS_MAX
    ensures var body := ClientBody(cr, a, b, k, claims);
      LegalBody(body, Limit(b)) && ToClient(cr, a, b, k, claims) == Frame(body)
  {
    hide Keys, PutU32, PutU16, Transcripted;
    if k == 6 {
      assert |ClientBody(cr, a, b, k, claims)| == PduLen(AuthOk(claims)) + SS_ABYTES;
    }
  }

  lemma ClientAdvances(cr: Suite, a: Ctx, b: Ctx, k: nat, claims: bytes)
    requires Ideal(cr) && Honest(cr, a, b) && ServerAt(cr, a, b, k) && ClientAt(cr, a, b, k) && (k == 1 || k == 3 || k == 6)
    requires b.out == [] && |claims| <= CLAIMS_MAX
    ensures ClientMoved(cr, a, b, OnFrame(cr, b, ClientBody(cr, a, b, k, claims)), k, claims)
  {
    assert b.hs == (if k == 1 then WaitPeerHello else if k == 3 then WaitPeerSs else Done) by {
      hide Keys, Transcripted;
    }
    hide ServerAt, ClientAt, ClientMoved, PeerHello, PeerSsHeader, OnRecord, Ideal, Honest;
    if k == 1 { ClientMovesOnHello(cr, a, b, claims); }
    else if k == 3 { ClientMovesOnHeader(cr, a, b, claims); }
    else { ClientMovesOnOk(cr, a, b, claims); }
  }

  // ------------------------------------------------------------------
  // Steps within and between phases
  // ------------------------------------------------------------------

  /** Bytes wait for the server only in its own phases, and then its output is empty. */
  lemma ServerWaits(cr: Suite, n: Pair, k: nat, claims: bytes)
    requires AtPhase(cr, n, k, claims) && n.a.inp + n.ba + n.b.c.out != []
    ensures (k == 0 || k == 2 || k == 4) && n.a.c.out == []
  {
    hide Keys, DevicePdu, Settled;
  }

  lemma ClientWaits(cr: Suite, n: Pair, k: nat, claims: bytes)
    requires AtPhase(cr, n, k, claims) && n.b.inp + n.ab + n.a.c.out != []
    ensures (k == 1 || k == 3 || k == 6) && n.b.c.out == []
  {
    hide Keys, DevicePdu, Settled;
  }

  /** Bytes already buffered change nothing until they make a frame. */
  lemma ServerBuffers(cr: Suite, n: Pair, n': Pair, k: nat, claims: bytes)
    requires AtPhase(cr, n, k, claims) && n'.a.c == n.a.c && n'.b == n.b && n'.ab == n.ab && Uncounted(n')
    requires n'.a.inp + n'.ba + n.b.c.out == n.a.inp + n.ba + n.b.c.out && Settled(n'.a)
    ensures AtPhase(cr, n', k, claims)
  {
    hide ServerAt, ClientAt, ToServer, ToClient, Honest, Settled;
  }

  lemma ClientBuffers(cr: Suite, n: Pair, n': Pair, k: nat, claims: bytes)
    requires AtPhase(cr, n, k, claims) && n'.b.c == n.b.c && n'.a == n.a && n'.ba == n.ba && Uncounted(n')
    requires n'.b.inp + n'.ab + n.a.c.out == n.b.inp + n.ab + n.a.c.out && Settled(n'.b)
    ensures AtPhase(cr, n', k, claims)
  {
    hide ServerAt, ClientAt, ToServer, ToClient, Honest, Settled;
  }

  lemma ServerArrives(cr: Suite, n: Pair, n': Pair, k: nat, claims: bytes)
    requires AtPhase(cr, n, k, claims) && (k == 0 || k == 2 || k == 4 || k == 5)
    requires ServerMoved(cr, n.a.c, n'.a.c, n.b.c, k, claims)
    requires n'.a.inp == [] && n'.ba == [] && n.b.c.out == [] && n'.b == n.b && n'.ab == n.ab && Uncounted(n')
    requires Settled(n'.a)
    ensures AtPhase(cr, n', k + 1, claims)
  {
    assert n.b.inp + n.ab + n.a.c.out == [];
    hide ServerAt, ClientAt, ToServer, ToClient, Honest, Settled;
  }

  lemma ClientArrives(cr: Suite, n: Pair, n': Pair, k: nat, claims: bytes)
    requires AtPhase(cr, n, k, claims) && (k == 1 || k == 3 || k == 6)
    requires ClientMoved(cr, n.a.c, n.b.c, n'.b.c, k, claims)
    requires n'.b.inp == [] && n'.ab == [] && n.a.c.out == [] && n'.a == n.a && n'.ba == n.ba && Uncounted(n')
    requires Settled(n'.b)
    ensures AtPhase(cr, n', k + 1, claims)
  {
    assert n.a.inp + n.ba + n.b.c.out == [];
    hide ServerAt, ClientAt, ToServer, ToClient, Honest, Settled;
  }

  lemma NotFailed(cr: Suite, a: Ctx, d: Ctx, b: Ctx, k: nat, claims: bytes)
    requires Honest(cr, a, b) && k <= 6
    ensures ServerMoved(cr, a, d, b, k, claims) ==> d.state != Error && d.state != Closed && d.table == a.table
  {
    hide Keys, Transcripted, ToServer, ToClient;
  }

  lemma ClientNotFailed(cr: Suite, a: Ctx, b: Ctx, d: Ctx, k: nat, claims: bytes)
    requires Honest(cr, a, b) && k <= 6
    ensures ClientMoved(cr, a, b, d, k, claims) ==> d.state != Error && d.state != Closed && d.table == b.table
  {
    hide Keys, Transcripted, ToServer, ToClient;
  }

  lemma IdealStream(cr: Suite)
    requires Ideal(cr)
    ensures StreamLaw(cr)
  {
  }

  /** When bytes are on their way to the server, they are one frame, and it can take it. */
  lemma ServerDue(cr: Suite, n: Pair, k: nat, claims: bytes)
    requires Ideal(cr) && AtPhase(cr, n, k, claims) && n.a.inp + n.ba + n.b.c.out != []
    ensures (k == 0 || k == 2 || k == 4) && Uncounted(n) && Suited(cr, n.a.c, n.b.c)
    ensures var body := ServerBody(cr, n.a.c, n.b.c, k); var d := OnFrame(cr, n.a.c, body);
      && LegalBody(body, Limit(n.a.c)) && n.a.inp + n.ba + n.b.c.out == Frame(body)
      && ServerMoved(cr, n.a.c, d, n.b.c, k, claims) && d.state != Error && d.state != Closed && IdsBetween(n.a.c, d) == 0
  {
    assert Suited(cr, n.a.c, n.b.c);
    hide ServerAt, ClientAt, ToServer, ToClient, Honest, Suited, OnFrame, Settled, Frame, Limit, ServerMoved, Ideal, IdsBetween;
    ServerWaits(cr, n, k, claims);
    ServerBodyFramed(cr, n.a.c, n.b.c, k) by { IdealStream(cr); }
    ServerAdvances(cr, n.a.c, n.b.c, k, claims);
    var d := OnFrame(cr, n.a.c, ServerBody(cr, n.a.c, n.b.c, k));
    NotFailed(cr, n.a.c, d, n.b.c, k, claims);
    IdsBetweenSame(n.a.c, d);
  }

  lemma ClientDue(cr: Suite, n: Pair, k: nat, claims: bytes)
    requires Ideal(cr) && AtPhase(cr, n, k, claims) && n.b.inp + n.ab + n.a.c.out != []
    ensures (k == 1 || k == 3 || k == 6) && Uncounted(n) && Suited(cr, n.a.c, n.b.c) && |claims| <= CLAIMS_MAX
    ensures var body := ClientBody(cr, n.a.c, n.b.c, k, claims); var d := OnFrame(cr, n.b.c, body);
      && LegalBody(body, Limit(n.b.c)) && n.b.inp + n.ab + n.a.c.out == Frame(body)
      && ClientMoved(cr, n.a.c, n.b.c, d, k, claims) && d.state != Error && d.state != Closed && IdsBetween(n.b.c, d) == 0
  {
    assert Suited(cr, n.a.c, n.b.c);
    hide ServerAt, ClientAt, ToServer, ToClient, Honest, Suited, OnFrame, Settled, Frame, Limit, ClientMoved, Ideal, IdsBetween;
    ClientWaits(cr, n, k, claims);
    ClientBodyFramed(cr, n.a.c, n.b.c, k, claims) by { IdealStream(cr); }
    ClientAdvances(cr, n.a.c, n.b.c, k, claims);
    var d := OnFrame(cr, n.b.c, ClientBody(cr, n.a.c, n.b.c, k, claims));
    ClientNotFailed(cr, n.a.c, n.b.c, d, k, claims);
    IdsBetweenSame(n.b.c, d);
  }

  lemma ServerTakes(cr: Suite, n: Pair, k: nat, claims: bytes, j: nat)
    requires Ideal(cr) && AtPhase(cr, n, k, claims)
    ensures var n' := ActA(cr, n, Takes(j));
      || (AtPhase(cr, n', k, claims) && n'.a.c == n.a.c)
      || (AtPhase(cr, n', k + 1, claims) && (k == 0 || k == 2 || k == 4) && n'.a.c.state != Closed)
  {
    hide AtPhase, Honest, Suited, ActA, OnFrame, Settled, Process, IdsUsed, Frame, Limit, ServerMoved, Ideal, ServerBody, IdsBetween;
    var t := TakeIs(cr, n, j);
    if t > 0 {
      var rest := n.ba[t..] + n.b.c.out;
      assert n.a.inp + n.ba[..t] + rest == n.a.inp + n.ba + n.b.c.out;
      ServerDue(cr, n, k, claims);
      TakeFrame(cr, n.a, n.ba[..t], rest, ServerBody(cr, n.a.c, n.b.c, k));
      var n' := ActA(cr, n, Takes(j));
      assert n'.a.inp + n'.ba + n.b.c.out == n'.a.inp + rest;
      if rest != [] { ServerBuffers(cr, n, n', k, claims); } else { ServerArrives(cr, n, n', k, claims); }
    }
  }

  lemma ClientTakes(cr: Suite, n: Pair, k: nat, claims: bytes, j: nat)
    requires Ideal(cr) && AtPhase(cr, n, k, claims)
    ensures var n' := Flip(ActA(cr, Flip(n), Takes(j)));
      || (AtPhase(cr, n', k, claims) && n'.b.c == n.b.c)
      || (AtPhase(cr, n', k + 1, claims) && (k == 1 || k == 3 || k == 6) && n'.b.c.state != Closed)
  {
    hide AtPhase, Honest, Suited, ActA, OnFrame, Settled, Process, IdsUsed, Frame, Limit, ClientMoved, Ideal, ClientBody, IdsBetween;
    var t := TakeIs(cr, Flip(n), j);
    assert Flip(Flip(n)) == n;
    if t > 0 {
      var rest := n.ab[t..] + n.a.c.out;
      assert n.b.inp + n.ab[..t] + rest == n.b.inp + n.ab + n.a.c.out;
      ClientDue(cr, n, k, claims);
      TakeFrame(cr, n.b, n.ab[..t], rest, ClientBody(cr, n.a.c, n.b.c, k, claims));
      var n' := Flip(ActA(cr, Flip(n), Takes(j)));
      assert n'.b.inp + n'.ab + n.a.c.out == n'.b.inp + rest;
      if rest != [] { ClientBuffers(cr, n, n', k, claims); } else { ClientArrives(cr, n, n', k, claims); }
    }
  }

  /** A call that is too early is refused and changes nothing. */
  lemma EarlyCallsRefused(cr: Suite, c: Ctx, call: Call)
    requires c.state == Hello || c.state == SsHeader || c.state == Auth || c.state == Closed
    requires !call.CallDisconnect?
    ensures HostCall(cr, c, call).0 == c && HostCall(cr, c, call).1 != Ok
  {
    var o := CallOutcome(c, call);
    assert o.eff == Keep && o.push == [] && o.events == [] && o.state == c.state && o.rc != Ok;
    hide CallOutcome;
    assert c.log + [] == c.log;
  }

  /** Before its secretstream is up a side leaves in silence. */
  lemma LeavesInSilence(cr: Suite, c: Ctx, call: Call)
    requires (c.state == Hello || c.state == SsHeader || c.state == Closed) && call.CallDisconnect?
    ensures HostCall(cr, c, call).0 == c.(state := Closed)
  {
    var o := CallOutcome(c, call);
    assert o.eff == Keep && o.push == [] && o.events == [] && o.state == Closed;
    hide CallOutcome;
    assert c.log + [] == c.log;
  }

  lemma EarlyStates(cr: Suite, n: Pair, k: nat, claims: bytes)
    requires AtPhase(cr, n, k, claims) && k <= 5
    ensures n.a.c.state == Hello || n.a.c.state == SsHeader || n.a.c.state == Auth || n.a.c.state == Closed
    ensures n.b.c.state == Hello || n.b.c.state == SsHeader || n.b.c.state == Auth || n.b.c.state == Closed
    ensures (n.a.c.state == Auth <==> k >= 3) && (n.b.c.state == Auth <==> k >= 4)
  {
    hide Keys, DevicePdu, Settled, ToServer, ToClient, DeviceEvent;
  }

  /** Closing a side that is not yet in AUTH leaves the pair in its phase. */
  lemma ServerCloses(cr: Suite, n: Pair, k: nat, claims: bytes)
    requires AtPhase(cr, n, k, claims) && k <= 2
    ensures AtPhase(cr, n.(a := n.a.(c := n.a.c.(state := Closed))), k, claims)
  {
    RootsKept(cr, n.a.c, n.a.c.(state := Closed), n.b.c, n.b.c);
    hide Keys, DevicePdu, Transcripted, ClientHelloBody, ServerHelloBody, Parse, Frame;
  }

  lemma ClientCloses(cr: Suite, n: Pair, k: nat, claims: bytes)
    requires AtPhase(cr, n, k, claims) && k <= 3
    ensures AtPhase(cr, n.(b := n.b.(c := n.b.c.(state := Closed))), k, claims)
  {
    RootsKept(cr, n.a.c, n.a.c, n.b.c, n.b.c.(state := Closed));
    hide Keys, DevicePdu, Transcripted, ClientHelloBody, ServerHelloBody, Parse, Frame;
  }

  /** Short of a disconnect in AUTH, no call moves a pair out of its phase. */
  lemma EarlyCalls(cr: Suite, n: Pair, k: nat, claims: bytes, call: Call)
    requires AtPhase(cr, n, k, claims) && k <= 5
    ensures n.a.c.state != Auth || !call.CallDisconnect? ==> AtPhase(cr, ActA(cr, n, Calls(call)), k, claims)
    ensures n.b.c.state != Auth || !call.CallDisconnect? ==> AtPhase(cr, Flip(ActA(cr, Flip(n), Calls(call))), k, claims)
  {
    EarlyStates(cr, n, k, claims);
    hide AtPhase, HostCall, IdsBetween, Noted;
    EarlyCall(cr, n, call);
    EarlyCall(cr, Flip(n), call);
    if n.a.c.state != Auth && call.CallDisconnect? { ServerCloses(cr, n, k, claims); }
    if n.b.c.state != Auth && call.CallDisconnect? { ClientCloses(cr, n, k, claims); }
  }

  lemma EarlyCall(cr: Suite, n: Pair, call: Call)
    requires n.a.c.state == Hello || n.a.c.state == SsHeader || n.a.c.state == Auth || n.a.c.state == Closed
    ensures !call.CallDisconnect? ==> ActA(cr, n, Calls(call)) == n
    ensures call.CallDisconnect? && n.a.c.state != Auth ==>
      ActA(cr, n, Calls(call)) == n.(a := n.a.(c := n.a.c.(state := Closed)))
  {
    hide HostCall, IdsBetween;
    var (d, rc) := HostCall(cr, n.a.c, call);
    if !call.CallDisconnect? {
      EarlyCallsRefused(cr, n.a.c, call);
      IdsBetweenSame(n.a.c, d);
    } else if n.a.c.state != Auth {
      LeavesInSilence(cr, n.a.c, call);
      IdsBetweenSame(n.a.c, d);
    }
  }

  /** What get_output does to the pair: bytes move on, and the way holds what it held. */
  lemma GivesIs(cr: Suite, n: Pair, max: nat)
    ensures var n' := ActA(cr, n, Gives(max));
      && n' == n.(a := n.a.(c := n.a.c.(out := n'.a.c.out)), ab := n'.ab)
      && n.b.inp + n'.ab + n'.a.c.out == n.b.inp + n.ab + n.a.c.out
      && Settled(n'.a) == Settled(n.a)
  {
    var n' := ActA(cr, n, Gives(max));
    assert n'.ab + n'.a.c.out == n.ab + n.a.c.out;
    assert n.b.inp + n'.ab + n'.a.c.out == n.b.inp + (n'.ab + n'.a.c.out);
    assert n.b.inp + n.ab + n.a.c.out == n.b.inp + (n.ab + n.a.c.out);
    hide Parse;
  }

  /** Output moves bytes along the way; what is on the way does not change. */
  lemma GivesStay(cr: Suite, n: Pair, k: nat, claims: bytes, max: nat)
    requires AtPhase(cr, n, k, claims)
    ensures AtPhase(cr, ActA(cr, n, Gives(max)), k, claims)
  {
    hide ServerAt, ClientAt, ToServer, ToClient, Honest, ActA, Settled;
    GivesIs(cr, n, max);
    OutputOnly(cr, n.a.c, ActA(cr, n, Gives(max)).a.c, n.b.c, n.b.c, k, claims);
  }

  /** No phase looks at what is pending, only at what is in flight altogether. */
  lemma OutputOnly(cr: Suite, a: Ctx, a': Ctx, b: Ctx, b': Ctx, k: nat, claims: bytes)
    requires Honest(cr, a, b) && ServerAt(cr, a, b, k) && ClientAt(cr, a, b, k)
    requires a' == a.(out := a'.out) && b' == b.(out := b'.out)
    ensures Honest(cr, a', b') && ServerAt(cr, a', b', k) && ClientAt(cr, a', b', k)
    ensures ToServer(cr, a', b', k) == ToServer(cr, a, b, k) && ToClient(cr, a', b', k, claims) == ToClient(cr, a, b, k, claims)
  {
    RootsKept(cr, a, a', b, b');
    hide Keys, DevicePdu, Transcripted, ClientHelloBody, ServerHelloBody;
  }

  lemma ClientGivesStay(cr: Suite, n: Pair, k: nat, claims: bytes, max: nat)
    requires AtPhase(cr, n, k, claims)
    ensures AtPhase(cr, Flip(ActA(cr, Flip(n), Gives(max))), k, claims)
  {
    hide ServerAt, ClientAt, ToServer, ToClient, Honest, ActA, Settled;
    GivesIs(cr, Flip(n), max);
    OutputOnly(cr, n.a.c, n.a.c, n.b.c, ActA(cr, Flip(n), Gives(max)).a.c, k, claims);
  }

  /** Only a server that awaits a decision can be given one. */
  lemma NoDecisionDue(cr: Suite, n: Pair, k: nat, claims: bytes, accept: bool, given: bytes)
    requires AtPhase(cr, n, k, claims)
    ensures k != 5 || |given| > CLAIMS_MAX ==> ActA(cr, n, Decides(accept, given)) == n
    ensures Flip(ActA(cr, Flip(n), Decides(accept, given))) == n
  {
    hide Keys, Transcripted, ToServer, ToClient, SsSend, Settled;
  }

  lemma ServerMovesOnDecision(cr: Suite, a: Ctx, b: Ctx, given: bytes)
    requires Honest(cr, a, b) && ServerAt(cr, a, b, 5) && ClientAt(cr, a, b, 5) && a.out == [] && |given| <= CLAIMS_MAX
    ensures ServerMoved(cr, a, Decide(cr, a, true, given).0, b, 5, given)
  {
    ServerDecides(cr, a, b, given);
    RootsKept(cr, a, Decide(cr, a, true, given).0, b, b);
    hide Decide, Keys, Transcripted, DevicePdu, ServerSecure, Greeted, SealFrame;
  }

  lemma DecisionStep(cr: Suite, n: Pair, claims: bytes, given: bytes)
    requires AtPhase(cr, n, 5, claims) && |given| <= CLAIMS_MAX
    ensures AtPhase(cr, ActA(cr, n, Decides(true, given)), 6, given)
  {
    assert n.b.inp + n.ab + n.a.c.out == [] && n.a.inp + n.ba + n.b.c.out == [];
    ServerMovesOnDecision(cr, n.a.c, n.b.c, given);
    hide ServerMoved, Decide, Honest, ServerAt, ClientAt;
    var d := Decide(cr, n.a.c, true, given).0;
    NothingToParse(Limit(d));
    assert AtPhase(cr, n, 5, given);
    hide AtPhase, Parse, Limit;
    ServerArrives(cr, n, n.(a := n.a.(c := d)), 5, given);
  }

  // ------------------------------------------------------------------
  // Every step
  // ------------------------------------------------------------------

  /**
   * Whatever a host does before its side is in AUTH, and short of a rejection
   * or a disconnect in AUTH, a step stays in its phase or enters the next.
   */
  lemma PhaseStep(cr: Suite, n: Pair, k: nat, claims: bytes, move: Move) returns (k': nat, claims': bytes)
    requires Ideal(cr) && AtPhase(cr, n, k, claims) && k <= 5 && (k <= 2 || CarefulMove(n, move))
    ensures (k' == k || k' == k + 1) && AtPhase(cr, Step(cr, n, move), k', claims')
  {
    hide AtPhase, ActA, Ideal, Careful;
    match move {
      case MoveA(w) => k', claims' := ServerPhaseStep(cr, n, k, claims, w);
      case MoveB(w) => k', claims' := ClientPhaseStep(cr, n, k, claims, w);
    }
  }

  lemma ServerPhaseStep(cr: Suite, n: Pair, k: nat, claims: bytes, w: Doing) returns (k': nat, claims': bytes)
    requires Ideal(cr) && AtPhase(cr, n, k, claims) && k <= 5 && (k <= 2 || Careful(n.a.c, w))
    ensures (k' == k || k' == k + 1) && AtPhase(cr, ActA(cr, n, w), k', claims')
  {
    EarlyStates(cr, n, k, claims);
    CarefulSays(n.a.c, w);
    hide AtPhase, ActA, Ideal, Careful, Decidable;
    k', claims' := k, claims;
    match w {
      case Calls(call) => EarlyCalls(cr, n, k, claims, call);
      case Gives(max) => GivesStay(cr, n, k, claims, max);
      case Takes(j) => ServerTakes(cr, n, k, claims, j); if !AtPhase(cr, ActA(cr, n, w), k, claims) { k' := k + 1; }
      case Decides(accept, given) =>
        NoDecisionDue(cr, n, k, claims, accept, given);
        if k == 5 && |given| <= CLAIMS_MAX { FiveIsDecidable(cr, n, claims, given); DecisionStep(cr, n, claims, given); k', claims' := 6, given; }
    }
  }

  lemma CarefulSays(c: Ctx, w: Doing)
    ensures Careful(c, w) ==> (w.Calls? && w.call.CallDisconnect? ==> c.state != Auth) && (w.Decides? ==> w.accept || !Decidable(c, w.claims))
  {
    hide PushRc;
  }

  lemma FiveIsDecidable(cr: Suite, n: Pair, claims: bytes, given: bytes)
    requires AtPhase(cr, n, 5, claims) && |given| <= CLAIMS_MAX
    ensures Decidable(n.a.c, given)
  {
    hide Keys, Transcripted, ToServer, ToClient, Settled, DeviceEvent;
  }

  lemma ClientPhaseStep(cr: Suite, n: Pair, k: nat, claims: bytes, w: Doing) returns (k': nat, claims': bytes)
    requires Ideal(cr) && AtPhase(cr, n, k, claims) && k <= 5 && (k <= 2 || Careful(n.b.c, w))
    ensures (k' == k || k' == k + 1) && AtPhase(cr, Flip(ActA(cr, Flip(n), w)), k', claims')
  {
    EarlyStates(cr, n, k, claims);
    CarefulSays(n.b.c, w);
    hide AtPhase, ActA, Ideal, Careful;
    k', claims' := k, claims;
    match w {
      case Calls(call) => EarlyCalls(cr, n, k, claims, call);
      case Gives(max) => ClientGivesStay(cr, n, k, claims, max);
      case Takes(j) =>
        ClientTakes(cr, n, k, claims, j);
        if !AtPhase(cr, Flip(ActA(cr, Flip(n), w)), k, claims) { k' := k + 1; }
      case Decides(accept, given) => NoDecisionDue(cr, n, k, claims, accept, given); assert Flip(Flip(n)) == n;
    }
  }

  // ------------------------------------------------------------------
  // Liveness
  // ------------------------------------------------------------------

  /** A delivery or a decision that changes something. */
  predicate Productive(n: Pair, m: Move) {
    match m
    case MoveA(Gives(max)) => max > 0 && n.a.c.out != []
    case MoveB(Gives(max)) => max > 0 && n.b.c.out != []
    case MoveA(Takes(j)) => j > 0 && n.ba != [] && n.a.c.state != Closed
    case MoveB(Takes(j)) => j > 0 && n.ab != [] && n.b.c.state != Closed
    case MoveA(Decides(accept, claims)) => accept && n.a.c.auth.awaiting && |claims| <= CLAIMS_MAX
    case _ => false
  }

  function Work(n: Pair): nat {
    2 * (|n.a.c.out| + |n.b.c.out|) + |n.ab| + |n.ba|
  }

  const CAP: nat := 4096

  function Measure(n: Pair, k: nat): nat
    requires k <= 7
  {
    Work(n) + (7 - k) * CAP
  }

  /** Frames of the handshake are short. */
  lemma FramesAreShort(cr: Suite, n: Pair, k: nat, claims: bytes)
    requires StreamLaw(cr) && AtPhase(cr, n, k, claims)
    ensures Work(n) < CAP
  {
    var a, b := n.a.c, n.b.c;
    hide Keys, Transcripted, ServerAt, ClientAt, Settled, PutU32, PutU16;
    if k == 4 { assert |SealFrame(cr, C2s(cr, a, b), DevicePdu(cr, a, b))| <= 4 + 3 + CLAIMS_MAX + SS_ABYTES; }
    if k == 6 { assert |SealFrame(cr, S2c(cr, a, b), AuthOk(claims))| <= 4 + 3 + CLAIMS_MAX + SS_ABYTES; }
    assert |ToServer(cr, a, b, k)| <= 1048 && |ToClient(cr, a, b, k, claims)| <= 1048;
    assert |n.a.inp + n.ba + b.out| <= 1048 && |n.b.inp + n.ab + a.out| <= 1048;
  }

  /** What is moved off the link is gone from it. */
  lemma TakesDrain(cr: Suite, n: Pair, j: nat)
    requires Settled(n.a) && !Stopped(n.a.c) && j > 0 && n.ba != []
    ensures |ActA(cr, n, Takes(j)).ba| < |n.ba| && ActA(cr, n, Takes(j)).ab == n.ab && ActA(cr, n, Takes(j)).b == n.b
  {
    var data := n.ba[..Min(j, |n.ba|)];
    ResidueIsShort(n.a);
    hide Settled, Feed, IdsUsed;
  }

  lemma GivesWork(cr: Suite, n: Pair, max: nat)
    requires max > 0 && n.a.c.out != []
    ensures Work(ActA(cr, n, Gives(max))) < Work(n)
  {
  }

  /** Neither side has left. */
  predicate Present(n: Pair) {
    n.a.c.state != Closed && n.b.c.state != Closed
  }

  lemma PhasesAreWell(cr: Suite, n: Pair, k: nat, claims: bytes)
    requires AtPhase(cr, n, k, claims)
    ensures n.a.c.state != Error && n.b.c.state != Error
  {
    hide Keys, DevicePdu, Settled, ToServer, ToClient, DeviceEvent;
  }

  /** Every productive step either leaves less to do in its phase or ends the phase. */
  lemma Progress(cr: Suite, n: Pair, k: nat, claims: bytes, m: Move) returns (k': nat, claims': bytes)
    requires Ideal(cr) && AtPhase(cr, n, k, claims) && Productive(n, m)
    ensures k' <= 7 && AtPhase(cr, Step(cr, n, m), k', claims') && Measure(Step(cr, n, m), k') < Measure(n, k)
    ensures Present(n) ==> Present(Step(cr, n, m))
  {
    AwaitingIsFive(cr, n, k, claims);
    assert k <= 7;
    hide AtPhase, ActA, Ideal;
    k', claims' := k, claims;
    match m {
      case MoveA(Gives(max)) => GivesStay(cr, n, k, claims, max); GivesWork(cr, n, max); GivesIs(cr, n, max);
      case MoveB(Gives(max)) => ClientGivesStay(cr, n, k, claims, max); GivesWork(cr, Flip(n), max); GivesIs(cr, Flip(n), max);
      case MoveA(Takes(j)) => k' := TakesProgress(cr, n, k, claims, j); hide *;
      case MoveB(Takes(j)) => k' := ClientTakesProgress(cr, n, k, claims, j); hide *;
      case MoveA(Decides(accept, given)) =>
        k', claims' := 6, given;
        DecisionStep(cr, n, claims, given);
        IdealStream(cr);
        FramesAreShort(cr, Step(cr, n, m), 6, given);
    }
  }

  lemma AwaitingIsFive(cr: Suite, n: Pair, k: nat, claims: bytes)
    requires AtPhase(cr, n, k, claims)
    ensures n.a.c.auth.awaiting <==> k == 5
  {
    hide Keys, Transcripted, ToServer, ToClient, Settled;
  }

  lemma TakesProgress(cr: Suite, n: Pair, k: nat, claims: bytes, j: nat) returns (k': nat)
    requires Ideal(cr) && AtPhase(cr, n, k, claims) && Productive(n, MoveA(Takes(j)))
    ensures var n' := Step(cr, n, MoveA(Takes(j)));
      k' <= 7 && AtPhase(cr, n', k', claims) && Measure(n', k') < Measure(n, k) && (Present(n) ==> Present(n'))
  {
    var n' := ActA(cr, n, Takes(j));
    ServerWaits(cr, n, k, claims);
    PhasesAreWell(cr, n, k, claims);
    assert Settled(n.a) && !Stopped(n.a.c);
    hide AtPhase, ActA, Settled, Ideal;
    ServerTakes(cr, n, k, claims, j);
    TakesDrain(cr, n, j);
    k' := if AtPhase(cr, n', k, claims) && n'.a.c == n.a.c then k else k + 1;
    IdealStream(cr);
    FramesAreShort(cr, n', k', claims);
  }

  lemma ClientTakesProgress(cr: Suite, n: Pair, k: nat, claims: bytes, j: nat) returns (k': nat)
    requires Ideal(cr) && AtPhase(cr, n, k, claims) && Productive(n, MoveB(Takes(j)))
    ensures var n' := Step(cr, n, MoveB(Takes(j)));
      k' <= 7 && AtPhase(cr, n', k', claims) && Measure(n', k') < Measure(n, k) && (Present(n) ==> Present(n'))
  {
    var n' := Flip(ActA(cr, Flip(n), Takes(j)));
    ClientWaits(cr, n, k, claims);
    PhasesAreWell(cr, n, k, claims);
    assert Settled(n.b) && !Stopped(n.b.c);
    hide AtPhase, ActA, Settled, Ideal;
    ClientTakes(cr, n, k, claims, j);
    TakesDrain(cr, Flip(n), j);
    k' := if AtPhase(cr, n', k, claims) && n'.b.c == n.b.c then k else k + 1;
    IdealStream(cr);
    FramesAreShort(cr, n', k', claims);
  }

  /** While the handshake is not over and nobody has left, some byte can move or the host can decide. */
  lemma NeverStuck(cr: Suite, n: Pair, k: nat, claims: bytes)
    requires StreamLaw(cr) && AtPhase(cr, n, k, claims) && k < 7 && Present(n)
    ensures exists m: Move :: Productive(n, m)
  {
    if k == 5 {
      AwaitingIsFive(cr, n, k, claims);
      assert Productive(n, MoveA(Decides(true, [])));
    } else if k == 0 || k == 2 || k == 4 {
      ServerUnfinished(cr, n, k, claims);
      assert Productive(n, MoveA(Takes(1))) || Productive(n, MoveB(Gives(1)));
    } else {
      ClientUnfinished(cr, n, k, claims);
      assert Productive(n, MoveB(Takes(1))) || Productive(n, MoveA(Gives(1)));
    }
  }

  lemma ServerUnfinished(cr: Suite, n: Pair, k: nat, claims: bytes)
    requires StreamLaw(cr) && AtPhase(cr, n, k, claims) && (k == 0 || k == 2 || k == 4) && Present(n)
    ensures n.ba + n.b.c.out != []
  {
    PhasesAreWell(cr, n, k, claims);
    var body := ServerBody(cr, n.a.c, n.b.c, k);
    ServerBodyFramed(cr, n.a.c, n.b.c, k);
    hide ServerAt, ClientAt, ToServer, ToClient, Honest, ServerBody, Limit;
    if n.ba + n.b.c.out == [] {
      assert n.a.inp + n.ba + n.b.c.out == n.a.inp == Frame(body) + [];
      ParseFrame(body, [], Limit(n.a.c));
    }
  }

  lemma ClientUnfinished(cr: Suite, n: Pair, k: nat, claims: bytes)
    requires StreamLaw(cr) && AtPhase(cr, n, k, claims) && (k == 1 || k == 3 || k == 6) && Present(n)
    ensures n.ab + n.a.c.out != []
  {
    PhasesAreWell(cr, n, k, claims);
    var body := ClientBody(cr, n.a.c, n.b.c, k, claims);
    ClientBodyFramed(cr, n.a.c, n.b.c, k, claims);
    hide ServerAt, ClientAt, ToServer, ToClient, Honest, ClientBody, Limit;
    if n.ab + n.a.c.out == [] {
      assert n.b.inp + n.ab + n.a.c.out == n.b.inp == Frame(body) + [];
      ParseFrame(body, [], Limit(n.b.c));
    }
  }

  predicate AllProductive(cr: Suite, n: Pair, moves: seq<Move>)
    decreases |moves|
  {
    moves == [] || (Productive(n, moves[0]) && AllProductive(cr, Step(cr, n, moves[0]), moves[1..]))
  }

  /** Both READY, on one transcript and one pair of keys, and the device the server accepted is the client's. */
  predicate Established(a: Ctx, b: Ctx) {
    && a.state == Ready && b.state == Ready && a.auth.complete && b.auth.complete
    && a.tHello == b.tHello && a.tHello.Some? && a.keyC2s == b.keyC2s && a.keyS2c == b.keyS2c
    && a.peerId == b.id.clientPk && b.peerId == a.serverPk
  }

  lemma SevenIsEstablished(cr: Suite, n: Pair, claims: bytes)
    requires AtPhase(cr, n, 7, claims)
    ensures Established(n.a.c, n.b.c)
  {
    hide Keys, ToServer, ToClient, Settled;
  }

  /**
   * Liveness: from any phase, deliveries in pieces of any size together with
   * the host's acceptance cannot go on for longer than the measure, and can
   * stop only with both sides READY in one agreed session.
   */
  lemma {:induction false} HandshakeCompletes(cr: Suite, n: Pair, k: nat, claims: bytes, moves: seq<Move>)
    requires Ideal(cr) && AtPhase(cr, n, k, claims) && Present(n) && AllProductive(cr, n, moves)
    ensures |moves| <= Measure(n, k)
    ensures var d := Run(cr, n, moves);
      (forall m: Move :: !Productive(d, m)) ==> Established(d.a.c, d.b.c)
    decreases |moves|
  {
    hide Step, Productive, Ideal, Measure, Established, AtPhase, Present;
    if moves == [] {
      if k < 7 { IdealStream(cr); NeverStuck(cr, n, k, claims); } else { AtMostSeven(cr, n, k, claims); SevenIsEstablished(cr, n, claims); }
    } else {
      var k', claims' := Progress(cr, n, k, claims, moves[0]);
      HandshakeCompletes(cr, Step(cr, n, moves[0]), k', claims', moves[1..]);
    }
  }

  lemma AtMostSeven(cr: Suite, n: Pair, k: nat, claims: bytes)
    requires AtPhase(cr, n, k, claims)
    ensures k <= 7
  {
  }
}
