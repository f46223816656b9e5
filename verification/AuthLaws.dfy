/**
 * The handshake and authentication step by step, against any peer: exactly
 * when a HELLO, a header, an AUTH PDU or the host's decision is accepted,
 * what it fixes, what is sent, and what the host is told; and what a refusal
 * leaves.  A session stands before the step as c and after it as d.
 */
module AuthLaws {
  import opened Base
  import opened Mux
  import opened Wire
  import opened WirePdu
  import opened Transcript
  import opened Crypto
  import opened Engine
  import opened EngineCalls
  import opened CallLaws
  import opened PduLaws
  import P = Pair

  // ------------------------------------------------------------------
  // HELLO
  // ------------------------------------------------------------------

  /** A clear frame of n bytes fits the output. */
  predicate Appendable(c: Ctx, n: nat) {
    |c.out| + 4 + n <= OUT_BUF_SIZE
  }

  /** The pin holds, or any server will do. */
  predicate Trusted(c: Ctx, pk: Key32) {
    c.id.acceptAny || c.serverPk == Some(pk)
  }

  /**
   * A client and a HELLO: it goes on exactly if the HELLO is a server's, the
   * key is trusted, the signature is that key's over the transcript of the two
   * ephemerals, the exchange yields keys, and the header fits.  Then it holds
   * that transcript and those keys, and its header is on its way.  An
   * untrusted key changes nothing; with a bad signature the host is not told
   * of a HELLO.
   */
  lemma ClientMeetsHello(cr: Suite, c: Ctx, h: HelloBody)
    requires LegalHello(h) && c.hs == WaitPeerHello && c.id.role == Client
    ensures var d := OnFrame(cr, c, EncodeHello(h));
      var t := BuildTHello(PROTO_VERSION, SUITE_V1, c.ephPk, h.ephPk, h.idPk);
      var trusted := h.role == 0 && Trusted(c, h.idPk);
      var signed := cr.verify(h.idSig, t, h.idPk);
      var k := cr.kxClient(c.ephPk, c.ephSk, h.ephPk);
      var told := c.log + [HelloReceived(Some(h.idPk))];
      var met := c.(serverPk := Some(h.idPk), peerId := Some(h.idPk), peerEph := Some(h.ephPk), tHello := Some(t));
      && (!trusted ==> Breaks(c, d, ErrProtocol))
      && (trusted && !signed ==> Breaks(met, d, ErrCrypto))
      && (trusted && signed && k.None? ==> Breaks(met.(log := told), d, ErrCrypto))
      && (trusted && signed && k.Some? ==>
            && d.keyC2s == cr.kdf(k.value.tx, DOM_SS_C2S) && d.keyS2c == cr.kdf(k.value.rx, DOM_SS_S2C)
            && d.push == Some(Stream(d.keyC2s, c.header, 0))
            && d == met.(keyC2s := d.keyC2s, keyS2c := d.keyS2c, push := d.push, state := d.state, hs := d.hs, out := d.out, log := d.log)
            && if Appendable(c, 24) then d.state == SsHeader && d.hs == WaitPeerSs && d.out == c.out + Frame(c.header) && d.log == told
               else d.state == Error && d.hs == c.hs && d.out == c.out && d.log == told + [ErrorEvent(ErrFull)])
  {
    DecodeEncodeHello(h);
    hide EncodeHello, DecodeHello, Frame, BuildTHello;
    assert OnFrame(cr, c, EncodeHello(h)) == ClientHello(cr, c, h);
  }

  /**
   * A server and a HELLO: it goes on exactly if the HELLO is a client's, its
   * own fits, and the exchange yields keys.  Then it has sent one HELLO with
   * its ephemeral, its key, and its signature over the transcript of the two
   * ephemerals and that key.  The client's key is noted unless it is zero.
   */
  lemma ServerMeetsHello(cr: Suite, c: Ctx, h: HelloBody)
    requires LegalHello(h) && c.hs == WaitPeerHello && c.id.role == Server && c.serverPk.Some? && c.id.serverSk.Some?
    ensures var d := OnFrame(cr, c, EncodeHello(h));
      var t := BuildTHello(PROTO_VERSION, SUITE_V1, h.ephPk, c.ephPk, c.serverPk.value);
      var mine := EncodeHello(HelloBody(PROTO_VERSION, SUITE_V1, 0, 0, c.ephPk, c.serverPk.value, cr.sign(t, c.id.serverSk.value)));
      var k := cr.kxServer(c.ephPk, c.ephSk, h.ephPk);
      var pk := if h.idPk == ZERO32 then c.peerId else Some(h.idPk);
      var met := c.(peerEph := Some(h.ephPk), peerId := pk, tHello := Some(t), log := c.log + [HelloReceived(pk)]);
      && (h.role != 1 ==> Breaks(c, d, ErrProtocol))
      && (h.role == 1 && !Appendable(c, 140) ==> Breaks(met, d, ErrCrypto))
      && (h.role == 1 && Appendable(c, 140) ==>
            && |mine| == 140 && d.out == c.out + Frame(mine)
            && (k.None? ==> Breaks(met.(out := d.out), d, ErrCrypto))
            && (k.Some? ==>
                  d == met.(out := d.out, state := SsHeader, hs := WaitPeerSs,
                            keyC2s := cr.kdf(k.value.rx, DOM_SS_C2S), keyS2c := cr.kdf(k.value.tx, DOM_SS_S2C))))
  {
    DecodeEncodeHello(h);
    var t := BuildTHello(PROTO_VERSION, SUITE_V1, h.ephPk, c.ephPk, c.serverPk.value);
    HelloLength(HelloBody(PROTO_VERSION, SUITE_V1, 0, 0, c.ephPk, c.serverPk.value, cr.sign(t, c.id.serverSk.value)));
    hide EncodeHello, DecodeHello, Frame, BuildTHello;
    assert OnFrame(cr, c, EncodeHello(h)) == ServerHello(cr, c, h);
  }

  lemma HelloLength(h: HelloBody)
    requires LegalHello(h)
    ensures |EncodeHello(h)| == HELLO_BODY_LEN
  {
  }

  /** What is no HELLO of this version and suite is refused by both. */
  lemma BadHelloIsFatal(cr: Suite, c: Ctx, body: bytes)
    requires c.hs == WaitPeerHello && forall h: HelloBody :: LegalHello(h) ==> body != EncodeHello(h)
    ensures Breaks(c, OnFrame(cr, c, body), ErrProtocol)
  {
    if DecodeHello(body).Some? { EncodeDecodeHello(body); assert false; }
    hide DecodeHello, EncodeHello;
  }

  // ------------------------------------------------------------------
  // The secretstream header
  // ------------------------------------------------------------------

  /** The AUTH_DEVICE of a client: its key, and its signature over transcript, key and names, cut to their limits. */
  function DeviceOf(cr: Suite, c: Ctx): (p: Pdu)
    requires c.id.clientPk.Some? && c.id.clientSk.Some? && c.tHello.Some?
    ensures Legal(p) && p.AuthDevice? && p.user <= c.id.user && p.device <= c.id.device
  {
    var user, device := c.id.user[..Min(|c.id.user|, USER_MAX)], c.id.device[..Min(|c.id.device|, DEVICE_ID_MAX)];
    AuthDevice(c.id.clientPk.value, cr.sign(BuildTAuth(c.tHello.value, c.id.clientPk.value, user, device), c.id.clientSk.value), user, device)
  }

  /** A client has a device to show, and has not. */
  predicate HasDevice(c: Ctx) {
    c.id.clientPk.Some? && c.id.clientSk.Some? && c.tHello.Some? && !c.auth.sent
  }

  /**
   * A client and the server's header: it reads with it from message 0, is in
   * AUTH, and sends its AUTH_DEVICE as the one record if it has one; if that
   * does not fit it fails.
   */
  lemma ClientMeetsHeader(cr: Suite, c: Ctx, header: Header24)
    requires StreamLaw(cr) && c.hs == WaitPeerSs && c.id.role == Client
    ensures var d := OnFrame(cr, c, header);
      var up := c.(pull := Some(Stream(c.keyS2c, header, 0)), hs := Done, state := Auth, log := c.log + [KxComplete]);
      && (!HasDevice(c) ==> d == up)
      && (HasDevice(c) && Sendable(c, PduLen(DeviceOf(cr, c))) ==>
            OneFrame(cr, c, d, DeviceOf(cr, c)) && d == up.(out := d.out, push := d.push, auth := c.auth.(sent := true)))
      && (HasDevice(c) && !Sendable(c, PduLen(DeviceOf(cr, c))) ==> Breaks(up, d, ErrCrypto))
  {
    var up := c.(pull := Some(Stream(c.keyS2c, header, 0)), hs := Done, state := Auth, log := c.log + [KxComplete]);
    if HasDevice(c) {
      var p := DeviceOf(cr, c);
      DeviceSent(cr, up);
      SendVerdict(up, PduLen(p));
      SendIsAllOrNothing(cr, up, p);
      hide DeviceOf, SendAuthDevice, SsSend, PushRc, StreamLaw, Encode;
    }
  }

  lemma DeviceSent(cr: Suite, c: Ctx)
    requires HasDevice(c) && c.id.role == Client
    ensures var (d, rc) := SsSend(cr, c, DeviceOf(cr, c));
      rc == PushRc(c.id.cfg, SinkOf(c), PduLen(DeviceOf(cr, c)))
      && SendAuthDevice(cr, c) == (if rc != Ok then (d, ErrFull) else (d.(auth := d.auth.(sent := true)), Ok))
  {
    SendRc(cr, c, DeviceOf(cr, c));
    hide SsSend, BuildTAuth, PushRc, SinkOf;
  }

  /** A server and the client's header: it reads with it from message 0, sends its own header, and is in AUTH. */
  lemma ServerMeetsHeader(cr: Suite, c: Ctx, header: Header24)
    requires c.hs == WaitPeerSs && c.id.role == Server
    ensures var d := OnFrame(cr, c, header);
      var up := c.(pull := Some(Stream(c.keyC2s, header, 0)), push := Some(Stream(c.keyS2c, c.header, 0)));
      if Appendable(c, 24) then d == up.(out := c.out + Frame(c.header), hs := Done, state := Auth, log := c.log + [KxComplete])
      else Breaks(up, d, ErrFull)
  {
    hide Frame;
  }

  lemma BadHeaderIsFatal(cr: Suite, c: Ctx, body: bytes)
    requires c.hs == WaitPeerSs && |body| != SS_HEADER_BYTES
    ensures Breaks(c, OnFrame(cr, c, body), ErrProtocol)
  {
  }

  // ------------------------------------------------------------------
  // Authentication
  // ------------------------------------------------------------------

  lemma AuthIs(cr: Suite, c: Ctx, m: Pdu)
    requires StreamLaw(cr) && Hearing(c, m) && c.state == Auth
    ensures Encode(m) != [] && Hears(cr, c, m) == OnAuth(cr, Advanced(c), Encode(m))
  {
    P.SealedOpens(cr, c, m);
    hide OnAuth, OnMux, Encode, OnRecord, Legal;
  }

  /**
   * AUTH_DEVICE: taken once, by a server that has a transcript, and awaits a
   * decision exactly if the signature verifies over transcript, key and
   * names; the host is told these.  A bad signature is answered AUTH_FAIL
   * where it fits, and ends the session; so does an AUTH_DEVICE out of turn.
   */
  lemma DeviceIsHeard(cr: Suite, c: Ctx, m: Pdu)
    requires StreamLaw(cr) && Hearing(c, m) && c.state == Auth && m.AuthDevice?
    ensures var d, e := Hears(cr, c, m), Advanced(c);
      var due := c.id.role == Server && !c.auth.awaiting && !c.auth.complete && !c.auth.decided;
      && (!due ==> Breaks(e, d, ErrProtocol))
      && (due && c.tHello.None? ==> Breaks(e, d, ErrState))
      && (due && c.tHello.Some? ==>
            if cr.verify(m.sig, BuildTAuth(c.tHello.value, m.pk, m.user, m.device), m.pk) then
              d == e.(peerId := Some(m.pk), auth := c.auth.(awaiting := true),
                      log := c.log + [AuthDeviceEvent(m.pk, CString(m.user), CString(m.device))])
            else
              && Within(e, d) && d.state == Error && d.table == c.table && Answers(cr, c, d, AuthFail(0, []))
              && d.log == c.log + [AuthFailed(REASON_BAD_SIG), ErrorEvent(ErrCrypto)])
  {
    var e := Advanced(c);
    AuthIs(cr, c, m);
    P.TypeByte(m);
    DecodeEncode(m);
    assert DecodeAuthDevice(Encode(m)) == Decode(Encode(m));
    SendVerdict(c, 3);
    SendIsAllOrNothing(cr, e, AUTH_FAIL_PDU);
    SendRc(cr, e, AUTH_FAIL_PDU);
    hide Hears, Encode, Decode, DecodeAuthDevice, BuildTAuth, SsSend, PushRc, CString, StreamLaw, OneFrame;
    FrameFrom(cr, c, e, OnAuthDevice(cr, e, Encode(m)), AUTH_FAIL_PDU);
    assert Hears(cr, c, m) == OnAuthDevice(cr, e, Encode(m));
  }

  lemma SendRc(cr: Suite, c: Ctx, p: Pdu)
    requires Legal(p)
    ensures SsSend(cr, c, p).1 == PushRc(c.id.cfg, SinkOf(c), PduLen(p))
  {
    hide PushRc, Encode;
  }

  /** One frame more or none looks at the output and the push counter alone. */
  lemma FrameFrom(cr: Suite, c: Ctx, e: Ctx, d: Ctx, p: Pdu)
    requires e.out == c.out && e.push == c.push && e.id == c.id
    ensures OneFrame(cr, e, d, p) == OneFrame(cr, c, d, p) && NoFrame(e, d) == NoFrame(c, d)
    ensures SinkOf(e) == SinkOf(c)
  {
    hide Encode, Legal, Frame;
  }

  /** AUTH_OK makes a client READY, whatever the claims; a server it ends. */
  lemma OkIsHeard(cr: Suite, c: Ctx, m: Pdu)
    requires StreamLaw(cr) && Hearing(c, m) && c.state == Auth && m.AuthOk?
    ensures var d, e := Hears(cr, c, m), Advanced(c);
      if c.id.role == Client then d == e.(auth := c.auth.(complete := true), state := Ready, log := c.log + [Authenticated])
      else Breaks(e, d, ErrProtocol)
  {
    AuthIs(cr, c, m);
    P.TypeByte(m);
    DecodeEncode(m);
    hide Hears, Encode, Decode;
  }

  /** AUTH_FAIL ends the session of either role, and its host is told of the failure and then of the rejection. */
  lemma FailIsHeard(cr: Suite, c: Ctx, m: Pdu)
    requires StreamLaw(cr) && Hearing(c, m) && c.state == Auth && m.AuthFail?
    ensures Hears(cr, c, m) ==
      Advanced(c).(state := Error, log := c.log + [AuthFailed(REASON_UNSPEC), ErrorEvent(ErrRejected)])
  {
    AuthIs(cr, c, m);
    P.TypeByte(m);
    DecodeEncode(m);
    hide Hears, Encode, Decode;
    assert c.log + [AuthFailed(REASON_UNSPEC)] + [ErrorEvent(ErrRejected)] == c.log + [AuthFailed(REASON_UNSPEC), ErrorEvent(ErrRejected)];
  }

  /** No other PDU has a place in AUTH. */
  lemma MuxIsNoAuth(cr: Suite, c: Ctx, m: Pdu)
    requires StreamLaw(cr) && Hearing(c, m) && c.state == Auth && !m.AuthDevice? && !m.AuthOk? && !m.AuthFail?
    ensures Breaks(Advanced(c), Hears(cr, c, m), ErrProtocol)
  {
    AuthIs(cr, c, m);
    P.TypeByte(m);
    hide Hears, Encode;
  }

  // ------------------------------------------------------------------
  // The decision
  // ------------------------------------------------------------------

  /** A decision is due, and its claims fit an AUTH_OK. */
  predicate Due(c: Ctx) {
    c.id.role == Server && c.state == Auth && c.auth.awaiting && !c.auth.decided
  }

  /** The decision that was awaited is made. */
  function Marked(c: Ctx): Ctx {
    c.(auth := c.auth.(awaiting := false, decided := true))
  }

  lemma DecisionSends(cr: Suite, c: Ctx, p: Pdu)
    requires StreamLaw(cr) && Legal(p)
    ensures var (d, rc) := SsSend(cr, Marked(c), p);
      && (rc == Ok <==> Sendable(c, PduLen(p)))
      && (rc == Ok ==> OneFrame(cr, c, d, p) && d == Marked(c).(out := d.out, push := d.push))
      && (rc != Ok ==> d == Marked(c))
  {
    SendVerdict(c, PduLen(p));
    SendIsAllOrNothing(cr, Marked(c), p);
    SendRc(cr, Marked(c), p);
    FrameFrom(cr, c, Marked(c), SsSend(cr, Marked(c), p).0, p);
    hide SsSend, OneFrame, PushRc, StreamLaw, Encode, Legal, SinkOf;
  }

  /** auth_decide is refused where no decision is due, or the claims are too long, and then changes nothing. */
  lemma DecisionIsDue(cr: Suite, c: Ctx, accept: bool, claims: bytes)
    ensures var (d, rc) := Decide(cr, c, accept, claims);
      && (!Due(c) ==> rc == ErrState && d == c)
      && (Due(c) && |claims| > CLAIMS_MAX ==> rc == ErrParam && d == c)
      && (rc == Ok || rc == ErrFull || d == c)
  {
    hide SsSend;
  }

  /** An acceptance: AUTH_OK with these claims is on its way, and the session READY; or it did not fit, and the session failed. */
  lemma AcceptanceIsSent(cr: Suite, c: Ctx, claims: bytes)
    requires StreamLaw(cr) && Due(c) && |claims| <= CLAIMS_MAX
    ensures var (d, rc) := Decide(cr, c, true, claims);
      if Sendable(c, 3 + |claims|) then
        && rc == Ok && OneFrame(cr, c, d, AuthOk(claims))
        && d == Marked(c).(auth := Marked(c).auth.(complete := true), state := Ready, out := d.out, push := d.push, log := c.log + [Authenticated])
      else rc == ErrFull && Breaks(Marked(c), d, ErrFull)
  {
    DecisionSends(cr, c, AuthOk(claims));
    hide SsSend, OneFrame, Encode, StreamLaw;
    FrameFrom(cr, c, c, c, AuthOk(claims));
  }

  /** A rejection: AUTH_FAIL is on its way, the host is told, and the session failed; or it did not fit, and the session failed for that. */
  lemma RejectionIsSent(cr: Suite, c: Ctx, claims: bytes)
    requires StreamLaw(cr) && Due(c) && |claims| <= CLAIMS_MAX
    ensures var (d, rc) := Decide(cr, c, false, claims);
      if Sendable(c, 3) then
        && rc == Ok && OneFrame(cr, c, d, AuthFail(0, []))
        && d == Marked(c).(state := Error, out := d.out, push := d.push, log := c.log + [AuthFailed(REASON_POLICY), ErrorEvent(ErrRejected)])
      else rc == ErrFull && Breaks(Marked(c), d, ErrFull)
  {
    DecisionSends(cr, c, AUTH_FAIL_PDU);
    hide SsSend, OneFrame, Encode, StreamLaw;
    assert c.log + [AuthFailed(REASON_POLICY)] + [ErrorEvent(ErrRejected)] == c.log + [AuthFailed(REASON_POLICY), ErrorEvent(ErrRejected)];
  }
}
