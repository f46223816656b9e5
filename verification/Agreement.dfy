/**
 * What an honest pair agrees on in every run of the bytes, with no rule for
 * the hosts: past HELLO both hold one transcript and one pair of keys, a
 * server has a device only if the client sent it, and a client is READY only
 * if the server's host accepted; and nothing ever fails to verify or to open.
 */
module Agreement {
  import opened Base
  import opened Mux
  import opened Wire
  import opened WirePdu
  import opened Transcript
  import opened Crypto
  import opened Engine
  import opened EngineCalls
  import opened EngineInput
  import opened EngineKeys
  import opened EngineProof
  import opened Pair
  import opened PairRun
  import opened Handshake
  import L = EngineLife
  import T = Table

  /** No signature failed to verify, and no record to open. */
  predicate Intact(log: seq<Event>) {
    ErrorEvent(ErrCrypto) !in log
  }

  // ------------------------------------------------------------------
  // Steps of one session past its handshake
  // ------------------------------------------------------------------

  /** No device is told of between the two. */
  predicate NoDevice(log: seq<Event>, log': seq<Event>) {
    forall i :: |log| <= i < |log'| ==> !log'[i].AuthDeviceEvent?
  }

  /** Events of neither kind. */
  predicate Tame(e: seq<Event>) {
    Intact(e) && NoDevice([], e)
  }

  /** What takes two READY sides: opening a channel, accepting it, and sending on it. */
  predicate IsOffer(p: Pdu) {
    p.Open? || p.Confirm? || p.Data?
  }

  predicate NoOffer(q: seq<Pdu>) {
    forall i :: 0 <= i < |q| ==> !IsOffer(q[i])
  }

  /** No pairing and no chunk is told of between the two. */
  predicate Pairless(log: seq<Event>, log': seq<Event>) {
    forall i :: |log| <= i < |log'| ==> !log'[i].ChannelOpen? && !log'[i].ChannelOpened? && !log'[i].ChannelData?
  }

  /** No channel is waiting to be accepted, and none is open. */
  predicate Bare(t: T.Table) {
    forall i :: 0 <= i < |t.slots| ==> t.slots[i].state != Pending && t.slots[i].state != Opened
  }

  /** Only READY makes offers, and READY comes of AUTH, by being authenticated. */
  predicate Fades(c: Ctx, d: Ctx, p: seq<Pdu>) {
    && (c.state != Ready ==> NoOffer(p))
    && (c.state != Auth && c.state != Ready ==> d.state != Auth && d.state != Ready)
    && (d.state == Ready ==> c.state == Ready || d.auth.complete)
  }

  /** From c to d: the session and everything told stays, p is sent, no cryptographic failure is new, nor without AUTH_DEVICE a device. */
  ghost predicate Goes(cr: Suite, c: Ctx, d: Ctx, p: seq<Pdu>) {
    && SameSession(c, d) && d.hs == c.hs && c.log <= d.log && (Intact(c.log) ==> Intact(d.log))
    && ((d.auth.awaiting ==> c.auth.awaiting) ==> NoDevice(c.log, d.log))
    && Framable(p) && |p| <= 1 && (if p == [] then NoFrame(c, d) else OneFrame(cr, c, d, p[0]))
    && (c.auth.complete ==> d.auth.complete) && d.state != Hello && d.state != SsHeader
    && (Stopped(c) ==> Stopped(d)) && Fades(c, d, p)
  }

  /** p is no AUTH PDU. */
  predicate Common(p: seq<Pdu>) {
    forall i :: 0 <= i < |p| ==> !p[i].AuthOk? && !p[i].AuthDevice?
  }

  lemma PerformFits(cfg: Config, st: State, look: Option<Channel>, canAlloc: bool, next: u32, s: Sink, call: Call)
    ensures var o := Perform(cfg, st, look, canAlloc, next, s, call); Framable(o.push) && |o.push| <= 1
  {
    hide Segments;
  }

  lemma PerformSays(cfg: Config, st: State, look: Option<Channel>, canAlloc: bool, next: u32, s: Sink, call: Call)
    ensures var o := Perform(cfg, st, look, canAlloc, next, s, call);
      && Framable(o.push) && Common(o.push) && |o.push| <= 1 && Tame(o.events)
      && (o.state == st || o.state == Draining || o.state == Closed) && (st != Ready ==> NoOffer(o.push) && Pairless([], o.events))
      && (st == Error || st == Closed ==> o.state == Error || o.state == Closed)
  {
    PerformFits(cfg, st, look, canAlloc, next, s, call);
    hide Segments, PushRc, Framable;
  }

  lemma HandleSays(cfg: Config, st: State, look: Option<Channel>, canAlloc: bool, next: u32, s: Sink, m: Pdu)
    ensures var o := Handle(cfg, st, look, canAlloc, next, s, m);
      && Framable(o.push) && Common(o.push) && |o.push| <= 1 && Tame(o.events)
      && (o.state == st || o.state == Error || o.state == Closed) && NoOffer(o.push)
      && (!IsOffer(m) ==> Pairless([], o.events))
  {
    hide Segments;
  }

  lemma IntactMore(log: seq<Event>, e: seq<Event>)
    requires Intact(e)
    ensures (Intact(log) ==> Intact(log + e)) && (Tame(e) ==> NoDevice(log, log + e)) && (Pairless([], e) ==> Pairless(log, log + e))
  {
  }

  lemma SettleGoes(cr: Suite, c: Ctx, o: Outcome)
    requires StreamLaw(cr) && Framable(o.push) && |o.push| <= 1 && Tame(o.events) && L.Roomy(c.id.cfg, SinkOf(c), o)
    requires o.state != Hello && o.state != SsHeader && (Stopped(c) ==> o.state == Error || o.state == Closed)
    requires (c.state != Ready ==> NoOffer(o.push)) && (o.state == c.state || o.state == Draining || o.state == Error || o.state == Closed)
    ensures (o.push != [] ==> c.push.Some?)
    ensures var d := Settle(cr, c, o);
      && Goes(cr, c, d, o.push) && d.auth == c.auth && d.peerId == c.peerId && d.pull == c.pull && d.state == o.state
      && (Pairless([], o.events) ==> Pairless(c.log, d.log))
  {
    IntactMore(c.log, o.events);
    if o.push != [] { AppendIsOneFrame(cr, c, o.push[0]); }
    hide Intact, StreamLaw, PushRc, T.Change, Encode, PutU32;
    assert o.push != [] ==> PushRc(c.id.cfg, SinkOf(c), PduLen(o.push[0])) == Ok;
    var d := Settle(cr, c, o);
    if o.push != [] { assert OneFrame(cr, c, d, o.push[0]); }
  }

  lemma FailGoes(cr: Suite, c: Ctx, rc: Rc)
    requires rc != ErrCrypto
    ensures Goes(cr, c, Fail(c, rc), [])
  {
    IntactMore(c.log, [ErrorEvent(rc)]);
  }

  /** The pull counter has no part in what is said or sent. */
  lemma PulledGoes(cr: Suite, c: Ctx, e: Ctx, d: Ctx, p: seq<Pdu>)
    requires e == c.(pull := e.pull) && Goes(cr, e, d, p)
    ensures Goes(cr, c, d, p)
  {
    hide Encode, Legal, Intact, Frame, Framable;
  }

  // ------------------------------------------------------------------
  // What the server says
  // ------------------------------------------------------------------

  /** A server past its handshake: it has a device only as the client b sent it, and is authenticated only as decided. */
  predicate ServerWord(a: Ctx, b: Ctx)
    requires b.id.clientPk.Some?
  {
    && (Claimed(a) ==> a.peerId == b.id.clientPk && DeviceEvent(b) in a.log) && OnlyDevice(b, a.log)
    && (a.auth.complete ==> a.auth.decided)
    && Intact(a.log) && a.state != Hello && a.state != SsHeader
  }

  lemma OnlyStays(b: Ctx, log: seq<Event>, log': seq<Event>)
    requires b.id.clientPk.Some? && OnlyDevice(b, log) && log <= log' && NoDevice(log, log')
    ensures OnlyDevice(b, log')
  {
    hide DeviceEvent;
  }

  lemma ServerWordStays(cr: Suite, a: Ctx, d: Ctx, b: Ctx, p: seq<Pdu>)
    requires b.id.clientPk.Some? && ServerWord(a, b) && Goes(cr, a, d, p) && d.peerId == a.peerId
    requires (Claimed(d) ==> Claimed(a)) && (d.auth.complete ==> d.auth.decided) && (d.auth.awaiting ==> a.auth.awaiting)
    ensures ServerWord(d, b)
  {
    OnlyStays(b, a.log, d.log);
    hide DeviceEvent, OnlyDevice, NoDevice, Intact;
  }

  /** With nothing to accept and nothing open, a call changes that in no way, and tells nothing. */
  lemma BareCalls(c: Ctx, call: Call)
    requires Bare(c.table)
    ensures var o := CallOutcome(c, call);
      Bare(T.Change(c.table, o.eff)) && Pairless([], o.events) && (call.CallSend? ==> o.rc != Ok)
  {
    hide Segments, PushRc;
  }

  /** Nor does a PDU that is no offer. */
  lemma BareReceives(c: Ctx, m: Pdu)
    requires Bare(c.table) && !IsOffer(m)
    ensures Bare(T.Change(c.table, MuxOutcome(c, m).eff))
  {
    hide Segments, PushRc;
  }

  lemma ServerCalls(cr: Suite, a: Ctx, b: Ctx, call: Call) returns (p: seq<Pdu>)
    requires StreamLaw(cr) && b.id.clientPk.Some? && ServerWord(a, b)
    ensures var d := HostCall(cr, a, call).0;
      Goes(cr, a, d, p) && d.pull == a.pull && ServerWord(d, b) && Common(p) && d.auth.complete == a.auth.complete
  {
    hide StreamLaw, Goes, Settle, Intact, Tame, Framable, L.Roomy, DeviceEvent;
    var o := CallOutcome(a, call);
    PerformSays(a.id.cfg, a.state, T.Look(a.table, CallTarget(call)), T.CanAlloc(a.table, a.id.cfg.maxChannels),
                a.table.next, SinkOf(a), call);
    L.CallRoomy(a, call);
    p := o.push;
    hide Perform;
    SettleGoes(cr, a, o);
    ServerWordStays(cr, a, HostCall(cr, a, call).0, b, p);
  }

  /** One frame, and whatever else a decision changes. */
  lemma SentGoes(cr: Suite, a: Ctx, e: Ctx, d: Ctx, q: Pdu, events: seq<Event>)
    requires OneFrame(cr, a, e, q) && e == a.(auth := e.auth, out := e.out, push := e.push) && Framable([q])
    requires d == e.(auth := d.auth, state := d.state, log := e.log + events)
    requires (a.auth.complete ==> d.auth.complete) && d.state != Hello && d.state != SsHeader && a.state == Auth && Tame(events)
    requires !IsOffer(q) && (d.state == Ready ==> d.auth.complete)
    ensures Goes(cr, a, d, [q])
  {
    IntactMore(a.log, events);
    hide Intact, Encode, Frame, Framable;
  }

  lemma MarkedOneFrame(cr: Suite, a: Ctx, m: Ctx, e: Ctx, q: Pdu)
    requires m == a.(auth := m.auth) && OneFrame(cr, m, e, q)
    ensures OneFrame(cr, a, e, q)
  {
    hide Encode, Frame, Legal;
  }

  /** A decision sends AUTH_OK only if it authenticates. */
  lemma DecisionGoes(cr: Suite, a: Ctx, accept: bool, claims: bytes) returns (p: seq<Pdu>)
    requires StreamLaw(cr) && Decidable(a, claims)
    ensures var d := Decide(cr, a, accept, claims).0;
      Goes(cr, a, d, p) && (p != [] && p[0].AuthOk? ==> d.auth.complete) && (p != [] ==> !p[0].AuthDevice?)
      && (d.auth.complete && !a.auth.complete ==> p != [] && p[0].AuthOk?)
  {
    var m := a.(auth := a.auth.(awaiting := false, decided := true));
    var q := if accept then AuthOk(claims) else AUTH_FAIL_PDU;
    SendIsAllOrNothing(cr, m, q);
    var (e, rc) := SsSend(cr, m, q);
    var d := Decide(cr, a, accept, claims).0;
    hide SsSend, StreamLaw;
    if rc == Ok {
      p := [q];
      var events := if accept then [Authenticated] else [AuthFailed(REASON_POLICY), ErrorEvent(ErrRejected)];
      assert e.log + events == d.log;
      hide OneFrame, Goes;
      MarkedOneFrame(cr, a, m, e, q);
      SentGoes(cr, a, e, d, q, events);
    } else {
      p := [];
      FailGoes(cr, m, ErrFull);
      hide OneFrame;
    }
  }

  lemma ServerDecision(cr: Suite, a: Ctx, b: Ctx, accept: bool, claims: bytes) returns (p: seq<Pdu>)
    requires StreamLaw(cr) && b.id.clientPk.Some? && ServerWord(a, b)
    ensures var d := Decide(cr, a, accept, claims).0;
      Goes(cr, a, d, p) && d.pull == a.pull && ServerWord(d, b) && (p != [] && p[0].AuthOk? ==> d.auth.complete)
      && (p != [] ==> !p[0].AuthDevice?) && (!accept ==> d.auth.complete == a.auth.complete)
      && (d.auth.complete && !a.auth.complete ==> p != [] && p[0].AuthOk?)
  {
    p := [];
    if Decidable(a, claims) {
      p := DecisionGoes(cr, a, accept, claims);
    } else {
      assert Decide(cr, a, accept, claims).0 == a;
      assert Goes(cr, a, a, []);
    }
    hide Decide, Goes, ServerWord;
    DecidedWord(cr, a, Decide(cr, a, accept, claims).0, b, p, accept, claims);
  }

  lemma DecidedWord(cr: Suite, a: Ctx, d: Ctx, b: Ctx, p: seq<Pdu>, accept: bool, claims: bytes)
    requires b.id.clientPk.Some? && ServerWord(a, b) && Goes(cr, a, d, p) && d == Decide(cr, a, accept, claims).0
    ensures ServerWord(d, b) && d.pull == a.pull && (!accept ==> d.auth.complete == a.auth.complete)
  {
    hide Goes, SsSend, Intact, DeviceEvent;
    assert a.log <= d.log && Intact(d.log) && d.state != Hello && d.state != SsHeader && NoDevice(a.log, d.log) by {
      DecideFlags(cr, a, accept, claims);
      hide Decide;
      GoesTells(cr, a, d, p);
    }
    DecideFlags(cr, a, accept, claims);
    hide Decide;
    OnlyStays(b, a.log, d.log);
  }

  lemma GoesTells(cr: Suite, c: Ctx, d: Ctx, p: seq<Pdu>)
    requires Goes(cr, c, d, p)
    ensures c.log <= d.log && (Intact(c.log) ==> Intact(d.log)) && d.state != Hello && d.state != SsHeader
    ensures (d.auth.awaiting ==> c.auth.awaiting) ==> NoDevice(c.log, d.log)
  {
  }

  lemma DecideFlags(cr: Suite, a: Ctx, accept: bool, claims: bytes)
    ensures var d := Decide(cr, a, accept, claims).0;
      && d.peerId == a.peerId && d.pull == a.pull
      && (Claimed(d) ==> Claimed(a)) && (d.auth.awaiting ==> a.auth.awaiting) && (d.auth.complete && !a.auth.complete ==> d.auth.decided)
      && (a.auth.decided ==> d.auth.decided) && (!accept ==> d.auth.complete == a.auth.complete)
  {
    hide PushRc, Encode;
  }

  // ------------------------------------------------------------------
  // Records
  // ------------------------------------------------------------------

  /** A mux PDU leaves authentication alone. */
  lemma MuxGoes(cr: Suite, c: Ctx, m: Pdu) returns (p: seq<Pdu>)
    requires StreamLaw(cr) && Legal(m) && (c.state == Ready || c.state == Draining)
    ensures var d := OnMux(cr, c, Encode(m));
      && Goes(cr, c, d, p) && Common(p) && d.auth == c.auth && d.peerId == c.peerId && d.pull == c.pull
      && (d.state == c.state || d.state == Error || d.state == Closed)
  {
    hide StreamLaw, Goes, Settle, Intact, Tame, Framable, L.Roomy, OnMux, Encode, Legal;
    OnMuxIs(cr, c, m);
    var o := MuxOutcome(c, m);
    HandleSays(c.id.cfg, c.state, T.Look(c.table, PduTarget(m)), T.CanAlloc(c.table, c.id.cfg.maxChannels), c.table.next, SinkOf(c), m);
    L.MuxRoomy(c, m);
    p := o.push;
    hide Handle;
    SettleGoes(cr, c, o);
  }

  /** The one AUTH_DEVICE a server takes is the client's own. */
  lemma ServerHears(cr: Suite, a: Ctx, b: Ctx, m: Pdu)
    requires Ideal(cr) && Suited(cr, a, b) && Greeted(cr, a, b) && ServerWord(a, b) && a.state == Auth
    requires !Claimed(a) && m == DevicePdu(cr, a, b)
    ensures Encode(m) != []
    ensures var d := OnAuth(cr, a, Encode(m)); Goes(cr, a, d, []) && ServerWord(d, b) && d.pull == a.pull && !d.auth.complete
  {
    ServerVerifiesDevice(cr, a, b, m);
    var d := OnAuth(cr, a, Encode(m));
    var e := AuthDeviceEvent(m.pk, CString(m.user), CString(m.device));
    assert e == DeviceEvent(b) && m.pk == b.id.clientPk.value;
    hide Ideal, OnAuthDevice, Encode, Decode, Transcripted, Keys, CString, DevicePdu, DeviceEvent;
    IntactMore(a.log, [e]);
    assert e in d.log;
  }

  /** In AUTH a server takes that once, and fails on anything else. */
  lemma ServerAuth(cr: Suite, a: Ctx, b: Ctx, m: Pdu)
    requires Ideal(cr) && Suited(cr, a, b) && Greeted(cr, a, b) && ServerWord(a, b) && a.state == Auth && Legal(m)
    requires m.AuthDevice? ==> m == DevicePdu(cr, a, b)
    ensures Encode(m) != []
    ensures var d := OnAuth(cr, a, Encode(m));
      Goes(cr, a, d, []) && ServerWord(d, b) && d.pull == a.pull && d.auth.complete == a.auth.complete
  {
    TypeByte(m);
    DecodeEncode(m);
    if m.AuthDevice? && !Claimed(a) {
      hide Goes, OnAuth, ServerWord, Suited, Ideal, Greeted, DevicePdu, Encode;
      ServerHears(cr, a, b, m);
    } else {
      var d := OnAuth(cr, a, Encode(m));
      hide Ideal, Encode, Decode, DevicePdu, Transcripted, Keys, DeviceEvent;
      var events := if m.AuthFail? then [AuthFailed(REASON_UNSPEC), ErrorEvent(ErrRejected)] else [ErrorEvent(ErrProtocol)];
      assert d == a.(state := Error, log := d.log) && d.log == a.log + events;
      hide OnAuth;
      FailedGoes(cr, a, d, events);
      ServerWordStays(cr, a, d, b, []);
    }
  }

  lemma FailedGoes(cr: Suite, c: Ctx, d: Ctx, events: seq<Event>)
    requires d == c.(state := Error, log := c.log + events) && Tame(events)
    ensures Goes(cr, c, d, [])
  {
    IntactMore(c.log, events);
  }

  lemma ServerRecord(cr: Suite, a: Ctx, b: Ctx, m: Pdu) returns (p: seq<Pdu>)
    requires Ideal(cr) && Suited(cr, a, b) && Greeted(cr, a, b) && ServerWord(a, b) && !Stopped(a) && a.pull.Some? && Legal(m)
    requires m.AuthDevice? ==> m == DevicePdu(cr, a, b)
    ensures var d := OnRecord(cr, a, cr.seal(a.pull.value, TAG_MESSAGE, Encode(m)));
      && Goes(cr, a, d, p) && ServerWord(d, b) && Common(p) && (d.state != Error ==> d.pull == Some(Later(a.pull.value, 1)))
      && d.auth.complete == a.auth.complete
  {
    assert StreamLaw(cr) by { IdealStream(cr); }
    SealedOpens(cr, a, m);
    var e := a.(pull := Some(Later(a.pull.value, 1)));
    assert Suited(cr, e, b) && Greeted(cr, e, b) && ServerWord(e, b) && DevicePdu(cr, e, b) == DevicePdu(cr, a, b) by {
      hide Encode, OnRecord, BuildTHello, BuildTAuth;
    }
    hide Ideal, StreamLaw, Encode, Legal, OnRecord, OnMux, OnAuth, Goes, DevicePdu, Suited, Greeted;
    p := [];
    if PduLen(m) > a.id.cfg.maxRecord || PduLen(m) > DATA_MAX + 64 {
      FailGoes(cr, a, ErrProtocol);
      hide PduLen;
      ServerWordStays(cr, a, Fail(a, ErrProtocol), b, []);
    } else {
      hide PduLen;
      var d := OnPlain(cr, e, Encode(m));
      if a.state == Auth {
        ServerAuth(cr, e, b, m);
      } else {
        p := MuxGoes(cr, e, m);
        ServerWordStays(cr, e, d, b, p);
      }
      hide OnPlain, ServerWord, Common;
      PulledGoes(cr, a, e, d, p);
    }
  }

  // ------------------------------------------------------------------
  // What the client says
  // ------------------------------------------------------------------

  /** A client is READY, or was, only if the server has accepted. */
  predicate ClientWord(b: Ctx, accepted: bool) {
    && (b.state == Ready || b.auth.complete ==> accepted)
    && Intact(b.log) && b.state != Hello && b.state != SsHeader
  }

  lemma ClientCalls(cr: Suite, b: Ctx, accepted: bool, call: Call) returns (p: seq<Pdu>)
    requires StreamLaw(cr) && ClientWord(b, accepted)
    ensures var d := HostCall(cr, b, call).0;
      Goes(cr, b, d, p) && d.pull == b.pull && d.peerId == b.peerId && ClientWord(d, accepted) && Common(p)
  {
    hide StreamLaw, Settle, Intact, Framable, L.Roomy, OneFrame, NoFrame, SameSession;
    var o := CallOutcome(b, call);
    PerformSays(b.id.cfg, b.state, T.Look(b.table, CallTarget(call)), T.CanAlloc(b.table, b.id.cfg.maxChannels),
                b.table.next, SinkOf(b), call);
    L.CallRoomy(b, call);
    p := o.push;
    hide Perform;
    SettleGoes(cr, b, o);
  }

  lemma ClientAuth(cr: Suite, b: Ctx, accepted: bool, m: Pdu)
    requires b.id.role == Client && ClientWord(b, accepted) && b.state == Auth && Legal(m) && (m.AuthOk? ==> accepted)
    ensures Encode(m) != []
    ensures var d := OnAuth(cr, b, Encode(m)); Goes(cr, b, d, []) && ClientWord(d, accepted) && d.pull == b.pull && d.peerId == b.peerId
  {
    TypeByte(m);
    DecodeEncode(m);
    var d := OnAuth(cr, b, Encode(m));
    hide Encode, Decode;
    if m.AuthOk? {
      IntactMore(b.log, [Authenticated]);
    } else {
      var events := if m.AuthFail? then [AuthFailed(REASON_UNSPEC), ErrorEvent(ErrRejected)] else [ErrorEvent(ErrProtocol)];
      assert d == b.(state := Error, log := d.log) && d.log == b.log + events;
      hide OnAuth;
      FailedGoes(cr, b, d, events);
    }
  }

  lemma ClientRecord(cr: Suite, b: Ctx, accepted: bool, m: Pdu) returns (p: seq<Pdu>)
    requires StreamLaw(cr) && b.id.role == Client && ClientWord(b, accepted) && !Stopped(b) && b.pull.Some?
    requires Legal(m) && (m.AuthOk? ==> accepted)
    ensures var d := OnRecord(cr, b, cr.seal(b.pull.value, TAG_MESSAGE, Encode(m)));
      && Goes(cr, b, d, p) && ClientWord(d, accepted) && Common(p) && d.peerId == b.peerId
      && (d.state != Error ==> d.pull == Some(Later(b.pull.value, 1)))
  {
    SealedOpens(cr, b, m);
    hide StreamLaw, Encode, Legal, OnRecord, OnMux, OnAuth;
    var e := b.(pull := Some(Later(b.pull.value, 1)));
    p := [];
    if PduLen(m) > b.id.cfg.maxRecord || PduLen(m) > DATA_MAX + 64 {
      FailGoes(cr, b, ErrProtocol);
    } else {
      hide PduLen;
      var d := OnPlain(cr, e, Encode(m));
      if b.state == Auth {
        ClientAuth(cr, e, accepted, m);
      } else {
        p := MuxGoes(cr, e, m);
      }
      GoesTells(cr, e, d, p);
      assert ClientWord(d, accepted);
      hide OnPlain, ClientWord, Common, Goes;
      PulledGoes(cr, b, e, d, p);
    }
  }

  // ------------------------------------------------------------------
  // A pair that is never accepted
  // ------------------------------------------------------------------

  /** What settling an outcome tells and leaves. */
  lemma CallDrifts(cr: Suite, c: Ctx, call: Call)
    requires Bare(c.table) || c.state != Ready
    ensures var d := HostCall(cr, c, call).0; Pairless(c.log, d.log) && d.auth == c.auth && (Bare(c.table) ==> Bare(d.table))
  {
    var o := CallOutcome(c, call);
    if Bare(c.table) { BareCalls(c, call); }
    PerformSays(c.id.cfg, c.state, T.Look(c.table, CallTarget(call)), T.CanAlloc(c.table, c.id.cfg.maxChannels),
                c.table.next, SinkOf(c), call);
    hide Perform, Bare, T.Change, Framable, Tame;
    assert HostCall(cr, c, call).0.log == c.log + o.events;
  }

  lemma DecisionDrifts(cr: Suite, c: Ctx, accept: bool, claims: bytes)
    ensures var d := Decide(cr, c, accept, claims).0;
      Pairless(c.log, d.log) && d.table == c.table && (c.state != Auth ==> d.auth.complete == c.auth.complete)
  {
    hide PushRc, Encode;
  }

  lemma AuthDrifts(cr: Suite, c: Ctx, plain: bytes)
    requires plain != []
    ensures var d := OnAuth(cr, c, plain); Pairless(c.log, d.log) && d.table == c.table
  {
    hide Decode, DecodeAuthDevice, PushRc, Encode, BuildTAuth, CString;
  }

  lemma MuxDrifts(cr: Suite, c: Ctx, m: Pdu)
    requires Legal(m)
    ensures var d := OnMux(cr, c, Encode(m));
      && (!IsOffer(m) ==> Pairless(c.log, d.log) && (Bare(c.table) ==> Bare(d.table))) && (m.AuthOk? ==> d.state == Error)
  {
    OnMuxIs(cr, c, m);
    HandleSays(c.id.cfg, c.state, T.Look(c.table, PduTarget(m)), T.CanAlloc(c.table, c.id.cfg.maxChannels), c.table.next, SinkOf(c), m);
    if Bare(c.table) && !IsOffer(m) { BareReceives(c, m); }
    hide Encode, Legal, OnMux, Bare, T.Change, Framable, Tame, SinkOf;
  }

  /** A record that is no offer pairs nothing; and an AUTH_OK that comes after AUTH is the end. */
  lemma RecordDrifts(cr: Suite, c: Ctx, m: Pdu)
    requires StreamLaw(cr) && c.pull.Some? && Legal(m)
    ensures var d := OnRecord(cr, c, cr.seal(c.pull.value, TAG_MESSAGE, Encode(m)));
      && (!IsOffer(m) ==> Pairless(c.log, d.log) && (Bare(c.table) ==> Bare(d.table)))
      && (m.AuthOk? && c.state != Auth ==> d.state == Error)
  {
    SealedOpens(cr, c, m);
    hide StreamLaw, Encode, Legal;
    var e := c.(pull := Some(Later(c.pull.value, 1)));
    MuxDrifts(cr, e, m);
    AuthDrifts(cr, e, Encode(m));
    hide OnRecord, OnMux, OnAuth, Bare, Pairless;
  }

  predicate HasOk(q: seq<Pdu>) {
    exists i :: 0 <= i < |q| && q[i].AuthOk?
  }

  /** No offer but behind an AUTH_OK. */
  predicate OkFirst(q: seq<Pdu>) {
    forall i :: 0 <= i < |q| && IsOffer(q[i]) ==> exists j :: 0 <= j < i && q[j].AuthOk?
  }

  /**
   * A side has left AUTH before the client was accepted: the server, and then
   * it never will accept; or the client, and then AUTH_OK is the end of it.
   */
  predicate Drifts(a: Ctx, b: Ctx, f: Flows) {
    && b.state != Ready && Bare(a.table) && Pairless([], a.log) && Pairless([], b.log) && NoOffer(f.qba)
    && (a.state == Ready ==> a.auth.complete)
    && (|| (!a.auth.complete && a.state != Auth && NoOffer(f.qab))
        || (b.hs == Done && b.state != Auth && (a.auth.complete ==> HasOk(f.qab)) && OkFirst(f.qab)))
  }

  /** What a step of a server that drifts does. */
  predicate DriftsOn(a: Ctx, d: Ctx, p: seq<Pdu>) {
    && Bare(d.table) && Pairless(a.log, d.log)
    && (a.state != Auth ==> d.auth.complete == a.auth.complete)
    && (d.auth.complete && !a.auth.complete ==> p != [] && p[0].AuthOk?)
  }

  lemma OkFirstMore(q: seq<Pdu>, p: seq<Pdu>)
    requires OkFirst(q) && (HasOk(q) || NoOffer(p))
    ensures OkFirst(q + p)
  {
    forall i | 0 <= i < |q + p| && IsOffer((q + p)[i]) ensures exists j :: 0 <= j < i && (q + p)[j].AuthOk? {
      if i < |q| {
        var j :| 0 <= j < i && q[j].AuthOk?;
        assert (q + p)[j].AuthOk?;
      } else {
        assert (q + p)[i] == p[i - |q|];
        var j :| 0 <= j < |q| && q[j].AuthOk?;
        assert (q + p)[j].AuthOk?;
      }
    }
  }

  lemma HasOkMore(q: seq<Pdu>, p: seq<Pdu>)
    requires HasOk(q) || (p != [] && p[0].AuthOk?)
    ensures HasOk(q + p)
  {
    if HasOk(q) {
      var i :| 0 <= i < |q| && q[i].AuthOk?;
      assert (q + p)[i].AuthOk?;
    } else {
      assert (q + p)[|q|].AuthOk?;
    }
  }

  lemma OkFirstLess(q: seq<Pdu>)
    requires OkFirst(q) && q != [] && !q[0].AuthOk?
    ensures OkFirst(q[1..]) && (HasOk(q) ==> HasOk(q[1..])) && !IsOffer(q[0])
  {
    forall i | 0 <= i < |q[1..]| && IsOffer(q[1..][i]) ensures exists j :: 0 <= j < i && q[1..][j].AuthOk? {
      var j :| 0 <= j < i + 1 && q[j].AuthOk?;
      assert q[1..][j - 1].AuthOk?;
    }
    if HasOk(q) {
      var i :| 0 <= i < |q| && q[i].AuthOk?;
      assert q[1..][i - 1].AuthOk?;
    }
  }

  lemma ServerDrifts(cr: Suite, a: Ctx, d: Ctx, b: Ctx, f: Flows, p: seq<Pdu>, sba: Stream, qba: seq<Pdu>)
    requires Drifts(a, b, f) && Goes(cr, a, d, p) && DriftsOn(a, d, p) && (forall i :: 0 <= i < |qba| ==> qba[i] in f.qba)
    ensures Drifts(d, b, f.(qab := f.qab + p, sba := sba, qba := qba))
  {
    assert Fades(a, d, p) && a.log <= d.log && (a.auth.complete ==> d.auth.complete);
    hide Goes, Bare;
    if b.hs == Done && b.state != Auth && (a.auth.complete ==> HasOk(f.qab)) && OkFirst(f.qab) {
      OkFirstMore(f.qab, p);
      if d.auth.complete { HasOkMore(f.qab, p); }
    }
    hide HasOk, OkFirst;
  }

  lemma ClientDrifts(cr: Suite, a: Ctx, b: Ctx, d: Ctx, f: Flows, p: seq<Pdu>, sab: Stream, qab: seq<Pdu>)
    requires Drifts(a, b, f) && Goes(cr, b, d, p) && b.hs == Done && ClientWord(d, a.auth.complete)
    requires Pairless(b.log, d.log) && (qab == f.qab || (f.qab != [] && qab == f.qab[1..] && !f.qab[0].AuthOk?))
    ensures Drifts(a, d, f.(sab := sab, qab := qab, qba := f.qba + p))
  {
    assert Fades(b, d, p) && b.log <= d.log && d.hs == b.hs;
    hide Goes, Bare;
    if qab != f.qab && b.state != Auth && OkFirst(f.qab) { OkFirstLess(f.qab); }
    hide HasOk, OkFirst, Intact;
  }

  // ------------------------------------------------------------------
  // The pair
  // ------------------------------------------------------------------

  /** One session: matched keys, one transcript, one pair of direction keys, and the server's header sent. */
  predicate Joined(cr: Suite, a: Ctx, b: Ctx) {
    && Suited(cr, a, b) && a.hs == Done && (b.hs == WaitPeerSs || b.hs == Done)
    && Greeted(cr, a, b) && ClientGreeted(cr, a, b)
  }

  /** The PDUs q, sealed from stream position st on behind the frames pre, are what c was given to send and is not yet handled. */
  ghost predicate Carries(cr: Suite, c: Ctx, st: Stream, gone: bytes, pre: bytes, q: seq<Pdu>) {
    Framable(q) && gone + c.out == pre + Sealed(cr, st, q) && c.push == Some(Later(st, |q|))
  }

  /**
   * What is in flight: from the server qab from stream position sab on, from
   * the client qba from sba on; and whether a side left before it could be
   * accepted.
   */
  datatype Flows = Flows(adrift: bool, sab: Stream, qab: seq<Pdu>, sba: Stream, qba: seq<Pdu>)

  /** AUTH_OK is on its way only from a server that accepted, AUTH_DEVICE only as the client signs it. */
  predicate Truthful(cr: Suite, a: Ctx, b: Ctx, f: Flows)
    requires Suited(cr, a, b)
  {
    && (forall i :: 0 <= i < |f.qab| && f.qab[i].AuthOk? ==> a.auth.complete)
    && (forall i :: 0 <= i < |f.qba| && f.qba[i].AuthDevice? ==> f.qba[i] == DevicePdu(cr, a, b))
  }

  /** What comes before the records to the client: the server's header, until it has been taken. */
  function Ahead(a: Ctx, b: Ctx): bytes {
    if b.hs == Done then [] else Frame(a.header)
  }

  /** The client before it has the server's header: still whole, or gone. */
  predicate Waiting(cr: Suite, a: Ctx, b: Ctx, f: Flows) {
    && (b.state == SsHeader || b.state == Closed) && b.auth == NO_AUTH && b.pull.None? && Intact(b.log)
    && f.sab == S2c(cr, a, b) && f.sba == C2s(cr, a, b) && f.qba == []
  }

  /** The pair from the server's header on, in any run. */
  ghost predicate Late(cr: Suite, n: Pair, f: Flows) {
    var a, b := n.a.c, n.b.c;
    && Joined(cr, a, b) && ServerWord(a, b) && Truthful(cr, a, b, f)
    && (if b.hs == Done then ClientWord(b, a.auth.complete) else Waiting(cr, a, b, f))
    && Carries(cr, a, f.sab, n.b.inp + n.ab, Ahead(a, b), f.qab) && Carries(cr, b, f.sba, n.a.inp + n.ba, [], f.qba)
    && (!Stopped(a) ==> a.pull == Some(f.sba)) && (b.hs == Done && !Stopped(b) ==> b.pull == Some(f.sab))
    && (f.adrift ==> Drifts(a, b, f))
  }

  /** What the two are to each other rests on fields a session keeps. */
  lemma SessionFixes(cr: Suite, a: Ctx, a': Ctx, b: Ctx, b': Ctx)
    requires Joined(cr, a, b) && SameSession(a, a') && SameSession(b, b') && a'.hs == a.hs && b'.peerId == b.peerId
    requires b'.hs == b.hs || b'.hs == Done
    ensures Joined(cr, a', b') && DevicePdu(cr, a', b') == DevicePdu(cr, a, b)
    ensures S2c(cr, a', b') == S2c(cr, a, b) && C2s(cr, a', b') == C2s(cr, a, b) && (b'.hs == b.hs ==> Ahead(a', b') == Ahead(a, b))
  {
    hide BuildTHello, BuildTAuth, Frame;
  }

  lemma CarriesMore(cr: Suite, c: Ctx, d: Ctx, st: Stream, gone: bytes, pre: bytes, q: seq<Pdu>, p: seq<Pdu>)
    requires Carries(cr, c, st, gone, pre, q) && Framable(p) && |p| <= 1
    requires if p == [] then NoFrame(c, d) else OneFrame(cr, c, d, p[0])
    ensures Carries(cr, d, st, gone, pre, q + p)
  {
    if p == [] {
      assert q + p == q;
    } else {
      assert p == [p[0]] && Legal(p[0]);
      SealedSnoc(cr, st, q, p[0]);
      OneFrameIsSealed(cr, c, d, p[0]);
      hide Sealed, SealFrame, OneFrame, Legal;
      assert gone + d.out == (gone + c.out) + SealFrame(cr, Later(st, |q|), p[0]);
    }
  }

  /** The server moves on: it says p, and what is on its way to it is now qba from sba on. */
  lemma ServerStays(cr: Suite, n: Pair, n': Pair, f: Flows, p: seq<Pdu>, sba: Stream, qba: seq<Pdu>)
    requires Late(cr, n, f) && n'.b == n.b && n'.ab == n.ab
    requires Goes(cr, n.a.c, n'.a.c, p) && ServerWord(n'.a.c, n.b.c)
    requires p != [] ==> !p[0].AuthOk? || n'.a.c.auth.complete
    requires Carries(cr, n.b.c, sba, n'.a.inp + n'.ba, [], qba) && (forall i :: 0 <= i < |qba| ==> qba[i] in f.qba)
    requires n.b.c.hs == WaitPeerSs ==> sba == f.sba && qba == f.qba
    requires !Stopped(n'.a.c) ==> n'.a.c.pull == Some(sba)
    requires f.adrift ==> DriftsOn(n.a.c, n'.a.c, p)
    ensures Late(cr, n', f.(qab := f.qab + p, sba := sba, qba := qba))
  {
    SessionFixes(cr, n.a.c, n'.a.c, n.b.c, n.b.c);
    CarriesMore(cr, n.a.c, n'.a.c, f.sab, n.b.inp + n.ab, Ahead(n.a.c, n.b.c), f.qab, p);
    JoinedIsSuited(cr, n.a.c, n.b.c);
    JoinedIsSuited(cr, n'.a.c, n.b.c);
    hide Joined, ServerWord, Carries, SameSession, Ahead, S2c, C2s, DevicePdu, OneFrame, NoFrame, Intact, Framable, Suited;
    assert n.a.c.auth.complete ==> n'.a.c.auth.complete;
    if f.adrift { ServerDrifts(cr, n.a.c, n'.a.c, n.b.c, f, p, sba, qba); }
    hide Goes, Drifts;
    ServerTruthful(cr, n.a.c, n'.a.c, n.b.c, f, p, sba, qba);
    hide Truthful;
  }

  lemma ServerTruthful(cr: Suite, a: Ctx, a': Ctx, b: Ctx, f: Flows, p: seq<Pdu>, sba: Stream, qba: seq<Pdu>)
    requires Suited(cr, a, b) && Suited(cr, a', b) && DevicePdu(cr, a', b) == DevicePdu(cr, a, b) && Truthful(cr, a, b, f)
    requires (a.auth.complete ==> a'.auth.complete) && |p| <= 1 && (p != [] ==> !p[0].AuthOk? || a'.auth.complete)
    requires forall i :: 0 <= i < |qba| ==> qba[i] in f.qba
    ensures Truthful(cr, a', b, f.(qab := f.qab + p, sba := sba, qba := qba))
  {
    hide Suited, DevicePdu;
  }

  lemma JoinedIsSuited(cr: Suite, a: Ctx, b: Ctx)
    requires Joined(cr, a, b)
    ensures Suited(cr, a, b) && Greeted(cr, a, b) && a.hs == Done && (b.hs == WaitPeerSs || b.hs == Done) && b.id.role == Client
  {
  }

  /** The client moves on, past its handshake. */
  lemma ClientStays(cr: Suite, n: Pair, n': Pair, f: Flows, p: seq<Pdu>, sab: Stream, qab: seq<Pdu>)
    requires Late(cr, n, f) && n.b.c.hs == Done && n'.a == n.a && n'.ba == n.ba
    requires Goes(cr, n.b.c, n'.b.c, p) && ClientWord(n'.b.c, n.a.c.auth.complete) && n'.b.c.peerId == n.b.c.peerId && Common(p)
    requires Carries(cr, n.a.c, sab, n'.b.inp + n'.ab, [], qab) && (forall i :: 0 <= i < |qab| ==> qab[i] in f.qab)
    requires !Stopped(n'.b.c) ==> n'.b.c.pull == Some(sab)
    requires f.adrift ==> Pairless(n.b.c.log, n'.b.c.log) && (qab == f.qab || (f.qab != [] && qab == f.qab[1..] && !f.qab[0].AuthOk?))
    ensures Late(cr, n', f.(sab := sab, qab := qab, qba := f.qba + p))
  {
    SessionFixes(cr, n.a.c, n.a.c, n.b.c, n'.b.c);
    CarriesMore(cr, n.b.c, n'.b.c, f.sba, n.a.inp + n.ba, [], f.qba, p);
    WordIsTheClients(n.a.c, n.b.c, n'.b.c);
    assert Suited(cr, n.a.c, n.b.c) && Suited(cr, n.a.c, n'.b.c) by { JoinedIsSuited(cr, n.a.c, n.b.c); JoinedIsSuited(cr, n.a.c, n'.b.c); }
    if f.adrift { ClientDrifts(cr, n.a.c, n.b.c, n'.b.c, f, p, sab, qab); }
    hide Drifts, Joined, ServerWord, ClientWord, Carries, SameSession, S2c, C2s, DevicePdu, OneFrame, NoFrame, Intact, Framable, Suited;
  }

  lemma WordIsTheClients(a: Ctx, b: Ctx, b': Ctx)
    requires b.id.clientPk.Some? && ServerWord(a, b) && b'.id == b.id
    ensures ServerWord(a, b')
  {
  }

  /** Bytes that move along a way change nothing. */
  lemma SameWays(cr: Suite, n: Pair, n': Pair, f: Flows)
    requires Late(cr, n, f) && n'.a.c == n.a.c.(out := n'.a.c.out) && n'.b.c == n.b.c.(out := n'.b.c.out)
    requires n'.b.inp + n'.ab + n'.a.c.out == n.b.inp + n.ab + n.a.c.out && n'.a.inp + n'.ba + n'.b.c.out == n.a.inp + n.ba + n.b.c.out
    ensures Late(cr, n', f)
  {
    assert f.adrift ==> Drifts(n'.a.c, n'.b.c, f);
    hide Drifts;
    SessionFixes(cr, n.a.c, n'.a.c, n.b.c, n'.b.c);
    WordIsTheClients(n.a.c, n.b.c, n'.b.c);
    hide Joined, SameSession, S2c, C2s, DevicePdu, Intact, Framable, Sealed, DeviceEvent;
    assert Suited(cr, n.a.c, n.b.c) && Suited(cr, n'.a.c, n'.b.c) by { JoinedIsSuited(cr, n.a.c, n.b.c); JoinedIsSuited(cr, n'.a.c, n'.b.c); }
    hide Suited;
  }

  // ------------------------------------------------------------------
  // Steps of the server
  // ------------------------------------------------------------------

  lemma TailCarries(cr: Suite, c: Ctx, st: Stream, gone: bytes, gone': bytes, q: seq<Pdu>)
    requires Carries(cr, c, st, gone, [], q) && q != [] && gone' + c.out == Sealed(cr, Later(st, 1), q[1..])
    ensures Carries(cr, c, Later(st, 1), gone', [], q[1..]) && (forall i :: 0 <= i < |q[1..]| ==> q[1..][i] in q)
  {
    hide Sealed;
  }

  /** The frame at the head of the way to the server is the client's oldest PDU, sealed at its position. */
  lemma ServerHeadIs(cr: Suite, n: Pair, f: Flows)
    requires StreamLaw(cr) && Late(cr, n, f) && !Stopped(n.a.c) && Parse(n.a.inp, Limit(n.a.c)).Framed?
    ensures var a, b, r := n.a.c, n.b.c, Parse(n.a.inp, Limit(n.a.c));
      && f.qba != [] && a.pull == Some(f.sba) && Legal(f.qba[0]) && Suited(cr, a, b) && Greeted(cr, a, b) && b.hs == Done
      && (f.qba[0].AuthDevice? ==> f.qba[0] == DevicePdu(cr, a, b))
      && OnFrame(cr, a, r.body) == OnRecord(cr, a, cr.seal(f.sba, TAG_MESSAGE, Encode(f.qba[0])))
      && Carries(cr, b, Later(f.sba, 1), n.a.inp[r.consumed..] + n.ba, [], f.qba[1..])
  {
    var a, b, r := n.a.c, n.b.c, Parse(n.a.inp, Limit(n.a.c));
    var rest := n.ba + b.out;
    hide OnRecord, Encode, Joined, Suited, Greeted, DevicePdu, Sealed, Parse, Limit, StreamLaw, ServerWord;
    JoinedIsSuited(cr, a, b);
    assert n.a.inp + rest == (n.a.inp + n.ba) + b.out == [] + Sealed(cr, f.sba, f.qba) == Sealed(cr, f.sba, f.qba);
    HeadIsThere(cr, n.a.inp, rest, f.sba, f.qba, Limit(a));
    HeadFrameIs(cr, n.a.inp, rest, f.sba, f.qba, Limit(a));
    var left := n.a.inp[r.consumed..];
    assert (left + n.ba) + b.out == left + rest;
    TailCarries(cr, b, f.sba, n.a.inp + n.ba, left + n.ba, f.qba);
  }

  /** Handling it is a step of the server. */
  lemma ServerHead(cr: Suite, n: Pair, f: Flows) returns (p: seq<Pdu>)
    requires Ideal(cr) && Late(cr, n, f) && !Stopped(n.a.c) && Parse(n.a.inp, Limit(n.a.c)).Framed?
    ensures OnFrame(cr, n.a.c, Parse(n.a.inp, Limit(n.a.c)).body).auth.complete == n.a.c.auth.complete
    ensures var r := Parse(n.a.inp, Limit(n.a.c)); var d := OnFrame(cr, n.a.c, r.body);
      if d.state == Error then Late(cr, n.(a := n.a.(c := d)), f.(qab := f.qab + p))
      else f.qba != [] && Late(cr, n.(a := Side(d, n.a.inp[r.consumed..])), f.(qab := f.qab + p, sba := Later(f.sba, 1), qba := f.qba[1..]))
  {
    var r := Parse(n.a.inp, Limit(n.a.c));
    var d := OnFrame(cr, n.a.c, r.body);
    IdealStream(cr);
    ServerHeadIs(cr, n, f);
    hide OnFrame, OnRecord, Parse, Limit, Ideal, StreamLaw, Encode, Joined, Suited, Greeted, DevicePdu, Goes, Truthful, Carries;
    p := ServerRecord(cr, n.a.c, n.b.c, f.qba[0]);
    if f.adrift { RecordDrifts(cr, n.a.c, f.qba[0]); }
    hide ServerWord, Bare, Pairless;
    if d.state == Error {
      ServerStays(cr, n, n.(a := n.a.(c := d)), f, p, f.sba, f.qba);
    } else {
      ServerStays(cr, n, n.(a := Side(d, n.a.inp[r.consumed..])), f, p, Later(f.sba, 1), f.qba[1..]);
    }
  }

  lemma FailDrifts(a: Ctx, b: Ctx, f: Flows)
    requires Drifts(a, b, f)
    ensures DriftsOn(a, Fail(a, ErrProtocol), [])
  {
  }

  lemma ServerFails(cr: Suite, n: Pair, f: Flows)
    requires Late(cr, n, f)
    ensures Late(cr, n.(a := n.a.(c := Fail(n.a.c, ErrProtocol))), f.(qab := f.qab + []))
  {
    hide Drifts, DriftsOn, Joined, Suited, Carries, Truthful, Goes;
    FailGoes(cr, n.a.c, ErrProtocol);
    if f.adrift { FailDrifts(n.a.c, n.b.c, f); }
    JoinedIsSuited(cr, n.a.c, n.b.c);
    ServerWordStays(cr, n.a.c, Fail(n.a.c, ErrProtocol), n.b.c, []);
    hide ServerWord;
    ServerStays(cr, n, n.(a := n.a.(c := Fail(n.a.c, ErrProtocol))), f, [], f.sba, f.qba);
  }

  lemma {:induction false} ServerProcess(cr: Suite, n: Pair, f: Flows) returns (f': Flows)
    requires Ideal(cr) && Late(cr, n, f)
    ensures Late(cr, n.(a := Process(cr, n.a)), f') && Process(cr, n.a).c.auth.complete == n.a.c.auth.complete
    ensures f'.adrift == f.adrift
    decreases |n.a.inp|
  {
    hide OnFrame, Parse, Limit, Late, Ideal;
    f' := f;
    var r := Parse(n.a.inp, Limit(n.a.c));
    if !Stopped(n.a.c) && !r.NeedMore? {
      if r.BadFrame? {
        ServerFails(cr, n, f);
        f' := f.(qab := f.qab + []);
      } else {
        var p := ServerHead(cr, n, f);
        var d := OnFrame(cr, n.a.c, r.body);
        if d.state == Error {
          f' := f.(qab := f.qab + p);
        } else {
          f' := ServerProcess(cr, n.(a := Side(d, n.a.inp[r.consumed..])), f.(qab := f.qab + p, sba := Later(f.sba, 1), qba := f.qba[1..]));
        }
      }
    }
  }

  lemma ServerActs(cr: Suite, n: Pair, f: Flows, w: Doing) returns (f': Flows)
    requires Ideal(cr) && Late(cr, n, f)
    ensures Late(cr, ActA(cr, n, w), f')
    ensures f'.adrift == f.adrift
    ensures ActA(cr, n, w).a.c.auth.complete && !n.a.c.auth.complete ==> w.Decides? && w.accept
  {
    IdealStream(cr);
    hide ActA, Late, Ideal, StreamLaw;
    match w {
      case Calls(call) => f' := ServerCallStep(cr, n, f, call);
      case Decides(accept, claims) => f' := ServerDecisionStep(cr, n, f, accept, claims);
      case Gives(max) => f' := f; GivesIs(cr, n, max); GivesBack(cr, n, max); SameWays(cr, n, ActA(cr, n, w), f);
      case Takes(k) => f' := ServerTakeStep(cr, n, f, k);
    }
  }

  lemma ServerTakeStep(cr: Suite, n: Pair, f: Flows, k: nat) returns (f': Flows)
    requires Ideal(cr) && Late(cr, n, f)
    ensures Late(cr, ActA(cr, n, Takes(k)), f') && ActA(cr, n, Takes(k)).a.c.auth.complete == n.a.c.auth.complete
    ensures f'.adrift == f.adrift
  {
    hide ActA, Late, Process, IdsUsed, Ideal;
    f' := f;
    var t := TakeIs(cr, n, k);
    if t > 0 {
      var m := n.(a := n.a.(inp := n.a.inp + n.ba[..t]), ba := n.ba[t..]);
      assert m.a.inp + m.ba + m.b.c.out == n.a.inp + n.ba + n.b.c.out by { assert n.ba == n.ba[..t] + n.ba[t..]; }
      SameWays(cr, n, m, f);
      f' := ServerProcess(cr, m, f);
      SameLate(cr, m.(a := Process(cr, m.a)), ActA(cr, n, Takes(k)), f');
    }
  }

  lemma GivesBack(cr: Suite, n: Pair, max: nat)
    ensures ActA(cr, n, Gives(max)).a.inp == n.a.inp && ActA(cr, n, Gives(max)).ba == n.ba
  {
  }

  /** Counts and records are beside the point. */
  lemma SameLate(cr: Suite, n: Pair, n': Pair, f: Flows)
    requires Late(cr, n, f) && n'.a == n.a && n'.b == n.b && n'.ab == n.ab && n'.ba == n.ba
    ensures Late(cr, n', f)
  {
  }

  lemma ServerCallStep(cr: Suite, n: Pair, f: Flows, call: Call) returns (f': Flows)
    requires StreamLaw(cr) && Late(cr, n, f)
    ensures Late(cr, ActA(cr, n, Calls(call)), f') && ActA(cr, n, Calls(call)).a.c.auth.complete == n.a.c.auth.complete
    ensures f'.adrift == f.adrift
  {
    JoinedIsSuited(cr, n.a.c, n.b.c);
    hide HostCall, Joined, Suited, Carries, Truthful, Goes, StreamLaw, IdsBetween, Noted, ServerWord;
    var p := ServerCalls(cr, n.a.c, n.b.c, call);
    f' := f.(qab := f.qab + p);
    if f.adrift { CallDrifts(cr, n.a.c, call); }
    hide Bare, Pairless;
    StoppedStays(cr, n.a.c, HostCall(cr, n.a.c, call).0, p);
    ServerStays(cr, n, ActA(cr, n, Calls(call)), f, p, f.sba, f.qba);
  }

  lemma StoppedStays(cr: Suite, c: Ctx, d: Ctx, p: seq<Pdu>)
    requires Goes(cr, c, d, p)
    ensures Stopped(c) ==> Stopped(d)
  {
  }

  lemma ServerDecisionStep(cr: Suite, n: Pair, f: Flows, accept: bool, claims: bytes) returns (f': Flows)
    requires StreamLaw(cr) && Late(cr, n, f)
    ensures Late(cr, ActA(cr, n, Decides(accept, claims)), f')
    ensures f'.adrift == f.adrift
    ensures !accept ==> ActA(cr, n, Decides(accept, claims)).a.c.auth.complete == n.a.c.auth.complete
  {
    JoinedIsSuited(cr, n.a.c, n.b.c);
    hide Decide, Joined, Suited, Carries, Truthful, Goes, StreamLaw, ServerWord;
    var p := ServerDecision(cr, n.a.c, n.b.c, accept, claims);
    f' := f.(qab := f.qab + p);
    if f.adrift { DecisionDrifts(cr, n.a.c, accept, claims); }
    hide Bare, Pairless;
    StoppedStays(cr, n.a.c, Decide(cr, n.a.c, accept, claims).0, p);
    ServerStays(cr, n, ActA(cr, n, Decides(accept, claims)), f, p, f.sba, f.qba);
  }

  // ------------------------------------------------------------------
  // Steps of the client
  // ------------------------------------------------------------------

  /** The same of the way to the client, once it has the header. */
  lemma ClientHeadIs(cr: Suite, n: Pair, f: Flows)
    requires StreamLaw(cr) && Late(cr, n, f) && n.b.c.hs == Done && !Stopped(n.b.c) && Parse(n.b.inp, Limit(n.b.c)).Framed?
    ensures var a, b, r := n.a.c, n.b.c, Parse(n.b.inp, Limit(n.b.c));
      && f.qab != [] && b.pull == Some(f.sab) && Legal(f.qab[0]) && b.id.role == Client && (f.qab[0].AuthOk? ==> a.auth.complete)
      && OnFrame(cr, b, r.body) == OnRecord(cr, b, cr.seal(f.sab, TAG_MESSAGE, Encode(f.qab[0])))
      && Carries(cr, a, Later(f.sab, 1), n.b.inp[r.consumed..] + n.ab, [], f.qab[1..])
  {
    var a, b, r := n.a.c, n.b.c, Parse(n.b.inp, Limit(n.b.c));
    var rest := n.ab + a.out;
    hide OnRecord, Encode, Joined, Suited, Greeted, DevicePdu, Sealed, Parse, Limit, StreamLaw, ServerWord;
    JoinedIsSuited(cr, a, b);
    assert n.b.inp + rest == (n.b.inp + n.ab) + a.out == [] + Sealed(cr, f.sab, f.qab) == Sealed(cr, f.sab, f.qab);
    HeadIsThere(cr, n.b.inp, rest, f.sab, f.qab, Limit(b));
    HeadFrameIs(cr, n.b.inp, rest, f.sab, f.qab, Limit(b));
    var left := n.b.inp[r.consumed..];
    assert (left + n.ab) + a.out == left + rest;
    TailCarries(cr, a, f.sab, n.b.inp + n.ab, left + n.ab, f.qab);
  }

  /** Adrift, the oldest PDU to the client is no offer; and an AUTH_OK finds it past AUTH. */
  lemma DriftingHead(a: Ctx, b: Ctx, f: Flows)
    requires Drifts(a, b, f) && b.hs == Done && f.qab != []
    ensures !IsOffer(f.qab[0]) && (f.qab[0].AuthOk? && a.auth.complete ==> b.state != Auth)
  {
    hide Bare, Pairless;
  }

  lemma ClientHead(cr: Suite, n: Pair, f: Flows) returns (p: seq<Pdu>)
    requires StreamLaw(cr) && Late(cr, n, f) && n.b.c.hs == Done && !Stopped(n.b.c) && Parse(n.b.inp, Limit(n.b.c)).Framed?
    ensures var r := Parse(n.b.inp, Limit(n.b.c)); var d := OnFrame(cr, n.b.c, r.body);
      if d.state == Error then Late(cr, n.(b := n.b.(c := d)), f.(qba := f.qba + p))
      else f.qab != [] && Late(cr, n.(b := Side(d, n.b.inp[r.consumed..])), f.(sab := Later(f.sab, 1), qab := f.qab[1..], qba := f.qba + p))
  {
    var r := Parse(n.b.inp, Limit(n.b.c));
    var d := OnFrame(cr, n.b.c, r.body);
    ClientHeadIs(cr, n, f);
    hide OnFrame, OnRecord, Parse, Limit, StreamLaw, Encode, Joined, Suited, Goes, Truthful, Carries, ServerWord;
    p := ClientRecord(cr, n.b.c, n.a.c.auth.complete, f.qab[0]);
    if f.adrift { DriftingHead(n.a.c, n.b.c, f); RecordDrifts(cr, n.b.c, f.qab[0]); }
    hide ClientWord, Common, Pairless, Drifts;
    if d.state == Error {
      ClientStays(cr, n, n.(b := n.b.(c := d)), f, p, f.sab, f.qab);
    } else {
      ClientStays(cr, n, n.(b := Side(d, n.b.inp[r.consumed..])), f, p, Later(f.sab, 1), f.qab[1..]);
    }
  }

  lemma ClientFails(cr: Suite, n: Pair, f: Flows)
    requires Late(cr, n, f) && n.b.c.hs == Done
    ensures Late(cr, n.(b := n.b.(c := Fail(n.b.c, ErrProtocol))), f.(qba := f.qba + []))
  {
    FailGoes(cr, n.b.c, ErrProtocol);
    assert f.adrift ==> Pairless(n.b.c.log, Fail(n.b.c, ErrProtocol).log);
    GoesTells(cr, n.b.c, Fail(n.b.c, ErrProtocol), []);
    hide Drifts, Pairless, Joined, Carries, Truthful, Goes, ServerWord, Intact;
    ClientStays(cr, n, n.(b := n.b.(c := Fail(n.b.c, ErrProtocol))), f, [], f.sab, f.qab);
  }

  /** What waits for a client that has not had the header: the header, and the records after it. */
  lemma HeaderHeadIs(cr: Suite, n: Pair, f: Flows)
    requires Late(cr, n, f) && n.b.c.hs == WaitPeerSs && !Stopped(n.b.c) && !Parse(n.b.inp, Limit(n.b.c)).NeedMore?
    ensures var a, b, r := n.a.c, n.b.c, Parse(n.b.inp, Limit(n.b.c));
      && r.Framed? && OnFrame(cr, b, r.body) == PeerSsHeader(cr, b, a.header)
      && Carries(cr, a, f.sab, n.b.inp[r.consumed..] + n.ab, [], f.qab)
      && b.out == [] && n.a.inp + n.ba == [] && Suited(cr, a, b) && ClientAt(cr, a, b, 3)
  {
    var a, b, r := n.a.c, n.b.c, Parse(n.b.inp, Limit(n.b.c));
    var rest := n.ab + a.out;
    assert ClientAt(cr, a, b, 3) by { hide BuildTHello, Sealed, Parse, DeviceEvent, Intact; }
    hide Joined, Suited, Sealed, Parse, ServerWord, Frame, S2c, C2s, Intact, PeerSsHeader, ClientAt;
    JoinedIsSuited(cr, a, b);
    assert n.b.inp + rest == (n.b.inp + n.ab) + a.out;
    HeadFrame(n.b.inp, rest, a.header, Sealed(cr, f.sab, f.qab), Limit(b));
    var left := n.b.inp[r.consumed..];
    assert (left + n.ab) + a.out == left + rest;
    assert Sealed(cr, f.sba, []) == [] by { NothingSealed(cr, f.sba); }
    assert (n.a.inp + n.ba) + b.out == [];
  }

  lemma NothingSealed(cr: Suite, st: Stream)
    ensures Sealed(cr, st, []) == []
  {
  }

  /** The client takes the header and sends its AUTH_DEVICE. */
  lemma HeaderHead(cr: Suite, n: Pair, f: Flows)
    requires Ideal(cr) && Late(cr, n, f) && n.b.c.hs == WaitPeerSs && !Stopped(n.b.c) && !Parse(n.b.inp, Limit(n.b.c)).NeedMore?
    ensures var r := Parse(n.b.inp, Limit(n.b.c));
      && r.Framed? && Suited(cr, n.a.c, n.b.c)
      && var d := OnFrame(cr, n.b.c, r.body);
         d.state != Error && Late(cr, n.(b := Side(d, n.b.inp[r.consumed..])), f.(qba := [DevicePdu(cr, n.a.c, n.b.c)]))
  {
    var a, b, r := n.a.c, n.b.c, Parse(n.b.inp, Limit(n.b.c));
    HeaderHeadIs(cr, n, f);
    var d := OnFrame(cr, b, r.body);
    hide OnFrame, Parse, Limit, Ideal;
    ClientTakesHeader(cr, a, b);
    HeaderKeepsSession(cr, b, a.header);
    HeaderKeepsPeer(cr, b, a.header);
    HeaderLate(cr, n, n.(b := Side(d, n.b.inp[r.consumed..])), f);
  }

  lemma HeaderLate(cr: Suite, n: Pair, n': Pair, f: Flows)
    requires Late(cr, n, f) && n.b.c.hs == WaitPeerSs && n'.a == n.a && n'.ba == n.ba && n.a.inp + n.ba == []
    requires Suited(cr, n.a.c, n.b.c) && Suited(cr, n.a.c, n'.b.c)
    requires SameSession(n.b.c, n'.b.c) && n'.b.c.peerId == n.b.c.peerId && ClientAt(cr, n.a.c, n'.b.c, 4)
    requires n'.b.c.log == n.b.c.log + [KxComplete]
    requires n'.b.c.out == SealFrame(cr, C2s(cr, n.a.c, n'.b.c), DevicePdu(cr, n.a.c, n'.b.c))
    requires Carries(cr, n.a.c, f.sab, n'.b.inp + n'.ab, [], f.qab)
    ensures Late(cr, n', f.(qba := [DevicePdu(cr, n.a.c, n.b.c)]))
  {
    var a, b, d, p := n.a.c, n.b.c, n'.b.c, DevicePdu(cr, n.a.c, n.b.c);
    assert d.hs == Done && d.state == Auth && !d.auth.complete
        && d.push == Some(Later(C2s(cr, a, d), 1)) && d.pull == Some(S2c(cr, a, d)) by {
      hide Suited, SealFrame, DevicePdu;
    }
    hide SealFrame, ClientAt, Suited, Intact, DeviceEvent, Sealed;
    SessionFixes(cr, a, a, b, d);
    WordIsTheClients(a, b, d);
    IntactMore(b.log, [KxComplete]);
    hide Joined, SameSession, DevicePdu, C2s, S2c, ServerWord, Carries;
    assert Intact([KxComplete]) by { KxIsIntact(); }
    OneSealed(cr, f.sba, p);
    DeviceCarries(cr, d, f.sba, n.a.inp + n.ba, p);
  }

  lemma KxIsIntact()
    ensures Intact([KxComplete])
  {
  }

  lemma OneSealed(cr: Suite, st: Stream, p: Pdu)
    requires Legal(p)
    ensures Sealed(cr, st, [p]) == SealFrame(cr, st, p)
  {
    hide SealFrame;
    assert Sealed(cr, st, [p]) == SealFrame(cr, st, p) + Sealed(cr, Later(st, 1), []);
  }

  lemma DeviceCarries(cr: Suite, d: Ctx, st: Stream, gone: bytes, p: Pdu)
    requires Legal(p) && p.AuthDevice? && gone == [] && d.out == SealFrame(cr, st, p) && d.push == Some(Later(st, 1))
    ensures Carries(cr, d, st, gone, [], [p])
  {
    OneSealed(cr, st, p);
    hide Sealed, SealFrame;
    assert [] + d.out == d.out == [] + Sealed(cr, st, [p]);
  }

  lemma {:induction false} ClientProcess(cr: Suite, n: Pair, f: Flows) returns (f': Flows)
    requires Ideal(cr) && Late(cr, n, f)
    ensures Late(cr, n.(b := Process(cr, n.b)), f')
    ensures f'.adrift == f.adrift
    decreases |n.b.inp|
  {
    assert n.b.c.hs == WaitPeerSs || n.b.c.hs == Done by { JoinedIsSuited(cr, n.a.c, n.b.c); }
    hide OnFrame, Parse, Limit, Late, Ideal, Suited, DevicePdu;
    IdealStream(cr);
    f' := f;
    var r := Parse(n.b.inp, Limit(n.b.c));
    if !Stopped(n.b.c) && !r.NeedMore? {
      if n.b.c.hs == WaitPeerSs {
        HeaderHead(cr, n, f);
        var d := OnFrame(cr, n.b.c, r.body);
        f' := ClientProcess(cr, n.(b := Side(d, n.b.inp[r.consumed..])), f.(qba := [DevicePdu(cr, n.a.c, n.b.c)]));
      } else if r.BadFrame? {
        ClientFails(cr, n, f);
        f' := f.(qba := f.qba + []);
      } else {
        var p := ClientHead(cr, n, f);
        var d := OnFrame(cr, n.b.c, r.body);
        if d.state == Error {
          f' := f.(qba := f.qba + p);
        } else {
          f' := ClientProcess(cr, n.(b := Side(d, n.b.inp[r.consumed..])), f.(sab := Later(f.sab, 1), qab := f.qab[1..], qba := f.qba + p));
        }
      }
    }
  }

  lemma ClientTakeStep(cr: Suite, n: Pair, f: Flows, k: nat) returns (f': Flows)
    requires Ideal(cr) && Late(cr, n, f)
    ensures Late(cr, Flip(ActA(cr, Flip(n), Takes(k))), f')
    ensures f'.adrift == f.adrift
  {
    hide ActA, Late, Process, IdsUsed, Ideal;
    f' := f;
    var t := TakeIs(cr, Flip(n), k);
    assert Flip(Flip(n)) == n;
    if t > 0 {
      var m := n.(b := n.b.(inp := n.b.inp + n.ab[..t]), ab := n.ab[t..]);
      assert m.b.inp + m.ab + m.a.c.out == n.b.inp + n.ab + n.a.c.out by { assert n.ab == n.ab[..t] + n.ab[t..]; }
      SameWays(cr, n, m, f);
      f' := ClientProcess(cr, m, f);
      SameLate(cr, m.(b := Process(cr, m.b)), Flip(ActA(cr, Flip(n), Takes(k))), f');
    }
  }

  /** A client that still waits for the header can only leave, in silence. */
  lemma WaitingCall(cr: Suite, n: Pair, f: Flows, call: Call)
    requires Late(cr, n, f) && n.b.c.hs == WaitPeerSs
    ensures Late(cr, Flip(ActA(cr, Flip(n), Calls(call))), f)
  {
    var d := HostCall(cr, n.b.c, call).0;
    if call.CallDisconnect? { LeavesInSilence(cr, n.b.c, call); } else { EarlyCallsRefused(cr, n.b.c, call); }
    hide HostCall, IdsBetween, Noted, Late;
    if call.CallDisconnect? {
      ClosedLate(cr, n, f);
      SameLate(cr, n.(b := n.b.(c := d)), Flip(ActA(cr, Flip(n), Calls(call))), f);
    } else {
      SameLate(cr, n, Flip(ActA(cr, Flip(n), Calls(call))), f);
    }
  }

  lemma ClosedLate(cr: Suite, n: Pair, f: Flows)
    requires Late(cr, n, f) && n.b.c.hs == WaitPeerSs
    ensures Late(cr, n.(b := n.b.(c := n.b.c.(state := Closed))), f)
  {
    var d := n.b.c.(state := Closed);
    SessionFixes(cr, n.a.c, n.a.c, n.b.c, d);
    WordIsTheClients(n.a.c, n.b.c, d);
    assert Suited(cr, n.a.c, n.b.c) && Suited(cr, n.a.c, d) by { JoinedIsSuited(cr, n.a.c, n.b.c); JoinedIsSuited(cr, n.a.c, d); }
    hide Joined, SameSession, S2c, C2s, DevicePdu, Intact, Framable, Sealed, DeviceEvent, Suited, ServerWord;
  }

  lemma ClientCallStep(cr: Suite, n: Pair, f: Flows, call: Call) returns (f': Flows)
    requires StreamLaw(cr) && Late(cr, n, f)
    ensures Late(cr, Flip(ActA(cr, Flip(n), Calls(call))), f')
    ensures f'.adrift == f.adrift
  {
    f' := f;
    JoinedIsSuited(cr, n.a.c, n.b.c);
    if n.b.c.hs == WaitPeerSs {
      WaitingCall(cr, n, f, call);
    } else {
      hide HostCall, Joined, Suited, Carries, Truthful, Goes, StreamLaw, IdsBetween, Noted, ServerWord, ClientWord, Common;
      var p := ClientCalls(cr, n.b.c, n.a.c.auth.complete, call);
      f' := f.(qba := f.qba + p);
      if f.adrift { CallDrifts(cr, n.b.c, call); }
      hide Bare, Pairless;
      StoppedStays(cr, n.b.c, HostCall(cr, n.b.c, call).0, p);
      ClientStays(cr, n, Flip(ActA(cr, Flip(n), Calls(call))), f, p, f.sab, f.qab);
    }
  }

  lemma ClientDecides(cr: Suite, n: Pair, accept: bool, claims: bytes)
    requires n.b.c.id.role == Client
    ensures Flip(ActA(cr, Flip(n), Decides(accept, claims))) == n
  {
    assert Flip(Flip(n)) == n;
    hide SsSend;
  }

  lemma ClientActs(cr: Suite, n: Pair, f: Flows, w: Doing) returns (f': Flows)
    requires Ideal(cr) && Late(cr, n, f)
    ensures Late(cr, Flip(ActA(cr, Flip(n), w)), f')
    ensures f'.adrift == f.adrift
  {
    IdealStream(cr);
    JoinedIsSuited(cr, n.a.c, n.b.c);
    hide ActA, Late, Ideal, StreamLaw, Suited;
    f' := f;
    match w {
      case Calls(call) => f' := ClientCallStep(cr, n, f, call);
      case Decides(accept, claims) => ClientDecides(cr, n, accept, claims);
      case Gives(max) =>
        GivesIs(cr, Flip(n), max);
        GivesBack(cr, Flip(n), max);
        SameWays(cr, n, Flip(ActA(cr, Flip(n), w)), f);
      case Takes(k) => f' := ClientTakeStep(cr, n, f, k);
    }
  }

  // ------------------------------------------------------------------
  // Every run
  // ------------------------------------------------------------------

  lemma ThreeIsLate(cr: Suite, n: Pair, claims: bytes)
    requires AtPhase(cr, n, 3, claims)
    ensures Late(cr, n, Flows(false, S2c(cr, n.a.c, n.b.c), [], C2s(cr, n.a.c, n.b.c), []))
  {
    NothingSealed(cr, S2c(cr, n.a.c, n.b.c));
    NothingSealed(cr, C2s(cr, n.a.c, n.b.c));
    hide Settled, Keys, BuildTHello, DeviceEvent, Sealed, Frame, Transcripted, DevicePdu;
  }

  /** One transcript and one pair of direction keys. */
  predicate OneSecret(a: Ctx, b: Ctx) {
    a.tHello.Some? && a.tHello == b.tHello && a.keyC2s == b.keyC2s && a.keyS2c == b.keyS2c
  }

  /**
   * The server holds the client's device key, has verified it over its own
   * transcript with the client's user and device names, and told its host of
   * that device and no other.
   */
  predicate Vouched(cr: Suite, a: Ctx, b: Ctx) {
    && b.id.clientPk.Some? && b.id.clientSk.Some? && a.serverPk.Some? && a.tHello.Some?
    && var p := DevicePdu(cr, a, b);
       && cr.verify(p.sig, BuildTAuth(a.tHello.value, p.pk, p.user, p.device), p.pk)
       && p.user == b.id.user[..Min(|b.id.user|, USER_MAX)] && p.device == b.id.device[..Min(|b.id.device|, DEVICE_ID_MAX)]
       && a.peerId == b.id.clientPk == Some(p.pk) && AuthDeviceEvent(p.pk, CString(p.user), CString(p.device)) in a.log
       && OnlyDevice(b, a.log)
  }

  predicate Agreeing(cr: Suite, a: Ctx, b: Ctx) {
    && (a.hs != WaitPeerHello && b.hs != WaitPeerHello ==> OneSecret(a, b))
    && (Claimed(a) ==> Vouched(cr, a, b))
    && (b.state == Ready || b.auth.complete ==> a.auth.complete && a.auth.decided && OneSecret(a, b) && Vouched(cr, a, b))
    && Intact(a.log) && Intact(b.log)
  }

  lemma LateAgrees(cr: Suite, n: Pair, f: Flows)
    requires Ideal(cr) && Late(cr, n, f)
    ensures Agreeing(cr, n.a.c, n.b.c)
  {
    var a, b := n.a.c, n.b.c;
    JoinedIsSuited(cr, a, b);
    DeviceVerifies(cr, a, b);
    assert OneSecret(a, b) && a.tHello == Some(Transcripted(a, b)) by { hide Transcripted, Keys; }
    hide Ideal, Suited, Joined, Greeted, Carries, Truthful, Transcripted, BuildTAuth, Intact, OneSecret, CString;
  }

  lemma EarlyAgrees(cr: Suite, n: Pair, k: nat, claims: bytes)
    requires AtPhase(cr, n, k, claims) && k <= 2
    ensures Agreeing(cr, n.a.c, n.b.c) && !n.a.c.auth.complete
  {
    hide Settled, Keys, Transcripted, DevicePdu, Frame, ToServer, ToClient, Vouched;
  }

  /** The server's host has accepted. */
  predicate HostAccepted(moves: seq<Move>) {
    exists i :: 0 <= i < |moves| && Accepting(moves[i])
  }

  predicate Accepting(m: Move) {
    m.MoveA? && m.w.Decides? && m.w.accept
  }

  lemma {:induction false} LateRun(cr: Suite, n: Pair, f: Flows, moves: seq<Move>) returns (f': Flows)
    requires Ideal(cr) && Late(cr, n, f)
    ensures Late(cr, Run(cr, n, moves), f')
    ensures Run(cr, n, moves).a.c.auth.complete && !n.a.c.auth.complete ==> HostAccepted(moves)
    decreases |moves|
  {
    f' := f;
    hide ActA, Late, Ideal;
    if moves != [] {
      match moves[0] {
        case MoveA(w) => f' := ServerActs(cr, n, f, w);
        case MoveB(w) => f' := ClientActs(cr, n, f, w); OthersStay(cr, n, w);
      }
      f' := LateRun(cr, Step(cr, n, moves[0]), f', moves[1..]);
      AcceptedLater(moves);
    }
  }

  lemma OthersStay(cr: Suite, n: Pair, w: Doing)
    ensures Flip(ActA(cr, Flip(n), w)).a == n.a
  {
    hide HostCall, Decide, Feed, Output;
  }

  /** From any phase before the server's header, in every run, whatever the hosts do. */
  lemma {:induction false} RunAgrees(cr: Suite, n: Pair, k: nat, claims: bytes, moves: seq<Move>)
    requires Ideal(cr) && AtPhase(cr, n, k, claims) && k <= 2
    ensures var d := Run(cr, n, moves); Agreeing(cr, d.a.c, d.b.c) && (d.a.c.auth.complete ==> HostAccepted(moves))
    decreases |moves|
  {
    hide Step, AtPhase, Late, Agreeing, Ideal, HostAccepted;
    EarlyAgrees(cr, n, k, claims);
    if moves != [] {
      var n' := Step(cr, n, moves[0]);
      var k', claims' := PhaseStep(cr, n, k, claims, moves[0]);
      if k' <= 2 {
        RunAgrees(cr, n', k', claims', moves[1..]);
      } else {
        ThreeIsLate(cr, n', claims');
        ThreeIsUndecided(cr, n', claims');
        var f := LateRun(cr, n', Flows(false, S2c(cr, n'.a.c, n'.b.c), [], C2s(cr, n'.a.c, n'.b.c), []), moves[1..]);
        LateAgrees(cr, Run(cr, n', moves[1..]), f);
      }
      AcceptedLater(moves);
    }
  }

  lemma AcceptedLater(moves: seq<Move>)
    requires moves != []
    ensures HostAccepted(moves[1..]) ==> HostAccepted(moves)
  {
    if HostAccepted(moves[1..]) {
      var i :| 0 <= i < |moves[1..]| && Accepting(moves[1..][i]);
      assert Accepting(moves[i + 1]);
    }
  }

  lemma ThreeIsUndecided(cr: Suite, n: Pair, claims: bytes)
    requires AtPhase(cr, n, 3, claims)
    ensures !n.a.c.auth.complete
  {
    hide Settled, Keys, Transcripted, DevicePdu, Frame;
  }

  // ------------------------------------------------------------------
  // Runs in which the client is never accepted
  // ------------------------------------------------------------------

  /** No channel was ever paired, and no chunk accepted or delivered. */
  predicate Unpaired(n: Pair) {
    n.ra.sent == [] && n.rb.sent == [] && Pairless([], n.a.c.log) && Pairless([], n.b.c.log)
  }

  lemma DriftingIsSilent(cr: Suite, n: Pair, f: Flows)
    requires Late(cr, n, f) && f.adrift
    ensures Drifts(n.a.c, n.b.c, f)
  {
  }

  /** A side that has no open channel, or is not READY, has no chunk accepted. */
  lemma NothingSent(cr: Suite, n: Pair, w: Doing)
    requires Bare(n.a.c.table) || n.a.c.state != Ready
    ensures ActA(cr, n, w).ra.sent == n.ra.sent && ActA(cr, n, w).rb == n.rb
  {
    match w {
      case Calls(call) =>
        CallReturns(cr, n.a.c, call);
        if call.CallSend? { SendIsRefused(n.a.c, call); }
        hide HostCall, CallOutcome, Bare, IdsBetween;
      case Decides(accept, claims) => hide Decide;
      case Gives(max) =>
      case Takes(k) => hide Feed, IdsUsed;
    }
  }

  lemma SendIsRefused(c: Ctx, call: Call)
    requires call.CallSend? && (Bare(c.table) || c.state != Ready)
    ensures CallOutcome(c, call).rc != Ok
  {
    if Bare(c.table) { BareCalls(c, call); }
    hide Bare, PushRc;
  }

  predicate NothingYet(n: Pair) {
    n.ra.sent == [] && n.rb.sent == []
  }

  lemma DriftStep(cr: Suite, n: Pair, f: Flows, move: Move) returns (f': Flows)
    requires Ideal(cr) && Late(cr, n, f) && f.adrift && NothingYet(n)
    ensures Late(cr, Step(cr, n, move), f') && f'.adrift && NothingYet(Step(cr, n, move))
  {
    DriftingIsSilent(cr, n, f);
    hide ActA, Late, Ideal, Bare, Pairless, HasOk, OkFirst;
    match move {
      case MoveA(w) => f' := ServerActs(cr, n, f, w); NothingSent(cr, n, w);
      case MoveB(w) => f' := ClientActs(cr, n, f, w); NothingSent(cr, Flip(n), w);
    }
  }

  lemma {:induction false} DriftRun(cr: Suite, n: Pair, f: Flows, moves: seq<Move>)
    requires Ideal(cr) && Late(cr, n, f) && f.adrift && NothingYet(n)
    ensures Unpaired(Run(cr, n, moves))
    decreases |moves|
  {
    hide Step, Late, Ideal, NothingYet;
    if moves == [] {
      DriftingIsSilent(cr, n, f);
      assert NothingYet(n) ==> n.ra.sent == [] && n.rb.sent == [] by { Recall(n); }
    } else {
      var f' := DriftStep(cr, n, f, moves[0]);
      DriftRun(cr, Step(cr, n, moves[0]), f', moves[1..]);
    }
  }

  lemma Recall(n: Pair)
    ensures NothingYet(n) <==> n.ra.sent == [] && n.rb.sent == []
  {
  }

  // ------------------------------------------------------------------
  // Leaving before acceptance
  // ------------------------------------------------------------------

  /** The PDUs in flight in phases 3 to 5. */
  function EarlyFlows(cr: Suite, n: Pair, k: nat): Flows
    requires Suited(cr, n.a.c, n.b.c)
  {
    Flows(false, S2c(cr, n.a.c, n.b.c), [], Later(C2s(cr, n.a.c, n.b.c), if k <= 4 then 0 else 1),
          if k == 4 then [DevicePdu(cr, n.a.c, n.b.c)] else [])
  }

  lemma EarlyIsLate(cr: Suite, n: Pair, k: nat, claims: bytes)
    requires AtPhase(cr, n, k, claims) && 3 <= k <= 5
    ensures Suited(cr, n.a.c, n.b.c) && Late(cr, n, EarlyFlows(cr, n, k))
  {
    if k == 3 {
      ThreeIsLate(cr, n, claims);
      hide *;
      EarlyThree(cr, n, claims);
    } else {
      NothingSealed(cr, S2c(cr, n.a.c, n.b.c));
      NothingSealed(cr, Later(C2s(cr, n.a.c, n.b.c), 1));
      OneSealed(cr, C2s(cr, n.a.c, n.b.c), DevicePdu(cr, n.a.c, n.b.c));
      hide Settled, Keys, BuildTHello, DeviceEvent, Sealed, SealFrame, Frame, Transcripted, DevicePdu, Drifts;
    }
  }

  lemma EarlyThree(cr: Suite, n: Pair, claims: bytes)
    requires AtPhase(cr, n, 3, claims)
    ensures Suited(cr, n.a.c, n.b.c)
    ensures EarlyFlows(cr, n, 3) == Flows(false, S2c(cr, n.a.c, n.b.c), [], C2s(cr, n.a.c, n.b.c), [])
  {
    hide Settled, Keys, Transcripted, DevicePdu, Frame, DeviceEvent;
  }

  /** What phases 3 to 5 say of channels and standing. */
  lemma EarlyIsBare(cr: Suite, n: Pair, k: nat, claims: bytes)
    requires AtPhase(cr, n, k, claims) && 3 <= k <= 5
    ensures n.a.c.state == Auth && !n.a.c.auth.complete && n.b.c.state != Ready && (n.b.c.state == Auth <==> k >= 4)
    ensures k >= 4 ==> n.b.c.hs == Done
    ensures Bare(n.a.c.table) && Pairless([], n.a.c.log) && Pairless([], n.b.c.log)
    ensures n.ra.sent == [] && n.rb.sent == [] && Suited(cr, n.a.c, n.b.c) && NoOffer(EarlyFlows(cr, n, k).qba)
  {
    assert Bare(n.a.c.table) by { T.EmptyIsBlank(); }
    hide Settled, Keys, Transcripted, Frame, DeviceEvent, Bare;
  }

  lemma PairlessOn(log: seq<Event>, log': seq<Event>)
    requires Pairless([], log) && Pairless(log, log') && log <= log'
    ensures Pairless([], log')
  {
  }

  lemma SetAdrift(cr: Suite, n: Pair, f: Flows)
    requires Late(cr, n, f) && Drifts(n.a.c, n.b.c, f)
    ensures Late(cr, n, f.(adrift := true))
  {
    hide Joined, ServerWord, ClientWord, Carries;
  }

  /** A server that leaves, or turns the client down. */
  lemma ServerDeparts(cr: Suite, n: Pair, k: nat, claims: bytes, w: Doing) returns (f: Flows)
    requires Ideal(cr) && AtPhase(cr, n, k, claims) && 3 <= k <= 5
    requires (w.Calls? && w.call.CallDisconnect?) || (w.Decides? && !w.accept && Decidable(n.a.c, w.claims))
    ensures Late(cr, ActA(cr, n, w), f) && f.adrift && NothingYet(ActA(cr, n, w))
  {
    var a, n', f0 := n.a.c, ActA(cr, n, w), EarlyFlows(cr, n, k);
    hide AtPhase, Ideal, StreamLaw, ActA, Suited;
    EarlyIsBare(cr, n, k, claims);
    EarlyIsLate(cr, n, k, claims);
    IdealStream(cr);
    ServerLeaves(cr, n, w);
    NothingSent(cr, n, w);
    var p := ServerGoes(cr, n, f0, w);
    GoesOn(cr, a, n'.a.c, p);
    hide Late, Goes;
    PairlessOn(a.log, n'.a.c.log);
    f := f0.(qab := f0.qab + p);
    hide Bare, Pairless, HasOk, OkFirst, EarlyFlows;
    assert [] + p == p;
    assert NoOffer(f.qab) by { EarlyStart(cr, n, k); }
    SetAdrift(cr, n', f);
    f := f.(adrift := true);
  }

  lemma EarlyStart(cr: Suite, n: Pair, k: nat)
    requires Suited(cr, n.a.c, n.b.c)
    ensures EarlyFlows(cr, n, k).qab == [] && !EarlyFlows(cr, n, k).adrift
  {
  }

  lemma GoesOn(cr: Suite, c: Ctx, d: Ctx, p: seq<Pdu>)
    requires Goes(cr, c, d, p)
    ensures c.log <= d.log && (c.state != Ready ==> NoOffer(p))
  {
  }

  /** What it leaves behind. */
  lemma ServerLeaves(cr: Suite, n: Pair, w: Doing)
    requires n.a.c.state == Auth && n.a.c.push.Some? && Bare(n.a.c.table)
    requires (w.Calls? && w.call.CallDisconnect?) || (w.Decides? && !w.accept && Decidable(n.a.c, w.claims))
    ensures var d := ActA(cr, n, w).a.c;
      && d.state != Auth && d.state != Ready && d.auth.complete == n.a.c.auth.complete && Bare(d.table)
      && Pairless(n.a.c.log, d.log) && ActA(cr, n, w).b == n.b
  {
    if w.Calls? {
      CallDrifts(cr, n.a.c, w.call);
      hide Bare, Pairless, PushRc, Encode, IdsBetween, Noted;
    } else {
      DecisionDrifts(cr, n.a.c, w.accept, w.claims);
      hide Bare, Pairless, PushRc, Encode;
    }
  }

  /** Its step is one of the pair's. */
  lemma ServerGoes(cr: Suite, n: Pair, f: Flows, w: Doing) returns (p: seq<Pdu>)
    requires StreamLaw(cr) && Late(cr, n, f) && !f.adrift && (w.Calls? || w.Decides?)
    ensures Late(cr, ActA(cr, n, w), f.(qab := f.qab + p)) && Goes(cr, n.a.c, ActA(cr, n, w).a.c, p)
  {
    JoinedIsSuited(cr, n.a.c, n.b.c);
    hide HostCall, Decide, Joined, Suited, Carries, Truthful, Goes, StreamLaw, IdsBetween, Noted, ServerWord, Drifts;
    match w {
      case Calls(call) => p := ServerCalls(cr, n.a.c, n.b.c, call);
      case Decides(accept, claims) => p := ServerDecision(cr, n.a.c, n.b.c, accept, claims);
    }
    StoppedStays(cr, n.a.c, ActA(cr, n, w).a.c, p);
    ServerStays(cr, n, ActA(cr, n, w), f, p, f.sba, f.qba);
  }

  /** A client that leaves before it is accepted. */
  lemma ClientDeparts(cr: Suite, n: Pair, k: nat, claims: bytes, call: Call) returns (f: Flows)
    requires Ideal(cr) && AtPhase(cr, n, k, claims) && 4 <= k <= 5 && call.CallDisconnect?
    ensures var n' := Flip(ActA(cr, Flip(n), Calls(call))); Late(cr, n', f) && f.adrift && NothingYet(n')
  {
    var b, n', f0 := n.b.c, Flip(ActA(cr, Flip(n), Calls(call))), EarlyFlows(cr, n, k);
    EarlyIsBare(cr, n, k, claims);
    EarlyIsLate(cr, n, k, claims);
    IdealStream(cr);
    hide AtPhase, Ideal, StreamLaw, Suited;
    ClientLeaves(cr, b, call);
    NothingSent(cr, Flip(n), Calls(call));
    var p := ClientGoes(cr, n, f0, call);
    hide Late, Goes, HostCall;
    PairlessOn(b.log, n'.b.c.log);
    hide Bare, Pairless;
    f := f0.(qba := f0.qba + p);
    assert NoOffer(f.qba) && OkFirst(f.qab);
    SetAdrift(cr, n', f);
    f := f.(adrift := true);
  }

  lemma ClientLeaves(cr: Suite, c: Ctx, call: Call)
    requires c.state == Auth && c.push.Some? && call.CallDisconnect?
    ensures var d := HostCall(cr, c, call).0; d.state == Draining && d.hs == c.hs && Pairless(c.log, d.log)
  {
    CallDrifts(cr, c, call);
    hide Bare, Pairless, PushRc, Encode;
  }

  lemma ClientGoes(cr: Suite, n: Pair, f: Flows, call: Call) returns (p: seq<Pdu>)
    requires StreamLaw(cr) && Late(cr, n, f) && !f.adrift && n.b.c.hs == Done
    ensures var n' := Flip(ActA(cr, Flip(n), Calls(call)));
      Late(cr, n', f.(qba := f.qba + p)) && Goes(cr, n.b.c, n'.b.c, p) && n'.b.c == HostCall(cr, n.b.c, call).0
  {
    JoinedIsSuited(cr, n.a.c, n.b.c);
    hide HostCall, Joined, Suited, Carries, Truthful, Goes, StreamLaw, IdsBetween, Noted, ServerWord, ClientWord, Common, Drifts;
    p := ClientCalls(cr, n.b.c, n.a.c.auth.complete, call);
    StoppedStays(cr, n.b.c, HostCall(cr, n.b.c, call).0, p);
    ClientStays(cr, n, Flip(ActA(cr, Flip(n), Calls(call))), f, p, f.sab, f.qab);
  }
}
