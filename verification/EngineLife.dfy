/**
 * What every session keeps whatever its peer sends and whatever its host
 * calls: the life cycle only moves forward, a decision is made once, the
 * channel table stays in order, and calls are all or nothing.
 */
module EngineLife {
  import opened Base
  import opened Mux
  import opened Wire
  import opened WirePdu
  import opened Transcript
  import opened Crypto
  import opened Engine
  import T = Table

  // ------------------------------------------------------------------
  // Runs of one session
  // ------------------------------------------------------------------

  datatype Op =
    | OpCall(call: Call)
    | OpDecide(accept: bool, claims: bytes)
    | OpFeed(data: bytes)
    | OpOutput(max: nat)

  function Do(cr: Suite, s: Side, op: Op): Side {
    match op
    case OpCall(call) => s.(c := HostCall(cr, s.c, call).0)
    case OpDecide(accept, claims) => s.(c := Decide(cr, s.c, accept, claims).0)
    case OpFeed(data) => Feed(cr, s, data)
    case OpOutput(max) => s.(c := Output(s.c, max).0)
  }

  function RunOps(cr: Suite, s: Side, ops: seq<Op>): Side
    decreases |ops|
  {
    if ops == [] then s else RunOps(cr, Do(cr, s, ops[0]), ops[1..])
  }

  /** An auth_decide that returns OK, to accept or to reject. */
  predicate Decides(cr: Suite, s: Side, op: Op) {
    op.OpDecide? && Decide(cr, s.c, op.accept, op.claims).1 == Ok
  }

  /** An accepting auth_decide that returns OK. */
  predicate Accepts(cr: Suite, s: Side, op: Op) {
    op.OpDecide? && op.accept && Decides(cr, s, op)
  }

  function CountDecisions(cr: Suite, s: Side, ops: seq<Op>): nat
    decreases |ops|
  {
    if ops == [] then 0 else (if Decides(cr, s, ops[0]) then 1 else 0) + CountDecisions(cr, Do(cr, s, ops[0]), ops[1..])
  }

  function CountAccepts(cr: Suite, s: Side, ops: seq<Op>): nat
    decreases |ops|
  {
    if ops == [] then 0 else (if Accepts(cr, s, ops[0]) then 1 else 0) + CountAccepts(cr, Do(cr, s, ops[0]), ops[1..])
  }

  // ------------------------------------------------------------------
  // The invariant
  // ------------------------------------------------------------------

  function Rank(st: State): nat {
    match st
    case Hello => 0
    case SsHeader => 1
    case Auth => 2
    case Ready => 3
    case Draining => 4
    case Error => 5
    case Closed => 6
  }

  /** The sub-state beside the public state, and the flags beside both. */
  predicate Phased(c: Ctx) {
    && (c.state == Hello ==> c.hs == WaitPeerHello)
    && (c.state == SsHeader ==> c.hs == WaitPeerSs)
    && (c.state == SsHeader && c.id.role == Client ==> c.push.Some?)
    && (c.state == Auth || c.state == Ready || c.state == Draining ==> c.hs == Done && c.push.Some? && c.pull.Some?)
    && (c.state == Ready ==> c.auth.complete)
    && (c.state == Hello || c.state == SsHeader ==> !c.auth.awaiting && !c.auth.decided)
    && (c.auth.complete ==> Rank(c.state) >= 3)
    && (c.auth.awaiting ==> !c.auth.decided)
    && (c.id.role == Server ==> (c.auth.complete ==> c.auth.decided))
    && (c.id.role == Client ==> !c.auth.awaiting && !c.auth.decided)
  }

  /** No channel is opening or open on an unauthenticated session. */
  predicate Guarded(t: T.Table, complete: bool) {
    forall i :: 0 <= i < |t.slots| && (t.slots[i].state == Opening || t.slots[i].state == Opened) ==> complete
  }

  /** Freed slots are wiped. */
  predicate Wiped(t: T.Table) {
    forall i :: 0 <= i < |t.slots| && !T.Live(t.slots[i]) ==> t.slots[i] == BLANK
  }

  predicate Stored(c: Ctx) {
    && T.Counted(c.table, c.id.cfg.maxChannels) && Guarded(c.table, c.auth.complete) && Wiped(c.table)
    && |c.out| <= OUT_BUF_SIZE
  }

  predicate Inv(c: Ctx) {
    Phased(c) && Stored(c)
  }

  /** What no step takes back: the life cycle, a decision, the identity and the pin. */
  predicate Onward(c: Ctx, d: Ctx) {
    && d.id == c.id
    && Rank(c.state) <= Rank(d.state)
    && d.auth.decided == c.auth.decided
    && (c.auth.complete ==> d.auth.complete)
    && (c.id.role == Server || !c.id.acceptAny ==> d.serverPk == c.serverPk)
    && (c.id.role == Server ==> d.auth.complete == c.auth.complete)
  }

  // ------------------------------------------------------------------
  // Multiplexer operations
  // ------------------------------------------------------------------

  /** The change an outcome makes is one the table can take. */
  predicate Fits(t: T.Table, cfg: Config, st: State, o: Outcome) {
    && T.Sane(t, cfg.maxChannels, o.eff)
    && (o.eff.Put? && (o.eff.ch.state == Opening || o.eff.ch.state == Opened) ==>
          st == Ready || t.slots[T.Find(t.slots, o.eff.id)].state == Opening || t.slots[T.Find(t.slots, o.eff.id)].state == Opened)
    && (o.eff.Add? && (o.eff.ch.state == Opening || o.eff.ch.state == Opened) ==> st == Ready)
  }

  lemma CallFits(c: Ctx, call: Call)
    ensures Fits(c.table, c.id.cfg, c.state, CallOutcome(c, call))
    ensures var o := CallOutcome(c, call);
      o.state == c.state || o.state == Closed || (o.state == Draining && 2 <= Rank(c.state) <= 4 && c.push.Some?)
  {
    hide Segments;
  }

  lemma MuxFits(c: Ctx, p: Pdu)
    requires c.state == Ready || c.state == Draining
    ensures Fits(c.table, c.id.cfg, c.state, MuxOutcome(c, p))
    ensures var o := MuxOutcome(c, p); o.state == c.state || o.state == Error || o.state == Closed
  {
    hide Segments;
  }

  lemma ChangeGuarded(t: T.Table, maxChannels: nat, o: Outcome, cfg: Config, st: State, complete: bool)
    requires Fits(t, cfg, st, o) && Guarded(t, complete) && Wiped(t) && (st == Ready ==> complete)
    ensures Guarded(T.Change(t, o.eff), complete) && Wiped(T.Change(t, o.eff))
  {
  }

  /** What settling an outcome does to the output: nothing, or one more frame. */
  lemma AppendFits(cr: Suite, c: Ctx, p: Pdu)
    requires StreamLaw(cr) && Legal(p) && c.push.Some? && |c.out| <= OUT_BUF_SIZE
    requires PushRc(c.id.cfg, SinkOf(c), PduLen(p)) == Ok
    ensures |Append(cr, c, p).out| == |c.out| + 4 + SS_ABYTES + PduLen(p) <= OUT_BUF_SIZE
  {
  }

  /** Whatever an operation pushes, it has checked that it fits. */
  predicate Roomy(cfg: Config, s: Sink, o: Outcome) {
    forall i :: 0 <= i < |o.push| ==> PushRc(cfg, s, PduLen(o.push[i])) == Ok
  }

  lemma CallRoomy(c: Ctx, call: Call)
    ensures Roomy(c.id.cfg, SinkOf(c), CallOutcome(c, call))
  {
    hide PushRc, Segments;
  }

  lemma MuxRoomy(c: Ctx, p: Pdu)
    ensures Roomy(c.id.cfg, SinkOf(c), MuxOutcome(c, p))
  {
    hide PushRc, Segments;
  }

  lemma SettleKeeps(cr: Suite, c: Ctx, o: Outcome)
    requires StreamLaw(cr) && Inv(c) && Fits(c.table, c.id.cfg, c.state, o) && Roomy(c.id.cfg, SinkOf(c), o)
    requires AllLegal(o.push) && |o.push| <= 1 && (o.push != [] ==> c.push.Some?)
    requires o.state == c.state || o.state == Error || o.state == Closed || (o.state == Draining && 2 <= Rank(c.state) <= 4)
    requires Rank(c.state) <= Rank(o.state)
    ensures Inv(Settle(cr, c, o)) && Onward(c, Settle(cr, c, o))
  {
    T.ChangeKeepsCount(c.table, c.id.cfg.maxChannels, o.eff);
    ChangeGuarded(c.table, c.id.cfg.maxChannels, o, c.id.cfg, c.state, c.auth.complete);
    if o.push != [] { AppendFits(cr, c, o.push[0]); }
    hide Fits, Roomy, T.Counted, Guarded, Wiped, T.Change, PushRc, AllLegal;
  }

  lemma CallKeeps(cr: Suite, c: Ctx, call: Call)
    requires StreamLaw(cr) && Inv(c)
    ensures Inv(HostCall(cr, c, call).0) && Onward(c, HostCall(cr, c, call).0)
  {
    var o := CallOutcome(c, call);
    PerformLegal(c.id.cfg, c.state, T.Look(c.table, CallTarget(call)), T.CanAlloc(c.table, c.id.cfg.maxChannels),
                 c.table.next, SinkOf(c), call);
    CallFits(c, call);
    CallRoomy(c, call);
    assert AllLegal(o.push) && |o.push| <= 1 && (o.push != [] ==> c.push.Some?);
    hide Inv, Fits, Roomy, CallOutcome, Settle, Onward, AllLegal;
    SettleKeeps(cr, c, o);
  }

  lemma MuxKeeps(cr: Suite, c: Ctx, plain: bytes)
    requires StreamLaw(cr) && Inv(c) && (c.state == Ready || c.state == Draining)
    ensures Inv(OnMux(cr, c, plain)) && Onward(c, OnMux(cr, c, plain))
  {
    var p := Decode(plain);
    hide Decode;
    if plain != [] && plain[0] == T_PONG {
    } else if p.Some? {
      HandleLegal(c.id.cfg, c.state, T.Look(c.table, PduTarget(p.value)), T.CanAlloc(c.table, c.id.cfg.maxChannels),
                  c.table.next, SinkOf(c), p.value);
      MuxFits(c, p.value);
      MuxRoomy(c, p.value);
      hide Inv, Fits, Roomy, MuxOutcome, Settle, Onward;
      SettleKeeps(cr, c, MuxOutcome(c, p.value));
    } else {
      FailKeeps(c, ErrProtocol);
    }
  }

  // ------------------------------------------------------------------
  // Handshake and authentication
  // ------------------------------------------------------------------

  lemma FailKeeps(c: Ctx, rc: Rc)
    requires Inv(c) && c.state != Closed
    ensures Inv(Fail(c, rc)) && Onward(c, Fail(c, rc))
  {
  }

  /** A failure on the way through the handshake leaves nothing to prove. */
  predicate Broken(c: Ctx, d: Ctx) {
    && d.state == Error && d.auth == c.auth && d.table == c.table && d.id == c.id && |d.out| <= OUT_BUF_SIZE
    && (c.id.role == Server || !c.id.acceptAny ==> d.serverPk == c.serverPk)
  }

  lemma BrokenKeeps(c: Ctx, d: Ctx)
    requires Inv(c) && Rank(c.state) <= 1 && Broken(c, d)
    ensures Inv(d) && Onward(c, d)
  {
    hide T.Counted, Guarded, Wiped;
  }

  lemma ClientHelloKeeps(cr: Suite, c: Ctx, h: HelloBody)
    requires Inv(c) && c.state == Hello && c.id.role == Client && LegalHello(h)
    ensures Inv(ClientHello(cr, c, h)) && Onward(c, ClientHello(cr, c, h))
  {
    var d := ClientHello(cr, c, h);
    hide T.Counted, Guarded, Wiped, PutU32, BuildTHello;
    if d.state == Error { BrokenKeeps(c, d); }
  }

  lemma ServerHelloKeeps(cr: Suite, c: Ctx, h: HelloBody)
    requires Inv(c) && c.state == Hello && c.id.role == Server && LegalHello(h)
    ensures Inv(ServerHello(cr, c, h)) && Onward(c, ServerHello(cr, c, h))
  {
    var d := ServerHello(cr, c, h);
    hide T.Counted, Guarded, Wiped, PutU32, BuildTHello, EncodeHello;
    if d.state == Error { BrokenKeeps(c, d); }
  }

  lemma HelloKeeps(cr: Suite, c: Ctx, body: bytes)
    requires Inv(c) && c.state == Hello
    ensures Inv(PeerHello(cr, c, body)) && Onward(c, PeerHello(cr, c, body))
  {
    var h := DecodeHello(body);
    if h.None? {
      FailKeeps(c, ErrProtocol);
    } else {
      EncodeDecodeHello(body);
      hide DecodeHello, ClientHello, ServerHello, Inv, Onward;
      if c.id.role == Client { ClientHelloKeeps(cr, c, h.value); } else { ServerHelloKeeps(cr, c, h.value); }
    }
  }

  /** Sending a PDU touches the output and the push counter only. */
  lemma SendKeeps(cr: Suite, c: Ctx, p: Pdu)
    requires StreamLaw(cr) && Inv(c) && Legal(p)
    ensures var d := SsSend(cr, c, p).0;
      Inv(d) && Onward(c, d) && d == c.(out := d.out, push := d.push) && (SsSend(cr, c, p).1 != Ok ==> d == c)
  {
    if PushRc(c.id.cfg, SinkOf(c), PduLen(p)) == Ok { AppendFits(cr, c, p); }
    hide T.Counted, Guarded, Wiped, PutU32, Encode, Legal;
  }

  lemma ClientHeaderKeeps(cr: Suite, c: Ctx, body: bytes)
    requires StreamLaw(cr) && Inv(c) && c.state == SsHeader && c.id.role == Client
    ensures Inv(PeerSsHeader(cr, c, body)) && Onward(c, PeerSsHeader(cr, c, body))
  {
    if |body| != SS_HEADER_BYTES {
      FailKeeps(c, ErrProtocol);
    } else {
      var d := Emit(c.(pull := Some(Stream(c.keyS2c, body, 0)), hs := Done, state := Auth), KxComplete);
      assert Inv(d) && Onward(c, d);
      SendDeviceKeeps(cr, d);
      hide Inv, SendAuthDevice;
    }
  }

  lemma SendDeviceKeeps(cr: Suite, c: Ctx)
    requires StreamLaw(cr) && Inv(c) && c.state == Auth
    ensures var (e, rc) := SendAuthDevice(cr, c);
      var d := if rc != Ok then Fail(e, ErrCrypto) else e;
      Inv(d) && Onward(c, d)
  {
    var (e, rc) := SendAuthDevice(cr, c);
    if rc != Ok {
      FailKeeps(c, ErrCrypto);
    } else if e != c {
      var user, device := c.id.user[..Min(|c.id.user|, USER_MAX)], c.id.device[..Min(|c.id.device|, DEVICE_ID_MAX)];
      var t := BuildTAuth(c.tHello.value, c.id.clientPk.value, user, device);
      SendKeeps(cr, c, AuthDevice(c.id.clientPk.value, cr.sign(t, c.id.clientSk.value), user, device));
      hide T.Counted, Guarded, Wiped, SsSend, BuildTAuth, BuildTHello;
    }
  }

  lemma ServerHeaderKeeps(cr: Suite, c: Ctx, body: bytes)
    requires Inv(c) && c.state == SsHeader && c.id.role == Server
    ensures Inv(PeerSsHeader(cr, c, body)) && Onward(c, PeerSsHeader(cr, c, body))
  {
    hide T.Counted, Guarded, Wiped, PutU32, BuildTHello;
  }

  lemma DeviceKeeps(cr: Suite, c: Ctx, plain: bytes)
    requires StreamLaw(cr) && Inv(c) && c.state == Auth && plain != [] && plain[0] == T_AUTH_DEVICE
    ensures Inv(OnAuthDevice(cr, c, plain)) && Onward(c, OnAuthDevice(cr, c, plain))
  {
    var p := DecodeAuthDevice(plain);
    if c.id.role != Server || c.auth.awaiting || c.auth.complete || c.auth.decided || p.None? {
      FailKeeps(c, ErrProtocol);
      hide T.Counted, Guarded, Wiped;
    } else if c.tHello.None? {
      FailKeeps(c, ErrState);
    } else {
      EncodeDecodeDevice(plain);
      SendKeeps(cr, c, AUTH_FAIL_PDU);
      hide DecodeAuthDevice, T.Counted, Guarded, Wiped, SsSend, BuildTAuth, BuildTHello, CString;
    }
  }

  lemma AuthKeeps(cr: Suite, c: Ctx, plain: bytes)
    requires StreamLaw(cr) && Inv(c) && c.state == Auth && plain != []
    ensures Inv(OnAuth(cr, c, plain)) && Onward(c, OnAuth(cr, c, plain))
  {
    hide Decode, T.Counted, Wiped, OnAuthDevice, BuildTHello, BuildTAuth;
    if plain[0] == T_AUTH_DEVICE { DeviceKeeps(cr, c, plain); }
  }

  /** The decision itself, before anything is sent. */
  lemma MarkKeeps(c: Ctx)
    requires Inv(c) && c.id.role == Server && c.auth.awaiting && c.state == Auth
    ensures var d := c.(auth := c.auth.(awaiting := false, decided := true)); Inv(d) && !c.auth.decided && !c.auth.complete
  {
    hide T.Counted, Wiped;
  }

  lemma AcceptedKeeps(d: Ctx)
    requires Inv(d) && d.id.role == Server && d.auth.decided && !d.auth.awaiting && d.state == Auth
    ensures var e := Emit(d.(auth := d.auth.(complete := true), state := Ready), Authenticated); Inv(e)
  {
    hide T.Counted, Wiped;
  }

  lemma RejectedKeeps(d: Ctx)
    requires Inv(d) && d.id.role == Server && d.auth.decided && d.state == Auth
    ensures Inv(Fail(d, ErrFull)) && Inv(Fail(Emit(d, AuthFailed(REASON_POLICY)), ErrRejected))
  {
    hide T.Counted, Wiped;
  }

  lemma DecideKeeps(cr: Suite, c: Ctx, accept: bool, claims: bytes)
    requires StreamLaw(cr) && Inv(c)
    ensures var (d, rc) := Decide(cr, c, accept, claims);
      && Inv(d) && (rc == Ok ==> c.auth.awaiting && !c.auth.decided && d.auth.decided)
      && (rc != Ok ==> d == c || (d.auth.decided && d.state == Error))
      && (rc == Ok && accept ==> d.auth.complete)
      && d.id == c.id && Rank(c.state) <= Rank(d.state) && d.serverPk == c.serverPk
      && (c.auth.decided ==> d.auth.decided) && (c.auth.complete ==> d.auth.complete)
      && (!(rc == Ok && accept) ==> d.auth.complete == c.auth.complete)
  {
    if c.id.role == Server && c.auth.awaiting && c.state == Auth && |claims| <= CLAIMS_MAX {
      hide Inv, SsSend, StreamLaw;
      var d := c.(auth := c.auth.(awaiting := false, decided := true));
      MarkKeeps(c);
      var p := if accept then AuthOk(claims) else AUTH_FAIL_PDU;
      SendKeeps(cr, d, p);
      var e := SsSend(cr, d, p).0;
      AcceptedKeeps(e);
      RejectedKeeps(e);
    }
  }

  // ------------------------------------------------------------------
  // Input, calls and runs
  // ------------------------------------------------------------------

  lemma PlainKeeps(cr: Suite, c: Ctx, plain: bytes)
    requires StreamLaw(cr) && Inv(c) && c.hs == Done && !Stopped(c) && plain != []
    ensures Inv(OnPlain(cr, c, plain)) && Onward(c, OnPlain(cr, c, plain))
  {
    assert c.state == Auth || c.state == Ready || c.state == Draining;
    hide Inv, Onward, OnAuth, OnMux;
    if c.state == Auth { AuthKeeps(cr, c, plain); } else { MuxKeeps(cr, c, plain); }
  }

  lemma OnwardTrans(c: Ctx, d: Ctx, e: Ctx)
    requires Onward(c, d) && Onward(d, e)
    ensures Onward(c, e)
  {
  }

  lemma PulledKeeps(c: Ctx, n: nat)
    requires Inv(c) && !Stopped(c) && c.pull.Some?
    ensures var d := c.(pull := Some(c.pull.value.(n := n)));
      var closed := Emit(d.(state := Closed), Disconnected(0));
      Inv(d) && Onward(c, d) && Inv(closed) && Onward(c, closed)
  {
    hide T.Counted, Wiped, Guarded;
  }

  /** What a record comes to: a failure, a goodbye, nothing, or its plaintext. */
  lemma RecordCases(cr: Suite, c: Ctx, ct: bytes) returns (plain: bytes)
    requires c.pull.Some?
    ensures var d := c.(pull := Some(c.pull.value.(n := c.pull.value.n + 1)));
      var e := OnRecord(cr, c, ct);
      || e == Fail(c, ErrProtocol) || e == Fail(c, ErrCrypto) || e == d || e == Emit(d.(state := Closed), Disconnected(0))
      || (plain != [] && e == OnPlain(cr, d, plain) && exists tag :: cr.unseal(c.pull.value, ct) == Some((tag, plain)))
  {
    hide OnPlain, Fail, Emit;
    var r := cr.unseal(c.pull.value, ct);
    plain := if r.Some? then r.value.1 else [];
  }

  lemma RecordKeeps(cr: Suite, c: Ctx, ct: bytes)
    requires StreamLaw(cr) && Inv(c) && c.hs == Done && !Stopped(c)
    ensures Inv(OnRecord(cr, c, ct)) && Onward(c, OnRecord(cr, c, ct))
  {
    hide StreamLaw, OnRecord;
    var d := c.(pull := Some(c.pull.value.(n := c.pull.value.n + 1)));
    PulledKeeps(c, c.pull.value.n + 1);
    FailKeeps(c, ErrProtocol);
    FailKeeps(c, ErrCrypto);
    var plain := RecordCases(cr, c, ct);
    if plain != [] { RecordPlainKeeps(cr, c, d, plain); }
    hide *;
  }

  lemma RecordPlainKeeps(cr: Suite, c: Ctx, d: Ctx, plain: bytes)
    requires StreamLaw(cr) && Inv(d) && Onward(c, d) && d.hs == Done && !Stopped(d) && plain != []
    ensures Inv(OnPlain(cr, d, plain)) && Onward(c, OnPlain(cr, d, plain))
  {
    hide Inv, Onward, OnPlain;
    PlainKeeps(cr, d, plain);
    OnwardTrans(c, d, OnPlain(cr, d, plain));
  }

  lemma FrameKeeps(cr: Suite, c: Ctx, body: bytes)
    requires StreamLaw(cr) && Inv(c) && !Stopped(c)
    ensures Inv(OnFrame(cr, c, body)) && Onward(c, OnFrame(cr, c, body))
  {
    assert Phased(c);
    hide Inv, Onward, PeerHello, PeerSsHeader, OnRecord;
    match c.state {
      case Hello => HelloKeeps(cr, c, body);
      case SsHeader => if c.id.role == Client { ClientHeaderKeeps(cr, c, body); } else { ServerHeaderKeeps(cr, c, body); }
      case _ => RecordKeeps(cr, c, body);
    }
  }

  lemma {:induction false} ProcessKeeps(cr: Suite, s: Side)
    requires StreamLaw(cr) && Inv(s.c)
    ensures Inv(Process(cr, s).c) && Onward(s.c, Process(cr, s).c)
    decreases |s.inp|
  {
    assert Onward(s.c, s.c);
    if !Stopped(s.c) {
      FailKeeps(s.c, ErrProtocol);
      hide Inv, Onward, Fail, OnFrame, Parse, Limit;
      var r := Parse(s.inp, Limit(s.c));
      if r.Framed? {
        FrameKeeps(cr, s.c, r.body);
        var d := OnFrame(cr, s.c, r.body);
        if d.state != Error {
          ProcessKeeps(cr, Side(d, s.inp[r.consumed..]));
          OnwardTrans(s.c, d, Process(cr, Side(d, s.inp[r.consumed..])).c);
        }
      }
    }
  }

  /** What one operation never takes back, whoever the peer is. */
  predicate Forward(c: Ctx, d: Ctx) {
    && d.id == c.id
    && Rank(c.state) <= Rank(d.state)
    && (c.auth.decided ==> d.auth.decided)
    && (c.auth.complete ==> d.auth.complete)
    && (c.id.role == Server || !c.id.acceptAny ==> d.serverPk == c.serverPk)
  }

  /**
   * auth_decide succeeds only where nothing was decided, and then something
   * is; short of that only a failed decision decides, and that ends in ERROR.
   * A server completes authentication by an accepting decision alone.
   */
  lemma DoKeeps(cr: Suite, s: Side, op: Op)
    requires StreamLaw(cr) && Inv(s.c)
    ensures var d := Do(cr, s, op);
      && Inv(d.c) && Forward(s.c, d.c)
      && (Decides(cr, s, op) ==> s.c.auth.awaiting && !s.c.auth.decided && d.c.auth.decided)
      && (!Decides(cr, s, op) && d.c.auth.decided && !s.c.auth.decided ==> d.c.state == Error)
      && (Accepts(cr, s, op) ==> !s.c.auth.complete && d.c.auth.complete)
      && (s.c.id.role == Server && !Accepts(cr, s, op) ==> d.c.auth.complete == s.c.auth.complete)
  {
    match op {
      case OpCall(call) => CallKeeps(cr, s.c, call); hide HostCall, Inv;
      case OpDecide(accept, claims) => assert Phased(s.c); DecideKeeps(cr, s.c, accept, claims); hide Decide, Inv;
      case OpFeed(data) =>
        assert Inv(s.c);
        hide Inv, Process;
        ProcessKeeps(cr, s.(inp := s.inp + data[..Taken(s, data)]));
      case OpOutput(max) => hide T.Counted, Guarded, Wiped;
    }
  }

  /**
   * Every run of one session, against any peer: the life cycle never goes
   * back, the pin never moves, a decision is never undone, auth_decide succeeds
   * at most once, and a server's session is authenticated exactly as often as
   * its host accepted.
   */
  lemma {:induction false} RunsKeep(cr: Suite, s: Side, ops: seq<Op>)
    requires StreamLaw(cr) && Inv(s.c)
    ensures var d := RunOps(cr, s, ops);
      && Inv(d.c) && Forward(s.c, d.c)
      && (if s.c.auth.decided then 1 else 0) + CountDecisions(cr, s, ops) <= (if d.c.auth.decided then 1 else 0)
      && (d.c.auth.decided && !s.c.auth.decided && CountDecisions(cr, s, ops) == 0 ==> Rank(d.c.state) >= Rank(Error))
      && (s.c.id.role == Server ==>
            (if s.c.auth.complete then 1 else 0) + CountAccepts(cr, s, ops) == (if d.c.auth.complete then 1 else 0))
    decreases |ops|
  {
    hide Inv, Do, Accepts, Decides;
    if ops != [] {
      DoKeeps(cr, s, ops[0]);
      RunsKeep(cr, Do(cr, s, ops[0]), ops[1..]);
    }
  }

  // ------------------------------------------------------------------
  // From creation
  // ------------------------------------------------------------------

  lemma EmptyTable(maxChannels: nat)
    ensures T.Counted(T.EMPTY, maxChannels) && Guarded(T.EMPTY, false) && Wiped(T.EMPTY)
  {
    hide T.EMPTY;
    T.EmptyIsBlank();
    NoneLive(T.EMPTY.slots);
  }

  lemma {:induction false} NoneLive(slots: seq<Channel>)
    requires forall i :: 0 <= i < |slots| ==> slots[i] == BLANK
    ensures T.LiveCount(slots) == 0
  {
    if slots != [] { NoneLive(slots[1..]); }
  }

  lemma CreatedIsSound(cr: Suite, id: Ident, serverPk: Option<Key32>, ephSk: Key32, header: Header24)
    requires Creatable(id, serverPk)
    ensures var s := Create(cr, id, serverPk, ephSk, header).value;
      Inv(s.c) && s.c.id == id && s.c.serverPk == serverPk && s.c.state == Hello && !s.c.auth.complete
  {
    EmptyTable(id.cfg.maxChannels);
    hide T.Counted, Guarded, Wiped;
    var d := Blank(id, serverPk).(ephPk := cr.kxPk(ephSk), ephSk := ephSk, header := header);
    var e := QueueHello(cr, d).0;
    assert id.role == Client ==> |e.out| <= OUT_BUF_SIZE && e == d.(out := e.out);
  }
}
