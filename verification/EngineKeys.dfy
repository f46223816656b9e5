/**
 * Keys follow the transcript: in every run of a client and every run of a
 * server, whatever stands between them, equal transcripts mean equal
 * ephemerals and equal direction keys.
 */
module EngineKeys {
  import opened Base
  import opened Mux
  import opened Wire
  import opened WirePdu
  import opened Transcript
  import opened Crypto
  import opened Engine
  import opened EngineLife
  import T = Table

  /** Both sides' transcript and keys, from what each holds of the exchange. */
  ghost predicate Derived(cr: Suite, c: Ctx) {
    && c.ephPk == cr.kxPk(c.ephSk)
    && (c.hs == WaitPeerSs || c.hs == Done ==>
          && c.peerEph.Some? && c.serverPk.Some?
          && (if c.id.role == Client then
                var k := cr.kxClient(c.ephPk, c.ephSk, c.peerEph.value);
                && c.tHello == Some(BuildTHello(PROTO_VERSION, SUITE_V1, c.ephPk, c.peerEph.value, c.serverPk.value))
                && k.Some? && c.keyC2s == cr.kdf(k.value.tx, DOM_SS_C2S) && c.keyS2c == cr.kdf(k.value.rx, DOM_SS_S2C)
              else
                var k := cr.kxServer(c.ephPk, c.ephSk, c.peerEph.value);
                && c.tHello == Some(BuildTHello(PROTO_VERSION, SUITE_V1, c.peerEph.value, c.ephPk, c.serverPk.value))
                && k.Some? && c.keyC2s == cr.kdf(k.value.rx, DOM_SS_C2S) && c.keyS2c == cr.kdf(k.value.tx, DOM_SS_S2C)))
  }

  /** The two runs met in one session. */
  predicate OneSession(c: Ctx, d: Ctx) {
    && c.peerEph == Some(d.ephPk) && d.peerEph == Some(c.ephPk) && c.serverPk == d.serverPk
    && c.keyC2s == d.keyC2s && c.keyS2c == d.keyS2c
  }

  lemma OneTranscriptOneSession(cr: Suite, c: Ctx, d: Ctx)
    requires KxLaw(cr) && Derived(cr, c) && Derived(cr, d) && c.id.role == Client && d.id.role == Server
    requires (c.hs == WaitPeerSs || c.hs == Done) && (d.hs == WaitPeerSs || d.hs == Done) && c.tHello == d.tHello
    ensures OneSession(c, d)
  {
    THelloBinds(PROTO_VERSION, SUITE_V1, c.ephPk, c.peerEph.value, c.serverPk.value,
                PROTO_VERSION, SUITE_V1, d.peerEph.value, d.ephPk, d.serverPk.value);
    hide BuildTHello;
    assert cr.kxServer(cr.kxPk(d.ephSk), d.ephSk, cr.kxPk(c.ephSk)).Some?;
  }

  /** What nothing touches once HELLO is over. */
  predicate SameSession(c: Ctx, d: Ctx) {
    && d.id == c.id && d.ephPk == c.ephPk && d.ephSk == c.ephSk && d.header == c.header && d.peerEph == c.peerEph && d.serverPk == c.serverPk
    && d.tHello == c.tHello && d.keyC2s == c.keyC2s && d.keyS2c == c.keyS2c
  }

  lemma HelloDerives(cr: Suite, c: Ctx, body: bytes)
    requires Derived(cr, c) && c.hs == WaitPeerHello && (c.id.role == Server ==> c.serverPk.Some?)
    ensures Derived(cr, PeerHello(cr, c, body))
  {
    hide DecodeHello, EncodeHello, Frame, BuildTHello;
  }

  lemma HeaderKeepsSession(cr: Suite, c: Ctx, body: bytes)
    ensures SameSession(c, PeerSsHeader(cr, c, body))
  {
    hide Encode, Frame, PushRc;
  }

  lemma DeviceKeepsSession(cr: Suite, c: Ctx, plain: bytes)
    requires plain != [] && plain[0] == T_AUTH_DEVICE
    ensures var d := OnAuthDevice(cr, c, plain); SameSession(c, d) && d.hs == c.hs
  {
    hide Decode, DecodeAuthDevice, PushRc, BuildTAuth, CString, Encode, PutU32;
  }

  lemma AuthKeepsSession(cr: Suite, c: Ctx, plain: bytes)
    requires plain != []
    ensures var d := OnAuth(cr, c, plain); SameSession(c, d) && d.hs == c.hs
  {
    hide OnAuthDevice, Decode;
    if plain[0] == T_AUTH_DEVICE { DeviceKeepsSession(cr, c, plain); }
  }

  lemma MuxKeepsSession(cr: Suite, c: Ctx, plain: bytes)
    ensures var d := OnMux(cr, c, plain); SameSession(c, d) && d.hs == c.hs
  {
    hide Decode, MuxOutcome, T.Change, Encode;
  }

  lemma PlainKeepsSession(cr: Suite, c: Ctx, plain: bytes)
    requires plain != []
    ensures var d := OnPlain(cr, c, plain); SameSession(c, d) && d.hs == c.hs
  {
    hide OnAuth, OnMux;
    if c.state == Auth { AuthKeepsSession(cr, c, plain); }
    else if c.state == Ready || c.state == Draining { MuxKeepsSession(cr, c, plain); }
  }

  lemma RecordKeepsSession(cr: Suite, c: Ctx, ct: bytes)
    ensures var d := OnRecord(cr, c, ct); SameSession(c, d) && d.hs == c.hs
  {
    hide OnPlain;
    if c.pull.Some? {
      var plain := RecordCases(cr, c, ct);
      hide OnRecord;
      if plain != [] { PlainKeepsSession(cr, c.(pull := Some(c.pull.value.(n := c.pull.value.n + 1))), plain); }
    }
  }

  lemma SameDerived(cr: Suite, c: Ctx, d: Ctx)
    requires Derived(cr, c) && SameSession(c, d) && (d.hs == c.hs || c.hs == WaitPeerSs)
    ensures Derived(cr, d)
  {
    hide BuildTHello;
  }

  /** A created session has its server key, where it is the server. */
  predicate Keyed(c: Ctx) {
    c.id.role == Server ==> c.serverPk.Some?
  }

  lemma FrameDerives(cr: Suite, c: Ctx, body: bytes)
    requires Derived(cr, c) && Keyed(c)
    ensures Derived(cr, OnFrame(cr, c, body)) && Keyed(OnFrame(cr, c, body))
  {
    match c.hs {
      case WaitPeerHello => HelloDerives(cr, c, body); HelloKeepsKeyed(cr, c, body); hide *;
      case WaitPeerSs => HeaderKeepsSession(cr, c, body); hide PeerSsHeader, Derived; SameDerived(cr, c, PeerSsHeader(cr, c, body));
      case Done => RecordKeepsSession(cr, c, body); hide OnRecord, Derived; SameDerived(cr, c, OnRecord(cr, c, body));
      case Start => hide Derived; SameDerived(cr, c, Fail(c, ErrState));
    }
  }

  lemma HelloKeepsKeyed(cr: Suite, c: Ctx, body: bytes)
    requires Keyed(c)
    ensures Keyed(PeerHello(cr, c, body))
  {
    hide DecodeHello, EncodeHello, Frame, BuildTHello;
  }

  lemma {:induction false} ProcessDerives(cr: Suite, s: Side)
    requires Derived(cr, s.c) && Keyed(s.c)
    ensures Derived(cr, Process(cr, s).c) && Keyed(Process(cr, s).c)
    decreases |s.inp|
  {
    if !Stopped(s.c) {
      SameDerived(cr, s.c, Fail(s.c, ErrProtocol));
      hide OnFrame, Parse, Limit, Derived;
      var r := Parse(s.inp, Limit(s.c));
      if r.Framed? {
        FrameDerives(cr, s.c, r.body);
        var d := OnFrame(cr, s.c, r.body);
        if d.state != Error { ProcessDerives(cr, Side(d, s.inp[r.consumed..])); }
      }
    }
  }

  lemma CallKeepsSession(cr: Suite, c: Ctx, call: Call)
    ensures var d := HostCall(cr, c, call).0; SameSession(c, d) && d.hs == c.hs
  {
    hide CallOutcome, T.Change;
  }

  lemma DecideKeepsSession(cr: Suite, c: Ctx, accept: bool, claims: bytes)
    ensures var d := Decide(cr, c, accept, claims).0; SameSession(c, d) && d.hs == c.hs
  {
    hide PushRc, Encode;
  }

  lemma DoDerives(cr: Suite, s: Side, op: Op)
    requires Derived(cr, s.c) && Keyed(s.c)
    ensures Derived(cr, Do(cr, s, op).c) && Keyed(Do(cr, s, op).c)
  {
    var d := Do(cr, s, op);
    match op {
      case OpCall(call) => CallKeepsSession(cr, s.c, call); hide HostCall, Derived; SameDerived(cr, s.c, d.c);
      case OpDecide(accept, claims) => DecideKeepsSession(cr, s.c, accept, claims); hide Decide, Derived; SameDerived(cr, s.c, d.c);
      case OpFeed(data) => hide Derived, Process, Taken; ProcessDerives(cr, s.(inp := s.inp + data[..Taken(s, data)]));
      case OpOutput(max) => hide Derived; SameDerived(cr, s.c, d.c);
    }
  }

  lemma {:induction false} RunDerives(cr: Suite, s: Side, ops: seq<Op>)
    requires Derived(cr, s.c) && Keyed(s.c)
    ensures Derived(cr, RunOps(cr, s, ops).c)
    decreases |ops|
  {
    hide Derived, Do, Keyed;
    if ops != [] {
      DoDerives(cr, s, ops[0]);
      RunDerives(cr, Do(cr, s, ops[0]), ops[1..]);
    }
  }

  lemma CreatedDerives(cr: Suite, id: Ident, serverPk: Option<Key32>, ephSk: Key32, header: Header24)
    requires Creatable(id, serverPk)
    ensures var s := Create(cr, id, serverPk, ephSk, header).value; Derived(cr, s.c) && Keyed(s.c) && s.c.id == id
  {
    hide EncodeHello, Frame, BuildTHello;
  }

  /** What every run of a created session, against anyone, has to show for its transcript. */
  lemma RunIsDerived(cr: Suite, id: Ident, serverPk: Option<Key32>, eph: Key32, header: Header24, ops: seq<Op>)
    requires StreamLaw(cr) && Creatable(id, serverPk)
    ensures var c := RunOps(cr, Create(cr, id, serverPk, eph, header).value, ops).c;
      Derived(cr, c) && c.id == id && (1 <= Rank(c.state) <= 4 ==> c.hs == WaitPeerSs || c.hs == Done)
  {
    var s := Create(cr, id, serverPk, eph, header).value;
    CreatedDerives(cr, id, serverPk, eph, header);
    CreatedIsSound(cr, id, serverPk, eph, header);
    hide Create, Derived, Keyed, Stored, StreamLaw, RunOps, CountAccepts;
    RunDerives(cr, s, ops);
    RunsKeep(cr, s, ops);
  }

  /**
   * Session agreement without trusting the network: a client run and a server
   * run, each against anyone, that are both past HELLO with the same
   * transcript hold each other's ephemerals and the same keys.
   */
  lemma TranscriptFixesKeys(cr: Suite, idc: Ident, pin: Option<Key32>, ephC: Key32, headerC: Header24, opsC: seq<Op>,
                            ids: Ident, serverPk: Option<Key32>, ephS: Key32, headerS: Header24, opsS: seq<Op>)
    requires KxLaw(cr) && StreamLaw(cr) && Creatable(idc, pin) && Creatable(ids, serverPk) && idc.role == Client && ids.role == Server
    requires var c := RunOps(cr, Create(cr, idc, pin, ephC, headerC).value, opsC).c;
      var d := RunOps(cr, Create(cr, ids, serverPk, ephS, headerS).value, opsS).c;
      1 <= Rank(c.state) <= 4 && 1 <= Rank(d.state) <= 4 && c.tHello == d.tHello
    ensures var c := RunOps(cr, Create(cr, idc, pin, ephC, headerC).value, opsC).c;
      var d := RunOps(cr, Create(cr, ids, serverPk, ephS, headerS).value, opsS).c;
      OneSession(c, d)
  {
    assert Create(cr, idc, pin, ephC, headerC).Some? && Create(cr, ids, serverPk, ephS, headerS).Some?;
    hide Create, Derived, KxLaw, StreamLaw, RunOps, Creatable;
    RunIsDerived(cr, idc, pin, ephC, headerC, opsC);
    RunIsDerived(cr, ids, serverPk, ephS, headerS, opsS);
    OneTranscriptOneSession(cr, RunOps(cr, Create(cr, idc, pin, ephC, headerC).value, opsC).c,
                            RunOps(cr, Create(cr, ids, serverPk, ephS, headerS).value, opsS).c);
  }
}
