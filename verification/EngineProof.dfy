/**
 * Authentication as a matter of what was received: in every run, against any
 * peer, the signature a session relied on is in the bytes its feeds took, and
 * it verifies over that session's own transcript.
 */
module EngineProof {
  import opened Base
  import opened Mux
  import opened Wire
  import opened WirePdu
  import opened Transcript
  import opened Crypto
  import opened Engine
  import opened EngineLife
  import opened EngineKeys
  import Q = Pair
  import T = Table

  /** The bytes an operation took. */
  function Ear(s: Side, op: Op): bytes {
    if op.OpFeed? then op.data[..Taken(s, op.data)] else []
  }

  /** The bytes the feeds of a run took, in order. */
  function Heard(cr: Suite, s: Side, ops: seq<Op>): bytes
    decreases |ops|
  {
    if ops == [] then [] else Ear(s, ops[0]) + Heard(cr, Do(cr, s, ops[0]), ops[1..])
  }

  // ------------------------------------------------------------------
  // Evidence
  // ------------------------------------------------------------------

  /** The first frame heard is the server's HELLO h, and its signature covers a transcript with this client's own ephemeral. */
  ghost predicate ServerSpoke(cr: Suite, c: Ctx, heard: bytes, h: HelloBody) {
    && LegalHello(h) && h.role == RoleCode(Server) && Frame(EncodeHello(h)) <= heard
    && c.peerEph == Some(h.ephPk) && c.peerId == Some(h.idPk) && c.serverPk == c.peerId
    && c.tHello == Some(BuildTHello(PROTO_VERSION, SUITE_V1, c.ephPk, h.ephPk, h.idPk))
    && cr.verify(h.idSig, c.tHello.value, h.idPk)
  }

  ghost predicate ServerProven(cr: Suite, c: Ctx, heard: bytes) {
    exists h: HelloBody :: ServerSpoke(cr, c, heard, h)
  }

  /** The frames a session has read: the peer's HELLO, its secretstream header, and records. */
  datatype Place = Place(hello: bytes, header: Header24, records: seq<bytes>)

  predicate WellPlaced(p: Place) {
    |p.hello| < U32 && forall i :: 0 <= i < |p.records| ==> |p.records[i]| < U32
  }

  function Before(p: Place): bytes
    requires WellPlaced(p)
  {
    Frame(p.hello) + Frame(p.header) + Frames(p.records)
  }

  /** The record that comes next there, opened as the message of its number to the AUTH_DEVICE p. */
  datatype Receipt = Receipt(place: Place, ct: bytes, tag: byte, p: Pdu)

  /** p is signed over this server's transcript by the key it names, and the host was told its key, user and device. */
  ghost predicate DeviceSpoke(cr: Suite, c: Ctx, heard: bytes, r: Receipt) {
    && |r.ct| < U32 && WellPlaced(r.place) && Before(r.place) + Frame(r.ct) <= heard
    && Legal(r.p) && r.p.AuthDevice? && c.tHello.Some? && c.pull.Some? && c.pull.value.key == c.keyC2s
    && r.place.header == c.pull.value.header
    && cr.unseal(c.pull.value.(n := |r.place.records|), r.ct) == Some((r.tag, Encode(r.p)))
    && cr.verify(r.p.sig, BuildTAuth(c.tHello.value, r.p.pk, r.p.user, r.p.device), r.p.pk)
    && c.peerId == Some(r.p.pk) && AuthDeviceEvent(r.p.pk, CString(r.p.user), CString(r.p.device)) in c.log
  }

  ghost predicate DeviceProven(cr: Suite, c: Ctx, heard: bytes) {
    exists r: Receipt :: DeviceSpoke(cr, c, heard, r)
  }

  predicate Claimed(c: Ctx) {
    c.auth.awaiting || c.auth.decided || c.auth.complete
  }

  ghost predicate Evidence(cr: Suite, c: Ctx, heard: bytes) {
    && c.hs != Start
    && (c.id.role == Client && c.hs != WaitPeerHello ==> ServerProven(cr, c, heard))
    && (c.id.role == Server && Claimed(c) ==> c.hs == Done && DeviceProven(cr, c, heard))
    && (c.id.role == Server && c.hs == Done ==> c.pull.Some? && c.pull.value.key == c.keyC2s)
  }

  ghost predicate ReadTo(c: Ctx, before: bytes, p: Place) {
    && WellPlaced(p) && before == Before(p)
    && c.pull.Some? && p.header == c.pull.value.header && |p.records| == c.pull.value.n
  }

  /** What a running session has read, by where its handshake stands. */
  ghost predicate ReadSoFar(c: Ctx, before: bytes) {
    && (c.hs == WaitPeerHello ==> before == [])
    && (c.hs == WaitPeerSs ==> exists hello: bytes :: |hello| < U32 && before == Frame(hello))
    && (c.hs == Done ==> exists p: Place :: ReadTo(c, before, p))
  }

  /** Of what was heard, the session has read the frames before, and the rest is in its buffer. */
  ghost predicate Reads(s: Side, heard: bytes, before: bytes) {
    heard == before + s.inp && (!Stopped(s.c) ==> ReadSoFar(s.c, before))
  }

  lemma HeardMore(cr: Suite, c: Ctx, heard: bytes, more: bytes)
    requires Evidence(cr, c, heard)
    ensures Evidence(cr, c, heard + more)
  {
    hide BuildTHello, BuildTAuth, Frame, Encode, EncodeHello;
    if c.id.role == Client && c.hs != WaitPeerHello {
      var h :| ServerSpoke(cr, c, heard, h);
      assert ServerSpoke(cr, c, heard + more, h);
    }
    if c.id.role == Server && Claimed(c) {
      var r :| DeviceSpoke(cr, c, heard, r);
      assert DeviceSpoke(cr, c, heard + more, r);
    }
  }

  // ------------------------------------------------------------------
  // Steps that add no evidence and lose none
  // ------------------------------------------------------------------

  predicate SamePull(p: Option<Stream>, q: Option<Stream>) {
    p.Some? == q.Some? && (p.Some? ==> q.value == p.value.(n := q.value.n))
  }

  /** Everything evidence speaks of stays, the log grows, and no new claim is made. */
  predicate Keeps(c: Ctx, d: Ctx) {
    && SameSession(c, d) && d.hs == c.hs && d.peerId == c.peerId && SamePull(c.pull, d.pull) && c.log <= d.log
    && (c.id.role == Server && Claimed(d) ==> Claimed(c))
  }

  lemma KeepsEvidence(cr: Suite, c: Ctx, d: Ctx, heard: bytes)
    requires Evidence(cr, c, heard) && Keeps(c, d)
    ensures Evidence(cr, d, heard)
  {
    hide BuildTHello, BuildTAuth, Frame, Encode, EncodeHello;
    if c.id.role == Client && c.hs != WaitPeerHello {
      var h :| ServerSpoke(cr, c, heard, h);
      assert ServerSpoke(cr, d, heard, h);
    }
    if c.id.role == Server && Claimed(d) {
      var r :| DeviceSpoke(cr, c, heard, r);
      assert d.pull.value.(n := |r.place.records|) == c.pull.value.(n := |r.place.records|);
      assert DeviceSpoke(cr, d, heard, r);
    }
  }

  lemma CallAddsNothing(cr: Suite, c: Ctx, call: Call)
    ensures Keeps(c, HostCall(cr, c, call).0)
  {
    CallKeepsSession(cr, c, call);
    hide CallOutcome, T.Change, SameSession;
  }

  lemma DecideAddsNothing(cr: Suite, c: Ctx, accept: bool, claims: bytes)
    ensures Keeps(c, Decide(cr, c, accept, claims).0)
  {
    DecideKeepsSession(cr, c, accept, claims);
    hide PushRc, Encode, SameSession;
  }

  lemma MuxAddsNothing(cr: Suite, c: Ctx, plain: bytes)
    ensures Keeps(c, OnMux(cr, c, plain))
  {
    MuxKeepsSession(cr, c, plain);
    hide Decode, MuxOutcome, T.Change, Encode, SameSession;
  }

  lemma AuthReplyAddsNothing(cr: Suite, c: Ctx, plain: bytes)
    requires plain != [] && plain[0] != T_AUTH_DEVICE
    ensures Keeps(c, OnAuth(cr, c, plain))
  {
    AuthKeepsSession(cr, c, plain);
    hide Decode, SameSession;
  }

  // ------------------------------------------------------------------
  // The two steps that add evidence
  // ------------------------------------------------------------------

  /** A HELLO that is accepted is the evidence; one that is not leaves the session in ERROR. */
  lemma HelloProves(cr: Suite, c: Ctx, body: bytes, heard: bytes)
    requires Evidence(cr, c, heard) && c.hs == WaitPeerHello && |body| < U32 && Frame(body) <= heard
    ensures var d := PeerHello(cr, c, body); Evidence(cr, d, heard) && (d.hs == WaitPeerHello ==> d.state == Error)
  {
    var h := DecodeHello(body);
    if h.Some? { EncodeDecodeHello(body); }
    hide DecodeHello, EncodeHello, Frame, BuildTHello;
    var d := PeerHello(cr, c, body);
    if c.id.role == Client && d.hs != WaitPeerHello {
      assert ServerSpoke(cr, d, heard, h.value);
    }
  }

  lemma HeaderProves(cr: Suite, c: Ctx, body: bytes, heard: bytes)
    requires Evidence(cr, c, heard) && c.hs == WaitPeerSs
    ensures var d := PeerSsHeader(cr, c, body); Evidence(cr, d, heard) && d.hs != WaitPeerHello
  {
    HeaderKeepsSession(cr, c, body);
    var d := PeerSsHeader(cr, c, body);
    HeaderKeepsPeer(cr, c, body);
    hide PeerSsHeader, BuildTHello, BuildTAuth, Frame, EncodeHello, DeviceSpoke;
    if c.id.role == Client {
      var h :| ServerSpoke(cr, c, heard, h);
      assert ServerSpoke(cr, d, heard, h);
    }
  }

  lemma HeaderKeepsPeer(cr: Suite, c: Ctx, body: bytes)
    requires c.hs == WaitPeerSs
    ensures var d := PeerSsHeader(cr, c, body);
      && d.peerId == c.peerId && (d.hs == WaitPeerSs || d.hs == Done)
      && (c.id.role == Server ==> d.auth == c.auth && (d.hs == Done ==> d.pull.Some? && d.pull.value.key == c.keyC2s))
  {
    hide Encode, Frame, PushRc, BuildTAuth;
  }

  /** An AUTH_DEVICE is evidence exactly when it verifies; otherwise nothing is claimed. */
  lemma DeviceProves(cr: Suite, c: Ctx, plain: bytes, p: Place, ct: bytes, tag: byte, heard: bytes)
    requires Evidence(cr, c, heard) && c.hs == Done && plain != [] && plain[0] == T_AUTH_DEVICE
    requires |ct| < U32 && WellPlaced(p) && Before(p) + Frame(ct) <= heard
    requires c.pull.Some? && p.header == c.pull.value.header
    requires cr.unseal(c.pull.value.(n := |p.records|), ct) == Some((tag, plain))
    ensures Evidence(cr, OnAuthDevice(cr, c, plain), heard)
  {
    var q, d := DecodeAuthDevice(plain), OnAuthDevice(cr, c, plain);
    DeviceKeepsSession(cr, c, plain);
    DeviceVerdict(cr, c, plain);
    hide OnAuthDevice, DecodeAuthDevice, BuildTHello, BuildTAuth, Frame, Before, Encode, EncodeHello, CString, SameSession;
    if Keeps(c, d) {
      KeepsEvidence(cr, c, d, heard);
    } else {
      var r := Receipt(p, ct, tag, q.value);
      assert DeviceSpoke(cr, d, heard, r) by { hide Evidence; SameKeys(c, d); }
    }
  }

  lemma SameKeys(c: Ctx, d: Ctx)
    requires SameSession(c, d)
    ensures d.tHello == c.tHello && d.keyC2s == c.keyC2s
  {
  }

  lemma DeviceVerdict(cr: Suite, c: Ctx, plain: bytes)
    requires plain != [] && plain[0] == T_AUTH_DEVICE
    ensures var p, d := DecodeAuthDevice(plain), OnAuthDevice(cr, c, plain);
      || Keeps(c, d)
      || (&& c.id.role == Server && c.tHello.Some? && p.Some? && Legal(p.value) && p.value.AuthDevice? && Encode(p.value) == plain
          && cr.verify(p.value.sig, BuildTAuth(c.tHello.value, p.value.pk, p.value.user, p.value.device), p.value.pk)
          && d.peerId == Some(p.value.pk) && d.pull == c.pull && d.id == c.id
          && AuthDeviceEvent(p.value.pk, CString(p.value.user), CString(p.value.device)) in d.log)
  {
    DeviceKeepsSession(cr, c, plain);
    var p := DecodeAuthDevice(plain);
    if p.Some? { EncodeDecodeDevice(plain); }
    hide DecodeAuthDevice, BuildTAuth, CString, Encode, PushRc, SameSession;
  }

  // ------------------------------------------------------------------
  // Frames, input and runs
  // ------------------------------------------------------------------

  lemma PlainProves(cr: Suite, c: Ctx, plain: bytes, p: Place, ct: bytes, tag: byte, heard: bytes)
    requires Evidence(cr, c, heard) && c.hs == Done && plain != []
    requires |ct| < U32 && WellPlaced(p) && Before(p) + Frame(ct) <= heard
    requires c.pull.Some? && p.header == c.pull.value.header
    requires cr.unseal(c.pull.value.(n := |p.records|), ct) == Some((tag, plain))
    ensures Evidence(cr, OnPlain(cr, c, plain), heard)
  {
    hide OnAuthDevice, OnMux, OnAuth, Evidence, Frame, Before;
    if c.state == Auth {
      if plain[0] == T_AUTH_DEVICE {
        DeviceProves(cr, c, plain, p, ct, tag, heard);
        assert OnAuth(cr, c, plain) == OnAuthDevice(cr, c, plain) by { DeviceIsAuth(cr, c, plain); }
      } else {
        AuthReplyAddsNothing(cr, c, plain);
        KeepsEvidence(cr, c, OnAuth(cr, c, plain), heard);
      }
    } else if c.state == Ready || c.state == Draining {
      MuxAddsNothing(cr, c, plain);
      KeepsEvidence(cr, c, OnMux(cr, c, plain), heard);
    } else {
      KeepsEvidence(cr, c, Fail(c, ErrState), heard);
    }
  }

  lemma DeviceIsAuth(cr: Suite, c: Ctx, plain: bytes)
    requires plain != [] && plain[0] == T_AUTH_DEVICE
    ensures OnAuth(cr, c, plain) == OnAuthDevice(cr, c, plain)
  {
  }

  lemma RecordProves(cr: Suite, c: Ctx, ct: bytes, p: Place, heard: bytes)
    requires Evidence(cr, c, heard) && c.hs == Done && |ct| < U32 && WellPlaced(p) && Before(p) + Frame(ct) <= heard
    requires ReadTo(c, Before(p), p)
    ensures Evidence(cr, OnRecord(cr, c, ct), heard)
  {
    hide Evidence, Frame, OnPlain, Before;
    var d := c.(pull := Some(c.pull.value.(n := c.pull.value.n + 1)));
    var plain := RecordCases(cr, c, ct);
    var e := OnRecord(cr, c, ct);
    hide OnRecord;
    KeepsEvidence(cr, c, d, heard);
    if plain != [] && e == OnPlain(cr, d, plain) && exists tag :: cr.unseal(c.pull.value, ct) == Some((tag, plain)) {
      var tag :| cr.unseal(c.pull.value, ct) == Some((tag, plain));
      assert d.pull.value.(n := |p.records|) == c.pull.value;
      PlainProves(cr, d, plain, p, ct, tag, heard);
    } else {
      assert Keeps(c, e);
      KeepsEvidence(cr, c, e, heard);
    }
  }

  lemma FrameProves(cr: Suite, c: Ctx, body: bytes, before: bytes, heard: bytes)
    requires Evidence(cr, c, heard) && |body| < U32 && before + Frame(body) <= heard && ReadSoFar(c, before)
    ensures Evidence(cr, OnFrame(cr, c, body), heard)
  {
    assert c.hs != Start;
    match c.hs {
      case WaitPeerHello => assert before + Frame(body) == Frame(body); hide Evidence; HelloProves(cr, c, body, heard); hide *;
      case WaitPeerSs => hide Evidence; HeaderProves(cr, c, body, heard); hide *;
      case Done =>
        hide Evidence, OnRecord, Frame, Before;
        var p: Place :| ReadTo(c, before, p);
        RecordProves(cr, c, body, p, heard);
    }
  }

  // ------------------------------------------------------------------
  // What has been read
  // ------------------------------------------------------------------

  lemma {:induction false} FramesSnoc(bodies: seq<bytes>, body: bytes)
    requires |body| < U32 && forall i :: 0 <= i < |bodies| ==> |bodies[i]| < U32
    ensures Frames(bodies + [body]) == Frames(bodies) + Frame(body)
    decreases |bodies|
  {
    hide Frame;
    if bodies == [] {
      assert bodies + [body] == [body] && [body][1..] == [];
    } else {
      assert (bodies + [body])[1..] == bodies[1..] + [body];
      FramesSnoc(bodies[1..], body);
    }
  }

  /** Where a frame leads a session that goes on. */
  lemma FrameReads(cr: Suite, c: Ctx, body: bytes, before: bytes)
    requires |body| < U32 && c.hs != Start && ReadSoFar(c, before)
    ensures var d := OnFrame(cr, c, body); !Stopped(d) ==> ReadSoFar(d, before + Frame(body))
  {
    hide PeerHello, PeerSsHeader, OnRecord, Frame, ReadTo;
    match c.hs {
      case WaitPeerHello => HelloReads(cr, c, body); assert before + Frame(body) == Frame(body);
      case WaitPeerSs =>
        var hello: bytes :| |hello| < U32 && before == Frame(hello);
        HeaderReads(cr, c, body);
        AfterHeader(OnFrame(cr, c, body), body, hello);
      case Done =>
        var p: Place :| ReadTo(c, before, p);
        RecordReads(cr, c, body, before, p);
        AfterRecord(c, OnFrame(cr, c, body), before, body, p);
    }
  }

  lemma AfterHeader(d: Ctx, body: bytes, hello: bytes)
    requires |hello| < U32 && |body| < U32
    requires !Stopped(d) ==> d.hs == Done && |body| == 24 && d.pull.Some? && d.pull.value.header == body && d.pull.value.n == 0
    ensures !Stopped(d) ==> ReadSoFar(d, Frame(hello) + Frame(body))
  {
    hide Frame;
    if !Stopped(d) {
      NoFrames(Frame(hello) + Frame(body));
      assert ReadTo(d, Frame(hello) + Frame(body), Place(hello, body, []));
    }
  }

  lemma AfterRecord(c: Ctx, d: Ctx, before: bytes, body: bytes, p: Place)
    requires |body| < U32 && ReadTo(c, before, p)
    requires !Stopped(d) ==> d.hs == Done && d.pull == Some(c.pull.value.(n := c.pull.value.n + 1))
    ensures !Stopped(d) ==> ReadSoFar(d, before + Frame(body))
  {
    FramesSnoc(p.records, body);
    hide Frame, Frames;
    if !Stopped(d) {
      var q := p.(records := p.records + [body]);
      assert Before(q) == Before(p) + Frame(body);
      assert ReadTo(d, before + Frame(body), q);
    }
  }

  lemma NoFrames(x: bytes)
    ensures x + Frames([]) == x
  {
  }

  lemma HelloReads(cr: Suite, c: Ctx, body: bytes)
    requires c.hs == WaitPeerHello
    ensures var d := PeerHello(cr, c, body); !Stopped(d) ==> d.hs == WaitPeerSs
  {
    hide DecodeHello, EncodeHello, Frame, BuildTHello;
  }

  lemma HeaderReads(cr: Suite, c: Ctx, body: bytes)
    requires c.hs == WaitPeerSs
    ensures var d := PeerSsHeader(cr, c, body);
      !Stopped(d) ==> d.hs == Done && |body| == 24 && d.pull.Some? && d.pull.value.header == body && d.pull.value.n == 0
  {
    hide Encode, Frame, PushRc, BuildTAuth;
  }

  lemma RecordReads(cr: Suite, c: Ctx, ct: bytes, before: bytes, p: Place)
    requires c.hs == Done && ReadTo(c, before, p)
    ensures var d := OnRecord(cr, c, ct); !Stopped(d) ==> d.hs == Done && d.pull == Some(c.pull.value.(n := c.pull.value.n + 1))
  {
    var d := c.(pull := Some(c.pull.value.(n := c.pull.value.n + 1)));
    var plain := RecordCases(cr, c, ct);
    RecordKeepsSession(cr, c, ct);
    hide OnRecord, SameSession;
    if plain != [] { Q.PlainKeepsPull(cr, d, plain); }
    hide OnPlain;
  }

  lemma LimitIsWord(c: Ctx)
    ensures Limit(c) < U32
  {
  }

  lemma {:induction false} ProcessProves(cr: Suite, s: Side, heard: bytes, before: bytes) returns (after: bytes)
    requires Evidence(cr, s.c, heard) && Reads(s, heard, before)
    ensures Evidence(cr, Process(cr, s).c, heard) && Reads(Process(cr, s), heard, after)
    decreases |s.inp|
  {
    hide OnFrame, Parse, Limit, Evidence, Frame, Legal, ReadSoFar;
    EvidenceStarted(cr, s.c, heard);
    after := before;
    var r := Parse(s.inp, Limit(s.c));
    if !Stopped(s.c) {
      if r.BadFrame? {
        KeepsEvidence(cr, s.c, Fail(s.c, ErrProtocol), heard);
      } else if r.Framed? {
        var d, rest := OnFrame(cr, s.c, r.body), s.inp[r.consumed..];
        LimitIsWord(s.c);
        ParsedIsFrame(s.inp, Limit(s.c));
        assert heard == (before + Frame(r.body)) + rest;
        FrameProves(cr, s.c, r.body, before, heard);
        FrameReads(cr, s.c, r.body, before);
        if d.state != Error {
          after := ProcessProves(cr, Side(d, rest), heard, before + Frame(r.body));
        }
      }
    }
  }

  lemma EvidenceStarted(cr: Suite, c: Ctx, heard: bytes)
    requires Evidence(cr, c, heard)
    ensures c.hs != Start
  {
  }

  lemma FeedProves(cr: Suite, s: Side, data: bytes, heard: bytes, before: bytes) returns (after: bytes)
    requires Evidence(cr, s.c, heard) && Reads(s, heard, before)
    ensures var heard' := heard + data[..Taken(s, data)]; var d := Feed(cr, s, data);
      Evidence(cr, d.c, heard') && Reads(d, heard', after)
  {
    hide Process, Evidence, ReadSoFar;
    after := before;
    var taken := data[..Taken(s, data)];
    HeardMore(cr, s.c, heard, taken);
    if taken == [] {
      assert heard + taken == heard;
    } else {
      var fed := s.(inp := s.inp + taken);
      assert heard + taken == before + fed.inp;
      after := ProcessProves(cr, fed, heard + taken, before);
    }
  }

  lemma {:induction false} RunProves(cr: Suite, s: Side, ops: seq<Op>, heard: bytes, before: bytes)
    requires Evidence(cr, s.c, heard) && Reads(s, heard, before)
    ensures Evidence(cr, RunOps(cr, s, ops).c, heard + Heard(cr, s, ops))
    decreases |ops|
  {
    hide Do, Evidence, Reads, Ear, RunOps, Heard;
    RunParts(cr, s, ops, heard);
    if ops != [] {
      var after := DoProves(cr, s, ops[0], heard, before);
      RunProves(cr, Do(cr, s, ops[0]), ops[1..], heard + Ear(s, ops[0]), after);
    }
  }

  lemma RunParts(cr: Suite, s: Side, ops: seq<Op>, heard: bytes)
    ensures if ops == [] then RunOps(cr, s, ops) == s && heard + Heard(cr, s, ops) == heard
      else
        var d := Do(cr, s, ops[0]);
        RunOps(cr, s, ops) == RunOps(cr, d, ops[1..])
        && heard + Heard(cr, s, ops) == (heard + Ear(s, ops[0])) + Heard(cr, d, ops[1..])
  {
    hide Do, Ear;
    if ops != [] {
      var rest := Heard(cr, Do(cr, s, ops[0]), ops[1..]);
      assert Heard(cr, s, ops) == Ear(s, ops[0]) + rest;
    }
  }

  lemma DoProves(cr: Suite, s: Side, op: Op, heard: bytes, before: bytes) returns (after: bytes)
    requires Evidence(cr, s.c, heard) && Reads(s, heard, before)
    ensures var heard' := heard + Ear(s, op); var d := Do(cr, s, op);
      Evidence(cr, d.c, heard') && Reads(d, heard', after)
  {
    hide Evidence, Process, Taken, ReadSoFar;
    after := before;
    if op.OpFeed? {
      after := FeedProves(cr, s, op.data, heard, before);
    } else {
      assert heard + [] == heard;
      var d := Do(cr, s, op).c;
      StillThere(cr, s, op);
      KeepsEvidence(cr, s.c, d, heard);
      SameRead(s.c, d, before);
    }
  }

  /** Short of input, an operation leaves what has been read where it is. */
  lemma StillThere(cr: Suite, s: Side, op: Op)
    requires !op.OpFeed?
    ensures var d := Do(cr, s, op).c; Keeps(s.c, d) && d.pull == s.c.pull && (!Stopped(d) ==> !Stopped(s.c))
  {
    match op {
      case OpCall(call) =>
        CallAddsNothing(cr, s.c, call);
        CallRevivesNothing(cr, s.c, call);
        hide CallOutcome, Keeps, T.Change;
      case OpDecide(accept, claims) => DecideAddsNothing(cr, s.c, accept, claims); hide Keeps, PushRc, Encode;
      case OpOutput(max) =>
    }
  }

  lemma SameRead(c: Ctx, d: Ctx, before: bytes)
    requires d.hs == c.hs && d.pull == c.pull
    ensures ReadSoFar(c, before) ==> ReadSoFar(d, before)
  {
    hide Frame, Before;
    if ReadSoFar(c, before) && c.hs == Done {
      var p: Place :| ReadTo(c, before, p);
      assert ReadTo(d, before, p);
    }
  }

  lemma CallRevivesNothing(cr: Suite, c: Ctx, call: Call)
    ensures Stopped(c) ==> Stopped(HostCall(cr, c, call).0)
  {
    hide PushRc, Segments, T.Change;
  }

  /** What authentication means for a session c that has taken the bytes heard and made so many decisions. */
  ghost predicate Sincere(cr: Suite, c: Ctx, heard: bytes, decisions: nat, accepts: nat) {
    && (c.id.role == Client && (1 <= Rank(c.state) <= 4 || c.hs != WaitPeerHello) ==>
          ServerProven(cr, c, heard) && c.peerId == c.serverPk)
    && (c.id.role == Server && (Claimed(c) || c.state == Ready) ==> DeviceProven(cr, c, heard))
    && decisions <= 1
    && (c.id.role == Server && c.state == Ready ==> decisions == accepts == 1)
    && (forall i :: 0 <= i < |c.table.slots| && (c.table.slots[i].state == Opening || c.table.slots[i].state == Opened) ==>
          c.auth.complete)
  }

  lemma RunIsSincere(cr: Suite, s: Side, ops: seq<Op>, heard: bytes, before: bytes)
    requires StreamLaw(cr) && Inv(s.c) && Evidence(cr, s.c, heard) && Reads(s, heard, before) && !s.c.auth.complete && !s.c.auth.decided
    ensures Sincere(cr, RunOps(cr, s, ops).c, heard + Heard(cr, s, ops), CountDecisions(cr, s, ops), CountAccepts(cr, s, ops))
    ensures Forward(s.c, RunOps(cr, s, ops).c)
  {
    hide RunOps, CountAccepts, CountDecisions, StreamLaw, Evidence, Inv, Reads, Heard;
    RunsKeep(cr, s, ops);
    RunProves(cr, s, ops, heard, before);
    AcceptsDecide(cr, s, ops);
    var c := RunOps(cr, s, ops).c;
    EvidenceTells(cr, c, heard + Heard(cr, s, ops));
    InvTells(c);
    hide ServerProven, DeviceProven;
  }

  lemma InvTells(c: Ctx)
    requires Inv(c)
    ensures (1 <= Rank(c.state) <= 4 ==> c.hs != WaitPeerHello) && (c.state == Ready ==> c.auth.complete)
    ensures forall i :: 0 <= i < |c.table.slots| && (c.table.slots[i].state == Opening || c.table.slots[i].state == Opened) ==> c.auth.complete
  {
    hide T.Counted, Wiped;
  }

  /**
   * Authentication, over every run of a created session against any peer.  A
   * client past HELLO has taken, as its first frame, a HELLO of its pinned
   * server whose signature verifies over a transcript with the client's own
   * ephemeral.  A server that awaits a decision, has made one or is READY has
   * taken a record that opened to an AUTH_DEVICE signed over its own
   * transcript, and told its host that key, user and device; it is READY only
   * by one successful decision, the one that accepted.
   */
  lemma Authentication(cr: Suite, id: Ident, serverPk: Option<Key32>, ephSk: Key32, header: Header24, ops: seq<Op>)
    requires StreamLaw(cr) && Creatable(id, serverPk)
    ensures var s := Create(cr, id, serverPk, ephSk, header).value;
      var c := RunOps(cr, s, ops).c;
      && c.id == id && (id.role == Server || !id.acceptAny ==> c.serverPk == serverPk)
      && Sincere(cr, c, Heard(cr, s, ops), CountDecisions(cr, s, ops), CountAccepts(cr, s, ops))
  {
    var s := Create(cr, id, serverPk, ephSk, header).value;
    CreatedIsSound(cr, id, serverPk, ephSk, header);
    CreatedHears(cr, id, serverPk, ephSk, header);
    hide Create, RunOps, CountAccepts, CountDecisions, StreamLaw, Evidence, Reads, Sincere, Stored, Heard;
    RunIsSincere(cr, s, ops, [], []);
    assert [] + Heard(cr, s, ops) == Heard(cr, s, ops);
  }

  lemma CreatedHears(cr: Suite, id: Ident, serverPk: Option<Key32>, ephSk: Key32, header: Header24)
    requires Creatable(id, serverPk)
    ensures var s := Create(cr, id, serverPk, ephSk, header).value; Evidence(cr, s.c, []) && Reads(s, [], [])
  {
    hide EncodeHello, Frame, BuildTHello;
  }

  lemma EvidenceTells(cr: Suite, c: Ctx, heard: bytes)
    requires Evidence(cr, c, heard)
    ensures c.id.role == Client && c.hs != WaitPeerHello ==> ServerProven(cr, c, heard) && c.peerId == c.serverPk
    ensures c.id.role == Server && Claimed(c) ==> DeviceProven(cr, c, heard)
  {
    hide BuildTHello, Frame, EncodeHello, DeviceProven;
  }

  /** An accept is a decision. */
  lemma {:induction false} AcceptsDecide(cr: Suite, s: Side, ops: seq<Op>)
    ensures CountAccepts(cr, s, ops) <= CountDecisions(cr, s, ops)
    decreases |ops|
  {
    hide Do, Decides;
    if ops != [] { AcceptsDecide(cr, Do(cr, s, ops[0]), ops[1..]); }
  }
}
