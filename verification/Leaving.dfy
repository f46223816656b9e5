/**
 * When a host may disconnect: for a pair reached by a careful run, leaving is
 * safe exactly when the side is not in AUTH, or the server's client is gone.
 */
module Leaving {
  import opened Base
  import opened Mux
  import opened Wire
  import opened WirePdu
  import opened Transcript
  import opened Crypto
  import opened Engine
  import opened EngineCalls
  import opened EngineInput
  import opened EngineKeys
  import opened Pair
  import opened PairRun
  import opened Handshake
  import opened Lifetime
  import L = EngineLife
  import P = EngineProof
  import G = NetBinding
  import N = Net
  import S = NetSafety
  import T = Table

  predicate Well(n: Pair) {
    n.a.c.state != Error && n.b.c.state != Error
  }

  /** No careful run from here leads to ERROR. */
  ghost predicate Safe(cr: Suite, n: Pair) {
    forall moves: seq<Move> :: CarefulRun(cr, n, moves) && IdsLeft(Run(cr, n, moves)) ==> Well(Run(cr, n, moves))
  }

  // ------------------------------------------------------------------
  // Leaving safely
  // ------------------------------------------------------------------

  /** A pair on a careful run. */
  ghost predicate OnCourse(cr: Suite, n: Pair) {
    (Greeting(cr, n) && Sized(n)) || Channelled(cr, n, true)
  }

  lemma OnCourseIsWell(cr: Suite, n: Pair, moves: seq<Move>)
    requires Ideal(cr) && OnCourse(cr, n) && CarefulRun(cr, n, moves) && IdsLeft(Run(cr, n, moves))
    ensures Well(Run(cr, n, moves))
  {
    hide Greeting, Channelled, Ideal, Run, CarefulRun;
    if Channelled(cr, n, true) { IdealStream(cr); ChannelledRun(cr, n, true, moves); } else { LifeRun(cr, n, moves); }
    if Channelled(cr, Run(cr, n, moves), true) { ChannelledIsWell(cr, Run(cr, n, moves)); } else { GreetingIsWell(cr, Run(cr, n, moves)); }
  }

  lemma RunOneMore(cr: Suite, n: Pair, move: Move, moves: seq<Move>)
    ensures Run(cr, n, [move] + moves) == Run(cr, Step(cr, n, move), moves)
    ensures CarefulRun(cr, n, [move] + moves) == (CarefulMove(n, move) && CarefulRun(cr, Step(cr, n, move), moves))
  {
    assert ([move] + moves)[1..] == moves;
    hide Step, CarefulMove;
  }

  lemma CarefulIsSafe(cr: Suite, n: Pair, move: Move)
    requires Ideal(cr) && OnCourse(cr, n) && CarefulMove(n, move)
    ensures Safe(cr, Step(cr, n, move))
  {
    hide Ideal, OnCourse, Step, Run, CarefulRun, CarefulMove, Well;
    forall moves: seq<Move> | CarefulRun(cr, Step(cr, n, move), moves) && IdsLeft(Run(cr, Step(cr, n, move), moves))
      ensures Well(Run(cr, Step(cr, n, move), moves))
    {
      RunOneMore(cr, n, move, moves);
      OnCourseIsWell(cr, n, [move] + moves);
    }
  }

  // ------------------------------------------------------------------
  // A server whose client is gone
  // ------------------------------------------------------------------

  /** The client has left and nothing of it is on its way; the server has nothing to decide. */
  predicate Alone(n: Pair) {
    && n.b.c.state == Closed && n.b.c.id.role == Client && n.b.c.out == [] && n.ba == []
    && n.a.c.state != Error && n.a.c.state != Hello && n.a.c.state != SsHeader && !n.a.c.auth.awaiting
  }

  lemma CallState(cr: Suite, c: Ctx, call: Call)
    ensures var d := HostCall(cr, c, call).0; d.auth == c.auth && (d.state == c.state || d.state == Draining || d.state == Closed)
  {
    L.CallFits(c, call);
    hide CallOutcome, T.Change, L.Fits;
  }

  lemma AloneStep(cr: Suite, n: Pair, move: Move)
    requires Alone(n)
    ensures Alone(Step(cr, n, move))
  {
    match move {
      case MoveA(Calls(call)) => CallState(cr, n.a.c, call); hide HostCall, IdsBetween, Noted;
      case MoveA(Decides(accept, claims)) => hide SsSend;
      case MoveA(Gives(max)) =>
      case MoveA(Takes(k)) => var t := TakeIs(cr, n, k); hide ActA, Process, IdsUsed;
      case MoveB(Calls(call)) => EarlyCall(cr, Flip(n), call); hide ActA;
      case MoveB(Decides(accept, claims)) => hide SsSend;
      case MoveB(Gives(max)) =>
      case MoveB(Takes(k)) => var t := TakeIs(cr, Flip(n), k); hide ActA, Process, IdsUsed;
    }
  }

  lemma {:induction false} AloneRun(cr: Suite, n: Pair, moves: seq<Move>)
    requires Alone(n)
    ensures Alone(Run(cr, n, moves))
    decreases |moves|
  {
    hide Step, Alone;
    if moves != [] {
      AloneStep(cr, n, moves[0]);
      AloneRun(cr, Step(cr, n, moves[0]), moves[1..]);
    }
  }

  /** In phase 3 a client may be gone, and then the server is alone. */
  lemma ThreeIsAlone(cr: Suite, n: Pair, claims: bytes)
    requires AtPhase(cr, n, 3, claims) && n.b.c.state == Closed
    ensures Alone(n)
  {
    assert n.a.inp + n.ba + n.b.c.out == [];
    hide Keys, Transcripted, DevicePdu, Settled, Frame;
  }

  lemma AloneIsSafe(cr: Suite, n: Pair, move: Move)
    requires Alone(n)
    ensures Safe(cr, Step(cr, n, move))
  {
    hide Step, Run, CarefulRun;
    forall moves: seq<Move> | CarefulRun(cr, Step(cr, n, move), moves) && IdsLeft(Run(cr, Step(cr, n, move), moves))
      ensures Well(Run(cr, Step(cr, n, move), moves))
    {
      AloneStep(cr, n, move);
      AloneRun(cr, Step(cr, n, move), moves);
    }
  }

  // ------------------------------------------------------------------
  // Delivering everything
  // ------------------------------------------------------------------

  lemma GiveAll(cr: Suite, n: Pair)
    ensures ActA(cr, n, Gives(|n.a.c.out|)) == n.(a := n.a.(c := n.a.c.(out := [])), ab := n.ab + n.a.c.out)
  {
  }

  /** A running side takes all that is on its link, or as much as its buffer holds. */
  lemma TakeAll(cr: Suite, n: Pair)
    requires !Stopped(n.a.c) && |n.a.inp| < IN_BUF_SIZE && n.ba != []
    ensures var s := n.a.(inp := Buffered(n.a.inp + n.ba)); var d := ActA(cr, n, Takes(|n.ba|));
      d.a == Process(cr, s) && d.b == n.b && d.na == n.na + IdsUsed(cr, s) && d.nb == n.nb
  {
    hide Process, IdsUsed;
    var data := n.ba[..|n.ba|];
    assert data == n.ba;
    var t := Taken(n.a, data);
    assert n.a.inp + data[..t] == Buffered(n.a.inp + n.ba);
  }

  function Buffered(way: bytes): bytes {
    way[..Min(|way|, IN_BUF_SIZE)]
  }

  /** A gives all it has, and B takes it. */
  function Emptying(n: Pair): seq<Move> {
    [MoveA(Gives(|n.a.c.out|)), MoveB(Takes(|n.ab| + |n.a.c.out|))]
  }

  function EmptyingBack(n: Pair): seq<Move> {
    [MoveB(Gives(|n.b.c.out|)), MoveA(Takes(|n.ba| + |n.b.c.out|))]
  }

  predicate Harmless(move: Move) {
    move.w.Gives? || move.w.Takes?
  }

  lemma RunTwo(cr: Suite, n: Pair, x: Move, y: Move)
    requires Harmless(x) && Harmless(y)
    ensures Run(cr, n, [x, y]) == Step(cr, Step(cr, n, x), y) && CarefulRun(cr, n, [x, y])
  {
    hide Step;
    assert [x, y][1..] == [y] && [y][1..] == [];
    var d := Step(cr, Step(cr, n, x), y);
    assert Run(cr, d, []) == d && CarefulRun(cr, d, []);
    assert Run(cr, Step(cr, n, x), [y]) == d && CarefulRun(cr, Step(cr, n, x), [y]);
  }

  lemma GiveThenTake(cr: Suite, n: Pair)
    requires !Stopped(n.b.c) && |n.b.inp| < IN_BUF_SIZE && n.ab + n.a.c.out != []
    ensures var s := n.b.(inp := Buffered(n.b.inp + n.ab + n.a.c.out));
      var d := ActA(cr, Flip(ActA(cr, n, Gives(|n.a.c.out|))), Takes(|n.ab| + |n.a.c.out|));
      d.a == Process(cr, s) && d.nb == n.na && d.na == n.nb + IdsUsed(cr, s)
  {
    hide ActA, Process, IdsUsed, Buffered;
    GiveAll(cr, n);
    var n' := Flip(n.(a := n.a.(c := n.a.c.(out := [])), ab := n.ab + n.a.c.out));
    assert n.b.inp + n.ab + n.a.c.out == n'.a.inp + n'.ba;
    TakeAll(cr, n');
  }

  lemma Emptied(cr: Suite, n: Pair)
    requires !Stopped(n.b.c) && |n.b.inp| < IN_BUF_SIZE && n.ab + n.a.c.out != []
    ensures CarefulRun(cr, n, Emptying(n))
    ensures var s := n.b.(inp := Buffered(n.b.inp + n.ab + n.a.c.out)); var d := Run(cr, n, Emptying(n));
      d.b == Process(cr, s) && d.na == n.na && d.nb == n.nb + IdsUsed(cr, s)
  {
    hide ActA, Process, IdsUsed, Run, CarefulRun, Buffered;
    RunTwo(cr, n, Emptying(n)[0], Emptying(n)[1]);
    GiveThenTake(cr, n);
  }

  lemma EmptiedBack(cr: Suite, n: Pair)
    requires !Stopped(n.a.c) && |n.a.inp| < IN_BUF_SIZE && n.ba + n.b.c.out != []
    ensures CarefulRun(cr, n, EmptyingBack(n))
    ensures var s := n.a.(inp := Buffered(n.a.inp + n.ba + n.b.c.out)); var d := Run(cr, n, EmptyingBack(n));
      d.a == Process(cr, s) && d.nb == n.nb && d.na == n.na + IdsUsed(cr, s)
  {
    hide ActA, Process, IdsUsed, Run, CarefulRun, Buffered;
    RunTwo(cr, n, EmptyingBack(n)[0], EmptyingBack(n)[1]);
    GiveThenTake(cr, Flip(n));
  }

  // ------------------------------------------------------------------
  // The record that is fatal
  // ------------------------------------------------------------------

  /** A DISCONNECT in AUTH, or an AUTH_OK in DRAINING. */
  predicate Untimely(c: Ctx, m: Pdu) {
    && Legal(m) && PduLen(m) <= c.id.cfg.maxRecord && PduLen(m) <= 3 + CLAIMS_MAX
    && ((c.state == Auth && m.Disconnect?) || (c.state == Draining && m.AuthOk?))
  }

  lemma UntimelyFails(cr: Suite, c: Ctx, m: Pdu)
    requires StreamLaw(cr) && c.pull.Some? && Untimely(c, m)
    ensures OnRecord(cr, c, cr.seal(c.pull.value, TAG_MESSAGE, Encode(m))).state == Error
  {
    SealedOpens(cr, c, m);
    TypeByte(m);
    OnMuxIs(cr, c.(pull := Some(Later(c.pull.value, 1))), m);
    hide StreamLaw, OnRecord, Encode, OnMux, SinkOf, T.Look, T.CanAlloc;
  }

  /** At the head of what a side buffers it is the end of the session, whatever follows. */
  lemma FatalHead(cr: Suite, c: Ctx, m: Pdu, x: bytes)
    requires StreamLaw(cr) && c.hs == Done && c.pull.Some? && Untimely(c, m)
    ensures var s := Side(c, SealFrame(cr, c.pull.value, m) + x); Process(cr, s).c.state == Error && IdsUsed(cr, s) == 0
  {
    var ct := cr.seal(c.pull.value, TAG_MESSAGE, Encode(m));
    UntimelyFails(cr, c, m);
    UntimelyFrame(cr, c, m, x);
    hide OnRecord, Encode, Frame, SealFrame, Parse, StreamLaw, Untimely, Limit;
    ParseFrame(ct, x, Limit(c));
  }

  lemma UntimelyFrame(cr: Suite, c: Ctx, m: Pdu, x: bytes)
    requires StreamLaw(cr) && c.hs == Done && c.pull.Some? && Untimely(c, m)
    ensures var ct := cr.seal(c.pull.value, TAG_MESSAGE, Encode(m));
      LegalBody(ct, Limit(c)) && SealFrame(cr, c.pull.value, m) == Frame(ct) && !Stopped(c)
  {
    assert PduLen(m) > 0 && PduLen(m) + SS_ABYTES <= FrameMaxBody(c.id.cfg.maxRecord);
    SealedLength(cr, c.pull.value, m, c.id.cfg.maxRecord);
    hide Encode, StreamLaw, PutU32, PduLen, Legal;
  }

  /** A whole frame that is handled leaves the rest of the buffer. */
  lemma ProcessFirst(cr: Suite, c: Ctx, body: bytes, rest: bytes)
    requires !Stopped(c) && LegalBody(body, Limit(c)) && OnFrame(cr, c, body).state != Error
    ensures var s, t := Side(c, Frame(body) + rest), Side(OnFrame(cr, c, body), rest);
      Process(cr, s) == Process(cr, t) && IdsUsed(cr, s) == IdsBetween(c, OnFrame(cr, c, body)) + IdsUsed(cr, t)
  {
    hide OnFrame, Frame, Limit, Parse;
    ParseFrame(body, rest, Limit(c));
  }

  // ------------------------------------------------------------------
  // Leaving in AUTH
  // ------------------------------------------------------------------

  function Goodbye(reason: u32, msg: bytes): (p: Pdu)
    ensures Legal(p) && p.Disconnect? && PduLen(p) <= 70
  {
    Disconnect(reason, msg[..Min(|msg|, 64)])
  }

  /** The DISCONNECT of a side in AUTH fits, and is its next record. */
  lemma SaysGoodbye(cr: Suite, c: Ctx, reason: u32, msg: bytes)
    requires StreamLaw(cr) && c.state == Auth && c.push.Some? && |c.out| <= 4096 && c.id.cfg.maxRecord >= 3 + CLAIMS_MAX
    ensures var p := Goodbye(reason, msg);
      HostCall(cr, c, CallDisconnect(reason, msg)).0 ==
        c.(state := Draining, out := c.out + SealFrame(cr, c.push.value, p), push := Some(Later(c.push.value, 1)))
  {
    var p, o := Goodbye(reason, msg), CallOutcome(c, CallDisconnect(reason, msg));
    assert PushRc(c.id.cfg, SinkOf(c), PduLen(p)) == Ok;
    assert o == Outcome(Ok, Draining, Keep, [p], []);
    hide CallOutcome, Encode, PutU32;
    assert c.log + [] == c.log;
  }

  /** One more record on the way. */
  lemma GoodbyeOnWay(cr: Suite, n: Pair, reason: u32, msg: bytes)
    requires StreamLaw(cr) && n.a.c.state == Auth && n.a.c.push.Some? && |n.a.c.out| <= 4096 && n.a.c.id.cfg.maxRecord >= 3 + CLAIMS_MAX
    ensures var n' := ActA(cr, n, Calls(CallDisconnect(reason, msg))); var f := SealFrame(cr, n.a.c.push.value, Goodbye(reason, msg));
      && n'.b == n.b && n'.ab == n.ab && n'.na == n.na && n'.nb == n.nb
      && n'.b.inp + n'.ab + n'.a.c.out == (n.b.inp + n.ab + n.a.c.out) + f && n'.a.c.out != []
  {
    SaysGoodbye(cr, n.a.c, reason, msg);
    IdsBetweenSame(n.a.c, HostCall(cr, n.a.c, CallDisconnect(reason, msg)).0);
    hide HostCall, IdsBetween, Goodbye, Encode;
  }

  lemma ShortWay(cr: Suite, st: Stream, reason: u32, msg: bytes, way: bytes)
    requires StreamLaw(cr) && |way| <= 4096
    ensures var full := way + SealFrame(cr, st, Goodbye(reason, msg)); Buffered(full) == full
  {
    var p := Goodbye(reason, msg);
    assert |SealFrame(cr, st, p)| == 4 + PduLen(p) + SS_ABYTES by { hide Encode, PutU32; }
    hide SealFrame, Goodbye;
  }

  /** Delivering to B what is in flight, which is careful, ends B in ERROR. */
  predicate EndsB(cr: Suite, n: Pair) {
    CarefulRun(cr, n, Emptying(n)) && IdsLeft(Run(cr, n, Emptying(n))) && Run(cr, n, Emptying(n)).b.c.state == Error
  }

  predicate EndsA(cr: Suite, n: Pair) {
    CarefulRun(cr, n, EmptyingBack(n)) && IdsLeft(Run(cr, n, EmptyingBack(n))) && Run(cr, n, EmptyingBack(n)).a.c.state == Error
  }

  lemma EndingIsUnsafe(cr: Suite, n: Pair)
    requires EndsA(cr, n) || EndsB(cr, n)
    ensures !Safe(cr, n)
  {
  }

  /** What phases 3 to 5 say of both sides. */
  lemma AuthPhase(cr: Suite, n: Pair, k: nat, claims: bytes)
    requires StreamLaw(cr) && AtPhase(cr, n, k, claims) && 3 <= k <= 5
    ensures var a, b, s2c, c2s := n.a.c, n.b.c, S2c(cr, n.a.c, n.b.c), C2s(cr, n.a.c, n.b.c);
      && a.state == Auth && a.hs == Done && a.push == Some(s2c) && a.pull == Some(Later(c2s, if k <= 4 then 0 else 1))
      && a.id.cfg.maxRecord >= 3 + CLAIMS_MAX && b.id.cfg.maxRecord >= 3 + CLAIMS_MAX
      && (b.state == SsHeader || b.state == Auth || b.state == Closed) && (b.state == Auth <==> k >= 4)
      && (k >= 4 ==> b.hs == Done && b.push == Some(Later(c2s, 1)) && b.pull == Some(s2c))
      && n.na == 0 && n.nb == 0
      && |n.b.inp + n.ab + a.out| <= 4096 && |n.a.inp + n.ba + b.out| <= 4096
      && (k >= 4 ==> n.b.inp + n.ab + a.out == []) && (k == 5 ==> n.a.inp + n.ba + b.out == [])
      && (k == 3 ==> n.b.inp + n.ab + a.out != []) && (k == 4 ==> n.a.inp + n.ba + b.out != [])
  {
    PhaseWays(cr, n, k, claims);
    hide Keys, Transcripted, Settled, DevicePdu, Frame, SealFrame, StreamLaw;
  }

  lemma PhaseWays(cr: Suite, n: Pair, k: nat, claims: bytes)
    requires StreamLaw(cr) && AtPhase(cr, n, k, claims) && 3 <= k <= 5
    ensures |ToClient(cr, n.a.c, n.b.c, k, claims)| <= 4096 && |ToServer(cr, n.a.c, n.b.c, k)| <= 4096
    ensures (k == 3 ==> ToClient(cr, n.a.c, n.b.c, k, claims) != []) && (k == 4 ==> ToServer(cr, n.a.c, n.b.c, k) != [])
  {
    hide Keys, Transcripted, ServerAt, ClientAt, Settled, PutU32, PutU16;
    if k == 4 { assert |SealFrame(cr, C2s(cr, n.a.c, n.b.c), DevicePdu(cr, n.a.c, n.b.c))| <= 4 + 3 + CLAIMS_MAX + SS_ABYTES; }
  }

  /** A client that is waiting or in AUTH and is sent the server's goodbye ends in ERROR. */
  lemma ClientMeetsGoodbye(cr: Suite, n: Pair, k: nat, claims: bytes, p: Pdu)
    requires Ideal(cr) && AtPhase(cr, n, k, claims) && 3 <= k <= 5 && n.b.c.state != Closed
    requires Legal(p) && p.Disconnect? && PduLen(p) <= 70
    ensures var way := n.b.inp + n.ab + n.a.c.out + SealFrame(cr, S2c(cr, n.a.c, n.b.c), p);
      Process(cr, Side(n.b.c, way)).c.state == Error && IdsUsed(cr, Side(n.b.c, way)) == 0
  {
    IdealStream(cr);
    AuthPhase(cr, n, k, claims);
    var b, st := n.b.c, S2c(cr, n.a.c, n.b.c);
    var f := SealFrame(cr, st, p);
    assert f + [] == f && [] + f == f;
    if k == 3 {
      ClientDue(cr, n, k, claims);
      var body := ClientBody(cr, n.a.c, b, k, claims);
      var e := OnFrame(cr, b, body);
      NowInAuth(cr, n.a.c, b, e, claims);
      hide AtPhase, ClientMoved, OnFrame, SealFrame, ClientBody, S2c, Frame, Process, IdsUsed, IdsBetween, Limit, Ideal, StreamLaw, ClientAt;
      ProcessFirst(cr, b, body, f);
      FatalHead(cr, e, p, []);
    } else {
      hide AtPhase, SealFrame, S2c, Process, IdsUsed, Ideal, StreamLaw;
      FatalHead(cr, b, p, []);
    }
  }

  lemma NowInAuth(cr: Suite, a: Ctx, b: Ctx, e: Ctx, claims: bytes)
    requires Suited(cr, a, b) && ClientMoved(cr, a, b, e, 3, claims)
    ensures e.hs == Done && e.state == Auth && e.pull == Some(S2c(cr, a, b)) && e.id == b.id
  {
    RootsKept(cr, a, a, b, e) by { hide Keys, Transcripted, DevicePdu, ToServer, ToClient, ServerAt, ClientAt; }
    hide Keys, Transcripted, DevicePdu, ToServer, ToClient, ServerAt;
  }

  /** So does a server in AUTH that is sent the client's. */
  lemma ServerMeetsGoodbye(cr: Suite, n: Pair, k: nat, claims: bytes, p: Pdu)
    requires Ideal(cr) && AtPhase(cr, n, k, claims) && 4 <= k <= 5
    requires Legal(p) && p.Disconnect? && PduLen(p) <= 70
    ensures var way := n.a.inp + n.ba + n.b.c.out + SealFrame(cr, Later(C2s(cr, n.a.c, n.b.c), 1), p);
      Process(cr, Side(n.a.c, way)).c.state == Error && IdsUsed(cr, Side(n.a.c, way)) == 0
  {
    IdealStream(cr);
    AuthPhase(cr, n, k, claims);
    var a, st := n.a.c, Later(C2s(cr, n.a.c, n.b.c), 1);
    var f := SealFrame(cr, st, p);
    assert f + [] == f && [] + f == f;
    if k == 4 {
      ServerDue(cr, n, k, claims);
      var body := ServerBody(cr, a, n.b.c, k);
      var e := OnFrame(cr, a, body);
      NowAwaiting(cr, a, e, n.b.c, claims);
      hide AtPhase, ServerMoved, OnFrame, SealFrame, ServerBody, C2s, Frame, Process, IdsUsed, IdsBetween, Limit, Ideal, StreamLaw, ServerAt;
      ProcessFirst(cr, a, body, f);
      FatalHead(cr, e, p, []);
    } else {
      hide AtPhase, SealFrame, C2s, Process, IdsUsed, Ideal, StreamLaw;
      FatalHead(cr, a, p, []);
    }
  }

  lemma NowAwaiting(cr: Suite, a: Ctx, e: Ctx, b: Ctx, claims: bytes)
    requires Suited(cr, a, b) && ServerMoved(cr, a, e, b, 4, claims)
    ensures e.hs == Done && e.state == Auth && e.pull == Some(Later(C2s(cr, a, b), 1)) && e.id == a.id
  {
    RootsKept(cr, a, e, b, b) by { hide Keys, Transcripted, DevicePdu, ToServer, ToClient, ServerAt, ClientAt; }
    hide Keys, Transcripted, DevicePdu, ToServer, ToClient, ClientAt, DeviceEvent;
  }

  /** A server that leaves in AUTH takes a client that is still there with it. */
  lemma ServerLeavingIsFatal(cr: Suite, n: Pair, k: nat, claims: bytes, reason: u32, msg: bytes)
    requires Ideal(cr) && AtPhase(cr, n, k, claims) && 3 <= k <= 5 && n.b.c.state != Closed
    ensures EndsB(cr, Step(cr, n, MoveA(Calls(CallDisconnect(reason, msg)))))
  {
    var n', p, st := ActA(cr, n, Calls(CallDisconnect(reason, msg))), Goodbye(reason, msg), S2c(cr, n.a.c, n.b.c);
    IdealStream(cr);
    AuthPhase(cr, n, k, claims);
    hide AtPhase, ActA, SealFrame, S2c, Process, IdsUsed, Ideal, StreamLaw, Run, CarefulRun, Goodbye, Buffered;
    GoodbyeOnWay(cr, n, reason, msg);
    ShortWay(cr, st, reason, msg, n.b.inp + n.ab + n.a.c.out);
    ClientMeetsGoodbye(cr, n, k, claims, p);
    Emptied(cr, n');
  }

  /** A client that leaves in AUTH before it is accepted takes the server with it. */
  lemma ClientLeavingIsFatal(cr: Suite, n: Pair, k: nat, claims: bytes, reason: u32, msg: bytes)
    requires Ideal(cr) && AtPhase(cr, n, k, claims) && 4 <= k <= 5
    ensures EndsA(cr, Step(cr, n, MoveB(Calls(CallDisconnect(reason, msg)))))
  {
    var n', p, st := Flip(ActA(cr, Flip(n), Calls(CallDisconnect(reason, msg)))), Goodbye(reason, msg), Later(C2s(cr, n.a.c, n.b.c), 1);
    IdealStream(cr);
    AuthPhase(cr, n, k, claims);
    hide AtPhase, ActA, SealFrame, C2s, Process, IdsUsed, Ideal, StreamLaw, Run, CarefulRun, Goodbye, Buffered;
    GoodbyeOnWay(cr, Flip(n), reason, msg);
    ShortWay(cr, st, reason, msg, n.a.inp + n.ba + n.b.c.out);
    ServerMeetsGoodbye(cr, n, k, claims, p);
    EmptiedBack(cr, n');
  }

  // ------------------------------------------------------------------
  // Leaving with AUTH_OK on its way
  // ------------------------------------------------------------------

  /** A client in AUTH among the channels: its AUTH_OK is the oldest PDU on its way. */
  lemma AcceptedUnawares(cr: Suite, n: Pair) returns (st: Stream, q: seq<Pdu>)
    requires Channelled(cr, n, true) && IdsLeft(n) && n.b.c.state == Auth
    ensures Framable(q) && q != [] && q[0].AuthOk? && PduLen(q[0]) <= n.b.c.id.cfg.maxRecord
    ensures n.b.inp + n.ab + n.a.c.out == Sealed(cr, st, q) && n.b.c.pull == Some(st) && n.b.c.push.Some? && n.b.c.hs == Done
  {
    var m0, moves, sab, sba :| Reached(cr, n, true, m0, moves, sab, sba);
    var m := N.Run(m0, moves);
    assert S.Begins(m0) && S.Compatible(m0) && S.CarefulRun(m0, moves) && Related(cr, n, m, sab, sba);
    st, q := sab, m.ab;
    hide S.Begins, S.Compatible, S.CarefulRun, N.Run, T.Shows, Sealed;
    RunIsLegible(m0, moves);
    assert m.b.state == Auth && m.ab != [] && m.ab[0].AuthOk?;
  }

  lemma RunIsLegible(m: N.Net, moves: seq<N.Move>)
    requires S.Begins(m) && S.Compatible(m) && S.CarefulRun(m, moves) && G.IdsLeft(N.Run(m, moves))
    ensures S.Legible(N.Run(m, moves))
  {
    hide S.Begins, S.Compatible, S.CarefulRun, N.Run, S.Lawful;
    S.BeginLawful(m);
    S.RunSound(m, moves);
  }

  lemma ChannelledServer(cr: Suite, n: Pair)
    requires Channelled(cr, n, true)
    ensures n.a.c.state != Auth
  {
    var m0, moves, sab, sba :| Reached(cr, n, true, m0, moves, sab, sba);
    RolesStay(m0, moves);
    hide N.Run, T.Shows, Sends;
  }

  lemma {:induction false} RolesStay(m: N.Net, moves: seq<N.Move>)
    ensures N.Run(m, moves).a.role == m.a.role && N.Run(m, moves).b.role == m.b.role
    decreases |moves|
  {
    if moves != [] {
      RoleStays(m, moves[0]);
      hide N.Step;
      RolesStay(N.Step(m, moves[0]), moves[1..]);
    }
  }

  lemma RoleStays(m: N.Net, move: N.Move)
    ensures N.Step(m, move).a.role == m.a.role && N.Step(m, move).b.role == m.b.role
  {
    hide N.CallOutcome, N.ReceiveOutcome, N.NoteCall, N.NoteReceive;
  }

  /** As much of a sealed way as a buffer holds starts with the oldest record, whole. */
  lemma BufferedHead(cr: Suite, st: Stream, q: seq<Pdu>) returns (x: bytes)
    requires StreamLaw(cr) && Framable(q) && q != [] && PduLen(q[0]) <= 3 + CLAIMS_MAX
    ensures Buffered(Sealed(cr, st, q)) == SealFrame(cr, st, q[0]) + x
  {
    var f, rest := SealFrame(cr, st, q[0]), Sealed(cr, Later(st, 1), q[1..]);
    assert |f| == 4 + PduLen(q[0]) + SS_ABYTES by { hide Encode, PutU32; }
    assert Sealed(cr, st, q) == f + rest;
    hide SealFrame, Sealed;
    var way := Buffered(f + rest);
    assert way[..|f|] == f;
    x := way[|f|..];
  }

  lemma LeavesDraining(cr: Suite, c: Ctx, reason: u32, msg: bytes)
    requires c.state == Auth && c.push.Some?
    ensures var d := HostCall(cr, c, CallDisconnect(reason, msg)).0;
      d.state == Draining && d.id == c.id && d.hs == c.hs && d.pull == c.pull && d.table == c.table
  {
    hide PushRc, Encode, PutU32;
  }

  lemma LeavesLinks(cr: Suite, n: Pair, reason: u32, msg: bytes)
    requires n.a.c.state == Auth && n.a.c.push.Some?
    ensures var n' := ActA(cr, n, Calls(CallDisconnect(reason, msg))); var c, d := n.a.c, n'.a.c;
      && d.state == Draining && d.id == c.id && d.hs == c.hs && d.pull == c.pull
      && n'.a.inp == n.a.inp && n'.b == n.b && n'.ab == n.ab && n'.ba == n.ba && n'.na == n.na && n'.nb == n.nb
  {
    LeavesDraining(cr, n.a.c, reason, msg);
    IdsBetweenSame(n.a.c, HostCall(cr, n.a.c, CallDisconnect(reason, msg)).0);
    hide HostCall, IdsBetween;
  }

  /** A client that buffers an untimely record first is done for. */
  lemma MeetsUntimely(cr: Suite, n: Pair, m: Pdu, x: bytes)
    requires StreamLaw(cr) && n.b.c.hs == Done && n.b.c.pull.Some? && Untimely(n.b.c, m) && IdsLeft(n)
    requires |n.b.inp| < IN_BUF_SIZE && n.ab + n.a.c.out != []
    requires Buffered(n.b.inp + n.ab + n.a.c.out) == SealFrame(cr, n.b.c.pull.value, m) + x
    ensures EndsB(cr, n)
  {
    assert !Stopped(n.b.c);
    hide Process, IdsUsed, StreamLaw, Run, CarefulRun, Buffered, Untimely, SealFrame;
    FatalHead(cr, n.b.c, m, x);
    Emptied(cr, n);
  }

  /** A client that leaves as it is accepted meets the AUTH_OK in DRAINING. */
  lemma AcceptedLeavingIsFatal(cr: Suite, n: Pair, reason: u32, msg: bytes)
    requires Ideal(cr) && Channelled(cr, n, true) && IdsLeft(n) && n.b.c.state == Auth && Settled(n.b)
    ensures EndsB(cr, Step(cr, n, MoveB(Calls(CallDisconnect(reason, msg)))))
  {
    IdealStream(cr);
    var st, q := AcceptedUnawares(cr, n);
    hide *;
    LeavesLinks(cr, Flip(n), reason, msg);
    var n' := Flip(ActA(cr, Flip(n), Calls(CallDisconnect(reason, msg))));
    assert Step(cr, n, MoveB(Calls(CallDisconnect(reason, msg)))) == n' by { StepB(cr, n, Calls(CallDisconnect(reason, msg))); }
    AcceptedGone(cr, n, n', st, q);
  }

  lemma StepB(cr: Suite, n: Pair, w: Doing)
    ensures Step(cr, n, MoveB(w)) == Flip(ActA(cr, Flip(n), w))
  {
  }

  lemma AcceptedGone(cr: Suite, n: Pair, n': Pair, st: Stream, q: seq<Pdu>)
    requires StreamLaw(cr) && Framable(q) && q != [] && q[0].AuthOk? && PduLen(q[0]) <= n.b.c.id.cfg.maxRecord && IdsLeft(n)
    requires n.b.inp + n.ab + n.a.c.out == Sealed(cr, st, q) && n.b.c.pull == Some(st) && n.b.c.hs == Done && n.b.c.state == Auth
    requires Settled(n.b) && n'.na == n.na && n'.nb == n.nb && n'.a == n.a && n'.ab == n.ab && n'.b.inp == n.b.inp
    requires n'.b.c.state == Draining && n'.b.c.id == n.b.c.id && n'.b.c.hs == Done && n'.b.c.pull == Some(st)
    ensures EndsB(cr, n')
  {
    assert Legal(q[0]) && PduLen(q[0]) <= 3 + CLAIMS_MAX && Untimely(n'.b.c, q[0]) && !Stopped(n.b.c);
    hide StreamLaw, Buffered, Settled, Sealed, SealFrame, Parse, Limit, Untimely, Legal, Framable, PduLen;
    ResidueIsShort(n.b);
    NotAllIn(cr, n, st, q);
    var x := BufferedHead(cr, st, q);
    MeetsUntimely(cr, n', q[0], x);
  }

  /** A side that waits has not got the oldest record whole. */
  lemma NotAllIn(cr: Suite, n: Pair, st: Stream, q: seq<Pdu>)
    requires StreamLaw(cr) && Framable(q) && q != [] && q[0].AuthOk? && PduLen(q[0]) <= n.b.c.id.cfg.maxRecord && n.b.c.hs == Done
    requires Settled(n.b) && !Stopped(n.b.c) && n.b.inp + n.ab + n.a.c.out == Sealed(cr, st, q)
    ensures n.ab + n.a.c.out != []
  {
    var ct := cr.seal(st, TAG_MESSAGE, Encode(q[0]));
    var rest := Sealed(cr, Later(st, 1), q[1..]);
    SealedHead(cr, st, q);
    assert LegalBody(ct, Limit(n.b.c)) by {
      assert PduLen(q[0]) <= 3 + CLAIMS_MAX;
      SealedLength(cr, st, q[0], n.b.c.id.cfg.maxRecord);
      hide Encode, StreamLaw;
    }
    if n.ab + n.a.c.out == [] {
      hide Sealed, Encode, Parse, Frame, StreamLaw, Limit;
      assert n.b.inp + n.ab + n.a.c.out == n.b.inp;
      ParseFrame(ct, rest, Limit(n.b.c));
    }
  }

  // ------------------------------------------------------------------
  // Buffers stay settled
  // ------------------------------------------------------------------

  lemma SameLimit(c: Ctx, d: Ctx)
    requires d.id == c.id && d.hs == c.hs
    ensures Limit(d) == Limit(c)
  {
  }

  lemma ActSettles(cr: Suite, n: Pair, w: Doing)
    requires Settled(n.a)
    ensures Settled(ActA(cr, n, w).a) && ActA(cr, n, w).b == n.b
  {
    match w {
      case Calls(call) =>
        CallKeepsSession(cr, n.a.c, call);
        P.CallRevivesNothing(cr, n.a.c, call);
        SameLimit(n.a.c, HostCall(cr, n.a.c, call).0);
        hide HostCall, Parse, Limit, IdsBetween, Noted;
      case Decides(accept, claims) =>
        DecideKeepsSession(cr, n.a.c, accept, claims);
        SameLimit(n.a.c, Decide(cr, n.a.c, accept, claims).0);
        hide SsSend, Parse, Limit;
      case Gives(max) => SameLimit(n.a.c, ActA(cr, n, w).a.c); hide Parse, Limit;
      case Takes(k) =>
        var t := TakeIs(cr, n, k);
        ProcessSettles(cr, n.a.(inp := n.a.inp + n.ba[..t]));
        hide ActA, Process, IdsUsed, Settled;
    }
  }

  lemma {:induction false} RunSettles(cr: Suite, n: Pair, moves: seq<Move>)
    requires Settled(n.a) && Settled(n.b)
    ensures Settled(Run(cr, n, moves).a) && Settled(Run(cr, n, moves).b)
    decreases |moves|
  {
    hide ActA, Settled;
    if moves != [] {
      match moves[0] {
        case MoveA(w) => ActSettles(cr, n, w);
        case MoveB(w) => ActSettles(cr, Flip(n), w);
      }
      RunSettles(cr, Step(cr, n, moves[0]), moves[1..]);
    }
  }

  // ------------------------------------------------------------------
  // Exactly when
  // ------------------------------------------------------------------

  lemma DisconnectIsCareful(n: Pair, reason: u32, msg: bytes)
    ensures n.a.c.state != Auth ==> CarefulMove(n, MoveA(Calls(CallDisconnect(reason, msg))))
    ensures n.b.c.state != Auth ==> CarefulMove(n, MoveB(Calls(CallDisconnect(reason, msg))))
  {
  }

  lemma LeavingServer(cr: Suite, n: Pair, reason: u32, msg: bytes)
    requires Ideal(cr) && OnCourse(cr, n)
    ensures Safe(cr, Step(cr, n, MoveA(Calls(CallDisconnect(reason, msg))))) <==> n.a.c.state != Auth || n.b.c.state == Closed
  {
    var move := MoveA(Calls(CallDisconnect(reason, msg)));
    DisconnectIsCareful(n, reason, msg);
    hide Ideal, Step, Safe, CarefulMove, AtPhase, Sized, Reached;
    if n.a.c.state != Auth {
      CarefulIsSafe(cr, n, move);
    } else {
      if Channelled(cr, n, true) { ChannelledServer(cr, n); }
      var k, claims :| k <= 5 && AtPhase(cr, n, k, claims);
      EarlyStates(cr, n, k, claims);
      if n.b.c.state == Closed {
        ThreeOrMore(cr, n, k, claims);
        ThreeIsAlone(cr, n, claims);
        AloneIsSafe(cr, n, move);
      } else {
        ServerLeavingIsFatal(cr, n, k, claims, reason, msg); EndingIsUnsafe(cr, Step(cr, n, move));
      }
    }
  }

  lemma ThreeOrMore(cr: Suite, n: Pair, k: nat, claims: bytes)
    requires AtPhase(cr, n, k, claims) && 3 <= k <= 5 && n.b.c.state == Closed
    ensures k == 3
  {
    hide Keys, DevicePdu, Settled, ToServer, ToClient, DeviceEvent;
  }

  lemma LeavingClient(cr: Suite, n: Pair, reason: u32, msg: bytes)
    requires Ideal(cr) && OnCourse(cr, n) && IdsLeft(n) && Settled(n.b)
    ensures Safe(cr, Step(cr, n, MoveB(Calls(CallDisconnect(reason, msg))))) <==> n.b.c.state != Auth
  {
    var move := MoveB(Calls(CallDisconnect(reason, msg)));
    DisconnectIsCareful(n, reason, msg);
    hide Ideal, Step, Safe, CarefulMove, AtPhase, Sized, Reached, Settled;
    if n.b.c.state != Auth {
      CarefulIsSafe(cr, n, move);
    } else if Channelled(cr, n, true) {
      hide Channelled;
      AcceptedLeavingIsFatal(cr, n, reason, msg); EndingIsUnsafe(cr, Step(cr, n, move));
    } else {
      var k, claims :| k <= 5 && AtPhase(cr, n, k, claims);
      EarlyStates(cr, n, k, claims);
      ClientLeavingIsFatal(cr, n, k, claims, reason, msg); EndingIsUnsafe(cr, Step(cr, n, move));
    }
  }

  /**
   * When a disconnect is safe.  On every careful run from creation: the client
   * may leave exactly while it is not in AUTH, and the server exactly while it
   * is not in AUTH or its client has left.  Otherwise there is a careful run
   * from the disconnect on - plain delivery of what is in flight - that ends a
   * side in ERROR; and where it is safe there is none.
   */
  lemma DisconnectIsSafeExactly(cr: Suite, ida: Ident, idb: Ident, serverPk: Option<Key32>, pin: Option<Key32>,
                                ephA: Key32, ephB: Key32, headerA: Header24, headerB: Header24, moves: seq<Move>,
                                reason: u32, msg: bytes)
    requires Ideal(cr) && Matching(cr, ida, idb, serverPk, pin)
    requires ida.cfg.maxRecord <= idb.cfg.maxRecord || 9 + DATA_MAX <= idb.cfg.maxRecord
    requires idb.cfg.maxRecord <= ida.cfg.maxRecord || 9 + DATA_MAX <= ida.cfg.maxRecord
    requires var n := Fresh(cr, ida, idb, serverPk, pin, ephA, ephB, headerA, headerB);
      CarefulRun(cr, n, moves) && IdsLeft(Run(cr, n, moves))
    ensures var d := Run(cr, Fresh(cr, ida, idb, serverPk, pin, ephA, ephB, headerA, headerB), moves);
      && (Safe(cr, Step(cr, d, MoveA(Calls(CallDisconnect(reason, msg))))) <==> d.a.c.state != Auth || d.b.c.state == Closed)
      && (Safe(cr, Step(cr, d, MoveB(Calls(CallDisconnect(reason, msg))))) <==> d.b.c.state != Auth)
  {
    var n := Fresh(cr, ida, idb, serverPk, pin, ephA, ephB, headerA, headerB);
    CreatedServer(cr, ida, serverPk, ephA, headerA);
    CreatedClient(cr, idb, pin, ephB, headerB);
    FreshStarts(cr, ida, idb, serverPk, pin, ephA, ephB, headerA, headerB);
    assert Sized(n) && Settled(n.a) && Settled(n.b) && Greeting(cr, n);
    hide Fresh, AtPhase, Ideal, Reached, Settled, Step, Run, CarefulRun, Safe, Sized, Greeting, Channelled;
    LifeRun(cr, n, moves);
    RunSettles(cr, n, moves);
    RunIsSized(cr, n, moves);
    var d := Run(cr, n, moves);
    LeavingServer(cr, d, reason, msg);
    LeavingClient(cr, d, reason, msg);
  }

  lemma RunIsSized(cr: Suite, n: Pair, moves: seq<Move>)
    requires Sized(n)
    ensures Sized(Run(cr, n, moves))
  {
    RunKeepsIds(cr, n, moves);
    hide Run;
  }
}
