/**
 * The byte pair refines Net: every step of either session, whatever the sizes
 * of the pieces, is a sequence of Net steps, so all that is proved of Net
 * holds of the bytes.
 */
module PairRun {
  import opened Base
  import opened Mux
  import opened Wire
  import opened WirePdu
  import opened Crypto
  import opened Engine
  import opened EngineCalls
  import opened Pair
  import N = Net
  import L = EngineLife
  import S = NetSafety
  import T = Table

  /** The whole relation: both sessions, both links, both id counts. */
  ghost predicate Related(cr: Suite, n: Pair, m: N.Net, sab: Stream, sba: Stream) {
    && Shows(n.a.c, m.a, m.ha.log) && Shows(n.b.c, m.b, m.hb.log)
    && Sends(cr, n.a.c, sab, n.b.inp + n.ab, m.ab) && Sends(cr, n.b.c, sba, n.a.inp + n.ba, m.ba)
    && (!Stopped(n.a.c) ==> n.a.c.pull == Some(sba)) && (!Stopped(n.b.c) ==> n.b.c.pull == Some(sab))
    && n.na == m.a.next && n.nb == m.b.next && Remembers(n.ra, m.ha) && Remembers(n.rb, m.hb)
  }

  /** The host's doings are the ones in the history. */
  predicate Remembers(r: Record, h: N.Hist) {
    r.sent == h.sent && r.wrapped == h.wrapped
  }

  // ------------------------------------------------------------------
  // Input
  // ------------------------------------------------------------------

  /** A buffer that starts a stream of frames holds its first frame, or less. */
  lemma HeadFrame(inp: bytes, rest: bytes, ct: bytes, more: bytes, maxBody: nat)
    requires 0 < |ct| < U32 && inp + rest == Frame(ct) + more
    ensures match Parse(inp, maxBody)
      case NeedMore => true
      case BadFrame => |ct| > maxBody
      case Framed(body, consumed) => body == ct && inp[consumed..] + rest == more
  {
    if |inp| >= 4 {
      assert inp[..4] == (inp + rest)[..4] == PutU32(|ct|);
      GetPutU32(|ct|, inp[4..]);
      assert inp == PutU32(|ct|) + inp[4..];
      hide GetU32, PutU32;
      if |inp| >= 4 + |ct| {
        var k := 4 + |ct|;
        assert inp[..k] == (inp + rest)[..k] == Frame(ct);
        assert inp[4..k] == ct;
        assert inp[k..] + rest == (inp + rest)[k..];
      }
    }
  }

  /** Side A and its incoming link: what is buffered and what is to come is m.ba, sealed from st on. */
  ghost predicate Hears(cr: Suite, s: Side, rest: bytes, m: N.Net, st: Stream, end: Stream) {
    && Shows(s.c, m.a, m.ha.log) && Plain(m.ba)
    && s.inp + rest == Sealed(cr, st, m.ba) && end == Later(st, |m.ba|)
    && (!Stopped(s.c) ==> s.c.pull == Some(st))
  }

  lemma ChangeCounts(t: T.Table, maxChannels: nat, eff: Effect)
    requires T.Sane(t, maxChannels, eff)
    ensures (T.Change(t, eff).next - t.next) % U32 == if eff.Add? || eff.Burn? then 1 else 0
  {
  }

  lemma CallCounts(cr: Suite, c: Ctx, p: N.Peer, log: seq<Event>, call: Call)
    requires Shows(c, p, log) && N.CallOutcome(p, call, SinkOf(c)).eff.Add?
    ensures IdsBetween(c, HostCall(cr, c, call).0) == 1
  {
    hide Perform, T.Shows, T.Change, N.CallOutcome;
    CallAgrees(c, p, log, call);
    L.CallFits(c, call);
    ChangeCounts(c.table, c.id.cfg.maxChannels, CallOutcome(c, call).eff);
  }

  lemma SettleCounts(cr: Suite, c: Ctx, o: Outcome)
    requires AllLegal(o.push) && |o.push| <= 1 && (o.push != [] ==> c.push.Some?)
    requires T.Sane(c.table, c.id.cfg.maxChannels, o.eff) && o.eff.Add?
    ensures IdsBetween(c, Settle(cr, c, o)) == 1 && Settle(cr, c, o).state == o.state
  {
    ChangeCounts(c.table, c.id.cfg.maxChannels, o.eff);
    hide AllLegal, T.Sane, T.Change, Append;
  }

  lemma MuxCounts(cr: Suite, c: Ctx, p: N.Peer, log: seq<Event>, m: Pdu)
    requires Shows(c, p, log) && (c.state == Ready || c.state == Draining) && Legal(m)
    requires PduLen(m) <= c.id.cfg.maxRecord && PduLen(m) <= DATA_MAX + 64
    requires N.ReceiveOutcome(p, m, SinkOf(c)).eff.Add?
    ensures var d := OnMux(cr, c, Encode(m)); IdsBetween(c, d) == 1 && d.state != Error
  {
    hide Decode, Encode, OnMux, MuxOutcome, N.ReceiveOutcome, Settle, IdsBetween, T.Shows, T.Sane, Legal, SinkOf;
    OnMuxIs(cr, c, m);
    MuxAgrees(c, p, log, m);
    L.MuxFits(c, m);
    ReceivePlain(p, m, SinkOf(c));
    SettleCounts(cr, c, MuxOutcome(c, m));
  }

  lemma SameTableSameIds(c: Ctx, d: Ctx, e: Ctx)
    requires c.table == d.table
    ensures IdsBetween(c, e) == IdsBetween(d, e)
  {
  }

  lemma AddIsMux(p: N.Peer, m: Pdu, s: Sink)
    requires N.ReceiveOutcome(p, m, s).eff.Add?
    ensures p.state != Auth && PduLen(m) <= p.cfg.maxRecord && PduLen(m) <= DATA_MAX + 64
  {
    hide Handle;
  }

  lemma RecordCounts(cr: Suite, c: Ctx, p: N.Peer, log: seq<Event>, m: Pdu)
    requires StreamLaw(cr) && Shows(c, p, log) && !Stopped(c) && Legal(m)
    requires N.ReceiveOutcome(p, m, SinkOf(c)).eff.Add?
    ensures var d := OnRecord(cr, c, cr.seal(c.pull.value, TAG_MESSAGE, Encode(m))); IdsBetween(c, d) == 1 && d.state != Error
  {
    AddIsMux(p, m, SinkOf(c));
    hide StreamLaw, Encode, OnMux, OnRecord, N.ReceiveOutcome, Legal, PduLen, T.Shows;
    SealedOpens(cr, c, m);
    var d := c.(pull := Some(Later(c.pull.value, 1)));
    assert SinkOf(d) == SinkOf(c);
    hide SinkOf, IdsBetween;
    MuxCounts(cr, d, p, log, m);
    SameTableSameIds(c, d, OnMux(cr, d, Encode(m)));
  }

  /** Deliveries note nothing of what the host does. */
  predicate SameDoings(h: N.Hist, h': N.Hist) {
    h'.sent == h.sent && h'.wrapped == h.wrapped
  }

  /** The step Net takes when A handles the PDU at the head of its link. */
  lemma DeliverIs(m: N.Net, s: Sink)
    requires m.ba != [] && m.a.state != Error && m.a.state != Closed
    ensures var o := N.ReceiveOutcome(m.a, m.ba[0], s);
      var m' := N.DeliverA(m, s);
      && m' == m.(a := N.Apply(m.a, o), ab := m.ab + o.push, ba := m'.ba, ha := m'.ha)
      && m'.ha.log == m.ha.log + o.events && SameDoings(m.ha, m'.ha)
      && m'.ba == (if o.state == Error then m.ba else m.ba[1..]) && m'.a.state == o.state
  {
    hide N.ReceiveOutcome;
  }

  lemma SealedFits(cr: Suite, st: Stream, p: Pdu)
    requires StreamLaw(cr) && Legal(p) && PduLen(p) <= IN_BUF_SIZE
    ensures var n := |cr.seal(st, TAG_MESSAGE, Encode(p))|; 0 < n < U32 && n % U32 == n
  {
    var n := |cr.seal(st, TAG_MESSAGE, Encode(p))|;
    assert n == PduLen(p) + SS_ABYTES;
    hide StreamLaw, Encode;
  }

  lemma SealedHead(cr: Suite, st: Stream, q: seq<Pdu>)
    requires StreamLaw(cr) && Framable(q) && q != []
    ensures var ct := cr.seal(st, TAG_MESSAGE, Encode(q[0]));
      0 < |ct| < U32 && Sealed(cr, st, q) == Frame(ct) + Sealed(cr, Later(st, 1), q[1..])
  {
    SealedFits(cr, st, q[0]);
    hide StreamLaw, Encode, PutU32, PduLen;
  }

  /** The head of a sealed link, when whole, is the head PDU's frame. */
  lemma HeadFrameIs(cr: Suite, inp: bytes, rest: bytes, st: Stream, q: seq<Pdu>, maxBody: nat)
    requires StreamLaw(cr) && Framable(q) && q != [] && inp + rest == Sealed(cr, st, q)
    ensures match Parse(inp, maxBody)
      case NeedMore => true
      case BadFrame => |cr.seal(st, TAG_MESSAGE, Encode(q[0]))| > maxBody
      case Framed(body, consumed) =>
        body == cr.seal(st, TAG_MESSAGE, Encode(q[0])) && inp[consumed..] + rest == Sealed(cr, Later(st, 1), q[1..])
  {
    hide Encode, Parse, StreamLaw, Sealed, Frame;
    SealedHead(cr, st, q);
    HeadFrame(inp, rest, cr.seal(st, TAG_MESSAGE, Encode(q[0])), Sealed(cr, Later(st, 1), q[1..]), maxBody);
  }

  /** A whole head frame is one delivery. */
  lemma HeadFollows(cr: Suite, s: Side, rest: bytes, m: N.Net, st: Stream, end: Stream, sab: Stream, gone: bytes)
    requires StreamLaw(cr) && Hears(cr, s, rest, m, st, end) && Sends(cr, s.c, sab, gone, m.ab)
    requires !Stopped(s.c) && Parse(s.inp, Limit(s.c)).Framed?
    requires var d := OnFrame(cr, s.c, Parse(s.inp, Limit(s.c)).body);
      m.a.next + (if d.state == Error then 0 else IdsBetween(s.c, d)) <= U32
    ensures var r := Parse(s.inp, Limit(s.c)); var d := OnFrame(cr, s.c, r.body);
      var m' := N.DeliverA(m, SinkOf(s.c));
      && m'.b == m.b && m'.hb == m.hb && SameDoings(m.ha, m'.ha) && Sends(cr, d, sab, gone, m'.ab)
      && (if d.state == Error then Hears(cr, s.(c := d), rest, m', st, end) && m'.a.next == m.a.next
          else Hears(cr, Side(d, s.inp[r.consumed..]), rest, m', Later(st, 1), end) && m'.a.next == m.a.next + IdsBetween(s.c, d))
  {
    hide Parse, Sealed, StreamLaw, OnRecord, Encode, Limit, T.Shows, Sends, N.DeliverA, SinkOf;
    var r, q := Parse(s.inp, Limit(s.c)), m.ba;
    var d := OnFrame(cr, s.c, r.body);
    HeadIsThere(cr, s.inp, rest, st, q, Limit(s.c));
    HeadFrameIs(cr, s.inp, rest, st, q, Limit(s.c));
    assert d == OnRecord(cr, s.c, cr.seal(st, TAG_MESSAGE, Encode(q[0])));
    hide OnFrame;
    HeadTaken(cr, s.c, d, m, sab, gone);
    PlainTail(q);
    hide Plain, Legal;
  }

  lemma PlainTail(q: seq<Pdu>)
    requires Plain(q) && q != []
    ensures Plain(q[1..])
  {
  }

  lemma HeadIsThere(cr: Suite, inp: bytes, rest: bytes, st: Stream, q: seq<Pdu>, maxBody: nat)
    requires AllLegal(q) && inp + rest == Sealed(cr, st, q) && !Parse(inp, maxBody).NeedMore?
    ensures q != []
  {
  }

  /** Everything about a delivery but the bytes. */
  lemma HeadTaken(cr: Suite, c: Ctx, d: Ctx, m: N.Net, sab: Stream, gone: bytes)
    requires StreamLaw(cr) && Shows(c, m.a, m.ha.log) && !Stopped(c) && Plain(m.ba) && m.ba != [] && Sends(cr, c, sab, gone, m.ab)
    requires Legal(m.ba[0]) && d == OnRecord(cr, c, cr.seal(c.pull.value, TAG_MESSAGE, Encode(m.ba[0])))
    requires m.a.next + (if d.state == Error then 0 else IdsBetween(c, d)) <= U32
    ensures var m' := N.DeliverA(m, SinkOf(c));
      && m'.b == m.b && m'.hb == m.hb && SameDoings(m.ha, m'.ha) && Sends(cr, d, sab, gone, m'.ab) && Shows(d, m'.a, m'.ha.log)
      && m'.ba == (if d.state == Error then m.ba else m.ba[1..])
      && (d.state != Error ==> d.pull == Some(Later(c.pull.value, 1)))
      && m'.a.next == m.a.next + (if d.state == Error then 0 else IdsBetween(c, d))
  {
    hide OnRecord, Encode, StreamLaw, Legal, T.Shows, N.ReceiveOutcome, Sends, N.DeliverA, OneFrame, NoFrame;
    var q, o := m.ba[0], N.ReceiveOutcome(m.a, m.ba[0], SinkOf(c));
    assert !q.AuthDevice? && !q.AuthFail?;
    if o.eff.Add? { RecordCounts(cr, c, m.a, m.ha.log, q); }
    RecordFollows(cr, c, m.a, m.ha.log, q);
    DeliverIs(m, SinkOf(c));
    ReceivePlain(m.a, q, SinkOf(c));
    SendsMore(cr, c, d, sab, gone, m.ab, o.push);
  }

  predicate Deliveries(moves: seq<N.Move>) {
    forall i :: 0 <= i < |moves| ==> moves[i].MoveA? && moves[i].act.ActDeliver?
  }

  /** Processing a buffer is as many deliveries as it holds whole frames, up to the first failure. */
  lemma {:induction false} ProcessFollows(cr: Suite, s: Side, rest: bytes, m: N.Net, st: Stream, end: Stream, sab: Stream, gone: bytes)
      returns (moves: seq<N.Move>, st': Stream)
    requires StreamLaw(cr) && Hears(cr, s, rest, m, st, end) && Sends(cr, s.c, sab, gone, m.ab)
    requires m.a.next + IdsUsed(cr, s) <= U32
    ensures Deliveries(moves)
    ensures var d, m' := Process(cr, s), N.Run(m, moves);
      && Hears(cr, d, rest, m', st', end) && Sends(cr, d.c, sab, gone, m'.ab)
      && m'.a.next == m.a.next + IdsUsed(cr, s) && m'.b == m.b && m'.hb == m.hb && SameDoings(m.ha, m'.ha)
    decreases |s.inp|
  {
    hide OnFrame, Parse, Hears, Sends, IdsBetween, StreamLaw, N.DeliverA, Limit, SinkOf, N.Run;
    moves, st' := [], st;
    RunNone(m);
    if !Stopped(s.c) {
      var r, move := Parse(s.inp, Limit(s.c)), N.MoveA(N.ActDeliver(SinkOf(s.c)));
      if r.BadFrame? {
        moves := [move];
        BadFollows(cr, s, rest, m, st, end, sab, gone);
        RunDelivery(m, SinkOf(s.c), []);
      } else if r.Framed? {
        var d := OnFrame(cr, s.c, r.body);
        HeadFollows(cr, s, rest, m, st, end, sab, gone);
        var more := [];
        if d.state != Error {
          more, st' := ProcessFollows(cr, Side(d, s.inp[r.consumed..]), rest, N.DeliverA(m, SinkOf(s.c)), Later(st, 1), end, sab, gone);
        }
        moves := [move] + more;
        RunDelivery(m, SinkOf(s.c), more);
        RunNone(N.DeliverA(m, SinkOf(s.c)));
      }
    }
  }

  lemma RunNone(m: N.Net)
    ensures N.Run(m, []) == m
  {
  }

  lemma RunOne(m: N.Net, move: N.Move)
    ensures N.Run(m, [move]) == N.Step(m, move)
  {
    hide N.Step;
    RunNone(N.Step(m, move));
  }

  lemma RunDelivery(m: N.Net, s: Sink, more: seq<N.Move>)
    ensures var move := N.MoveA(N.ActDeliver(s));
      N.Run(m, [move] + more) == N.Run(N.DeliverA(m, s), more) && N.Run(m, [move]) == N.DeliverA(m, s)
  {
    hide N.DeliverA;
    var move := N.MoveA(N.ActDeliver(s));
    assert ([move] + more)[1..] == more;
    RunNone(N.DeliverA(m, s));
  }

  /** A frame longer than the limit is a PDU longer than the receiver takes. */
  lemma BadFollows(cr: Suite, s: Side, rest: bytes, m: N.Net, st: Stream, end: Stream, sab: Stream, gone: bytes)
    requires StreamLaw(cr) && Hears(cr, s, rest, m, st, end) && Sends(cr, s.c, sab, gone, m.ab)
    requires !Stopped(s.c) && Parse(s.inp, Limit(s.c)).BadFrame?
    ensures var m' := N.DeliverA(m, SinkOf(s.c));
      && m'.b == m.b && m'.hb == m.hb && SameDoings(m.ha, m'.ha) && m'.a.next == m.a.next && m'.a.state == Error
      && Sends(cr, Fail(s.c, ErrProtocol), sab, gone, m'.ab) && Hears(cr, s.(c := Fail(s.c, ErrProtocol)), rest, m', st, end)
  {
    HeadIsThere(cr, s.inp, rest, st, m.ba, Limit(s.c));
    HeadFrameIs(cr, s.inp, rest, st, m.ba, Limit(s.c));
    var q := m.ba[0];
    assert |cr.seal(st, TAG_MESSAGE, Encode(q))| == PduLen(q) + SS_ABYTES;
    hide StreamLaw, Encode, Parse, Sealed, T.Shows, Handle, SinkOf;
    assert PduLen(q) > m.a.cfg.maxRecord || PduLen(q) > DATA_MAX + 64;
    FailFollows(cr, s.c, m.a, m.ha.log, ErrProtocol);
    assert m.ab + [] == m.ab;
  }

  // ------------------------------------------------------------------
  // One step of either side, and whole runs
  // ------------------------------------------------------------------

  /** The rules of NetSafety as a host can check them on its own session. */
  predicate Rule(c: Ctx, call: Call) {
    match call
    case CallClose(id) =>
      var look := T.Look(c.table, Some(id));
      look.Some? ==> look.value.state == Pending || (look.value.state == Opened && look.value.remoteEof)
    case CallAdjust(id, credit) =>
      var look := T.Look(c.table, Some(id));
      look.Some? ==> look.value.recvWindow + credit < U32
    case CallDisconnect(_, _) => c.state != Auth
    case _ => true
  }

  /** They bind the calls that are granted; and a decision, where one is due, accepts. */
  predicate Careful(c: Ctx, w: Doing) {
    match w
    case Calls(call) => CallOutcome(c, call).rc == Ok ==> Rule(c, call)
    case Decides(accept, claims) => accept || !Decidable(c, claims)
    case _ => true
  }

  /** A decision would be taken. */
  predicate Decidable(c: Ctx, claims: bytes) {
    c.id.role == Server && c.auth.awaiting && !c.auth.decided && c.state == Auth && |claims| <= CLAIMS_MAX
  }

  predicate CarefulMove(n: Pair, m: Move) {
    match m
    case MoveA(w) => Careful(n.a.c, w)
    case MoveB(w) => Careful(n.b.c, w)
  }

  predicate CarefulRun(cr: Suite, n: Pair, moves: seq<Move>)
    decreases |moves|
  {
    moves == [] || (CarefulMove(n, moves[0]) && CarefulRun(cr, Step(cr, n, moves[0]), moves[1..]))
  }

  lemma RuleShows(c: Ctx, p: N.Peer, log: seq<Event>, call: Call)
    requires Shows(c, p, log) && Rule(c, call)
    ensures S.Careful(p, call)
  {
    match call {
      case CallClose(id) => T.LookShows(c.table, p, Some(id));
      case CallAdjust(id, _) => T.LookShows(c.table, p, Some(id));
      case _ =>
    }
    hide T.Shows;
  }

  lemma CarefulShows(c: Ctx, p: N.Peer, log: seq<Event>, call: Call)
    requires Shows(c, p, log) && Careful(c, Calls(call))
    ensures S.CarefulCall(p, call, SinkOf(c))
  {
    hide CallOutcome, N.CallOutcome, Rule, S.Careful, Shows;
    CallAgrees(c, p, log, call);
    if CallOutcome(c, call).rc == Ok { RuleShows(c, p, log, call); }
  }

  lemma CallStep(cr: Suite, n: Pair, m: N.Net, sab: Stream, sba: Stream, call: Call)
    requires StreamLaw(cr) && Related(cr, n, m, sab, sba) && ActA(cr, n, Calls(call)).na <= U32
    ensures Related(cr, ActA(cr, n, Calls(call)), N.CallA(m, call, SinkOf(n.a.c)), sab, sba)
  {
    var c, d, s := n.a.c, HostCall(cr, n.a.c, call).0, SinkOf(n.a.c);
    var o := N.CallOutcome(m.a, call, s);
    hide HostCall, CallOutcome, N.CallOutcome, T.Shows, Sends, Plain, OneFrame, NoFrame, IdsBetween, StreamLaw, SinkOf, Noted, N.NoteCall;
    if o.eff.Add? { CallCounts(cr, c, m.a, m.ha.log, call); }
    CallFollows(cr, c, m.a, m.ha.log, call);
    SendsMore(cr, c, d, sab, n.b.inp + n.ab, m.ab, o.push);
    CallKeepsPull(cr, c, call);
    var m' := N.CallA(m, call, s);
    NoteCallLogs(m.ha, m.a, call, o);
    assert m'.a == N.Apply(m.a, o);
    CallAgrees(c, m.a, m.ha.log, call);
    CallReturns(cr, c, call);
    NotedShows(n.ra, m.ha, c, m.a, m.ha.log, call, o);
    if Stopped(c) { CallStaysStopped(m.a, call, s); }
  }

  lemma NotedShows(r: Record, h: N.Hist, c: Ctx, p: N.Peer, log: seq<Event>, call: Call, o: Outcome)
    requires Shows(c, p, log) && Remembers(r, h)
    ensures Remembers(Noted(r, c, call, o.rc), N.NoteCall(h, p, call, o))
  {
    if call.CallAdjust? { T.LookShows(c.table, p, Some(call.id)); }
    hide T.Shows;
  }

  lemma NoteCallLogs(h: N.Hist, p: N.Peer, call: Call, o: Outcome)
    ensures N.NoteCall(h, p, call, o).log == h.log + o.events
  {
  }

  lemma CallReturns(cr: Suite, c: Ctx, call: Call)
    ensures HostCall(cr, c, call).1 == CallOutcome(c, call).rc
  {
    hide CallOutcome, Settle;
  }

  lemma CallKeepsPull(cr: Suite, c: Ctx, call: Call)
    ensures HostCall(cr, c, call).0.pull == c.pull && HostCall(cr, c, call).0.id == c.id
  {
    hide CallOutcome, T.Change;
  }

  /** No host call revives a session. */
  lemma CallStaysStopped(p: N.Peer, call: Call, s: Sink)
    requires p.state == Error || p.state == Closed
    ensures var o := N.CallOutcome(p, call, s); o.state == Error || o.state == Closed
  {
    hide PushRc, Segments;
  }

  /** feed_input takes some of what is offered, and processes it if that is anything. */
  lemma TakeIs(cr: Suite, n: Pair, k: nat) returns (t: nat)
    ensures t <= |n.ba| && (t > 0 ==> !Stopped(n.a.c))
    ensures var s := n.a.(inp := n.a.inp + n.ba[..t]);
      ActA(cr, n, Takes(k)) == if t == 0 then n else n.(a := Process(cr, s), ba := n.ba[t..], na := n.na + IdsUsed(cr, s))
  {
    hide Process, IdsUsed;
    var data := n.ba[..Min(k, |n.ba|)];
    t := Taken(n.a, data);
    hide Taken;
    assert data[..t] == n.ba[..t] && n.ba[0..] == n.ba;
  }

  lemma TakeStep(cr: Suite, n: Pair, m: N.Net, sab: Stream, sba: Stream, k: nat) returns (moves: seq<N.Move>, sba': Stream)
    requires StreamLaw(cr) && Related(cr, n, m, sab, sba) && ActA(cr, n, Takes(k)).na <= U32
    ensures Deliveries(moves) && Related(cr, ActA(cr, n, Takes(k)), N.Run(m, moves), sab, sba')
  {
    hide Process, IdsUsed, Related, ActA, N.Run, StreamLaw;
    var t := TakeIs(cr, n, k);
    if t == 0 {
      moves, sba' := [], sba;
      RunNone(m);
    } else {
      assert n.ba == n.ba[..t] + n.ba[t..];
      moves, sba' := FedFollows(cr, n, m, sab, sba, n.ba[..t], n.ba[t..]);
    }
  }

  /** Bytes moved from the link into the buffer, and processed. */
  lemma FedFollows(cr: Suite, n: Pair, m: N.Net, sab: Stream, sba: Stream, data: bytes, left: bytes)
      returns (moves: seq<N.Move>, sba': Stream)
    requires StreamLaw(cr) && Related(cr, n, m, sab, sba) && n.ba == data + left
    requires n.na + IdsUsed(cr, n.a.(inp := n.a.inp + data)) <= U32
    ensures Deliveries(moves)
    ensures var s := n.a.(inp := n.a.inp + data);
      Related(cr, n.(a := Process(cr, s), ba := left, na := n.na + IdsUsed(cr, s)), N.Run(m, moves), sab, sba')
  {
    hide Process, IdsUsed, Sealed, T.Shows, Shows, Plain, StreamLaw, N.Run;
    var s, rest := n.a.(inp := n.a.inp + data), left + n.b.c.out;
    assert s.inp + rest == n.a.inp + n.ba + n.b.c.out;
    moves, sba' := ProcessFollows(cr, s, rest, m, sba, Later(sba, |m.ba|), sab, n.b.inp + n.ab);
    assert Process(cr, s).inp + left + n.b.c.out == Process(cr, s).inp + rest;
  }

  /** The Net steps that a doing of side A stands for: that very call, deliveries to A, or none. */
  predicate StandsFor(c: Ctx, w: Doing, moves: seq<N.Move>) {
    match w
    case Calls(call) => moves == [N.MoveA(N.ActCall(call, SinkOf(c)))]
    case Takes(_) => Deliveries(moves)
    case _ => moves == []
  }

  /** Every step of side A, of any kind and size, is a sequence of Net steps of side A. */
  lemma ActFollows(cr: Suite, n: Pair, m: N.Net, sab: Stream, sba: Stream, w: Doing) returns (moves: seq<N.Move>, sba': Stream)
    requires StreamLaw(cr) && Related(cr, n, m, sab, sba) && ActA(cr, n, w).na <= U32
    ensures StandsFor(n.a.c, w, moves) && Related(cr, ActA(cr, n, w), N.Run(m, moves), sab, sba')
    ensures Careful(n.a.c, w) ==> S.CarefulRun(m, moves)
  {
    moves, sba' := [], sba;
    RunNone(m);
    match w {
      case Calls(call) =>
        moves := [N.MoveA(N.ActCall(call, SinkOf(n.a.c)))];
        hide ActA, N.CallA, Related, Careful, S.CarefulCall, N.Run;
        CallStep(cr, n, m, sab, sba, call);
        RunOne(m, moves[0]);
        if Careful(n.a.c, w) { RelatedCareful(cr, n, m, sab, sba, call); }
      case Decides(accept, claims) => NoDecision(cr, n, m, sab, sba, accept, claims); hide *;
      case Gives(max) => GiveStep(cr, n, m, sab, sba, max); hide *;
      case Takes(k) =>
        hide ActA, Related, N.Run;
        moves, sba' := TakeStep(cr, n, m, sab, sba, k);
        DeliveriesAreCareful(m, moves);
    }
  }

  lemma RelatedCareful(cr: Suite, n: Pair, m: N.Net, sab: Stream, sba: Stream, call: Call)
    requires Related(cr, n, m, sab, sba) && Careful(n.a.c, Calls(call))
    ensures S.CarefulCall(m.a, call, SinkOf(n.a.c))
  {
    CarefulShows(n.a.c, m.a, m.ha.log, call);
  }

  lemma {:induction false} DeliveriesAreCareful(m: N.Net, moves: seq<N.Move>)
    requires Deliveries(moves)
    ensures S.CarefulRun(m, moves)
    decreases |moves|
  {
    if moves != [] { DeliveriesAreCareful(N.Step(m, moves[0]), moves[1..]); }
  }

  /** Once the handshake is over there is nothing to decide. */
  lemma NoDecision(cr: Suite, n: Pair, m: N.Net, sab: Stream, sba: Stream, accept: bool, claims: bytes)
    requires Related(cr, n, m, sab, sba)
    ensures ActA(cr, n, Decides(accept, claims)) == n
  {
    hide T.Shows, Sends, SsSend;
  }

  lemma GiveStep(cr: Suite, n: Pair, m: N.Net, sab: Stream, sba: Stream, max: nat)
    requires Related(cr, n, m, sab, sba)
    ensures Related(cr, ActA(cr, n, Gives(max)), m, sab, sba)
  {
    hide T.Shows, Plain, Sealed;
    var n' := ActA(cr, n, Gives(max));
    assert (n.b.inp + n'.ab) + n'.a.c.out == (n.b.inp + n.ab) + n.a.c.out;
  }

  // ------------------------------------------------------------------
  // Side B, and runs
  // ------------------------------------------------------------------

  function FlipMoves(moves: seq<N.Move>): seq<N.Move>
    decreases |moves|
  {
    if moves == [] then []
    else [if moves[0].MoveA? then N.MoveB(moves[0].act) else N.MoveA(moves[0].act)] + FlipMoves(moves[1..])
  }

  lemma FlipStep(m: N.Net, move: N.Move)
    ensures N.Step(N.Flip(m), FlipMoves([move])[0]) == N.Flip(N.Step(m, move))
    ensures S.CarefulMove(N.Flip(m), FlipMoves([move])[0]) == S.CarefulMove(m, move)
  {
    assert N.Flip(N.Flip(m)) == m;
    hide N.ActA, S.CarefulCall;
  }

  lemma {:induction false} FlipRun(m: N.Net, moves: seq<N.Move>)
    ensures N.Run(N.Flip(m), FlipMoves(moves)) == N.Flip(N.Run(m, moves))
    ensures S.CarefulRun(N.Flip(m), FlipMoves(moves)) == S.CarefulRun(m, moves)
    decreases |moves|
  {
    if moves != [] {
      var f := FlipMoves(moves);
      assert f[0] == FlipMoves([moves[0]])[0] && f[1..] == FlipMoves(moves[1..]);
      FlipStep(m, moves[0]);
      FlipRun(N.Step(m, moves[0]), moves[1..]);
      hide N.Step, S.CarefulMove;
    }
  }

  lemma FlipRelated(cr: Suite, n: Pair, m: N.Net, sab: Stream, sba: Stream)
    requires Related(cr, n, m, sab, sba)
    ensures Related(cr, Flip(n), N.Flip(m), sba, sab)
  {
    hide Shows, Sends;
  }

  predicate IdsLeft(n: Pair) {
    n.na <= U32 && n.nb <= U32
  }

  /** Host calls, in order, with the side that made each. */
  datatype Made = MadeA(call: Call) | MadeB(call: Call)

  function CallOf(move: Move): seq<Made> {
    match move
    case MoveA(Calls(call)) => [MadeA(call)]
    case MoveB(Calls(call)) => [MadeB(call)]
    case _ => []
  }

  function CallsOf(moves: seq<Move>): seq<Made>
    decreases |moves|
  {
    if moves == [] then [] else CallOf(moves[0]) + CallsOf(moves[1..])
  }

  function NetCalls(moves: seq<N.Move>): seq<Made>
    decreases |moves|
  {
    if moves == [] then []
    else
      (match moves[0]
       case MoveA(ActCall(call, _)) => [MadeA(call)]
       case MoveB(ActCall(call, _)) => [MadeB(call)]
       case _ => []) + NetCalls(moves[1..])
  }

  lemma {:induction false} NetCallsMore(x: seq<N.Move>, y: seq<N.Move>)
    ensures NetCalls(x + y) == NetCalls(x) + NetCalls(y)
    decreases |x|
  {
    if x == [] {
      assert x + y == y;
    } else {
      assert (x + y)[1..] == x[1..] + y;
      NetCallsMore(x[1..], y);
    }
  }

  lemma {:induction false} DeliveriesCallNothing(moves: seq<N.Move>)
    requires Deliveries(moves)
    ensures NetCalls(moves) == [] && NetCalls(FlipMoves(moves)) == []
    decreases |moves|
  {
    if moves != [] {
      DeliveriesCallNothing(moves[1..]);
      assert FlipMoves(moves)[1..] == FlipMoves(moves[1..]);
    }
  }

  lemma StandsForCalls(c: Ctx, w: Doing, moves: seq<N.Move>)
    requires StandsFor(c, w, moves)
    ensures NetCalls(moves) == CallOf(MoveA(w)) && NetCalls(FlipMoves(moves)) == CallOf(MoveB(w))
  {
    match w {
      case Calls(call) =>
        assert FlipMoves(moves) == [N.MoveB(moves[0].act)];
        assert moves[1..] == [] && FlipMoves(moves)[1..] == [];
      case Takes(_) => DeliveriesCallNothing(moves);
      case _ => assert FlipMoves(moves) == [];
    }
  }

  lemma StepFollows(cr: Suite, n: Pair, m: N.Net, sab: Stream, sba: Stream, move: Move)
      returns (moves: seq<N.Move>, sab': Stream, sba': Stream)
    requires StreamLaw(cr) && Related(cr, n, m, sab, sba) && IdsLeft(Step(cr, n, move))
    ensures Related(cr, Step(cr, n, move), N.Run(m, moves), sab', sba') && NetCalls(moves) == CallOf(move)
    ensures CarefulMove(n, move) ==> S.CarefulRun(m, moves)
  {
    hide ActA, Related, N.Run, S.CarefulRun, Careful, NetCalls, StandsFor, CallOf;
    sab', sba' := sab, sba;
    match move {
      case MoveA(w) => moves, sba' := ActFollows(cr, n, m, sab, sba, w); StandsForCalls(n.a.c, w, moves);
      case MoveB(w) =>
        FlipRelated(cr, n, m, sab, sba);
        moves, sab' := ActFollows(cr, Flip(n), N.Flip(m), sba, sab, w);
        FlipRelated(cr, ActA(cr, Flip(n), w), N.Run(N.Flip(m), moves), sba, sab');
        FlipRun(N.Flip(m), moves);
        FlipTwice(m);
        StandsForCalls(n.b.c, w, moves);
        moves := FlipMoves(moves);
    }
  }

  lemma FlipTwice(m: N.Net)
    ensures N.Flip(N.Flip(m)) == m
  {
  }

  lemma StepKeepsIds(cr: Suite, n: Pair, move: Move)
    ensures Step(cr, n, move).a.c.id == n.a.c.id && Step(cr, n, move).b.c.id == n.b.c.id
  {
    hide HostCall, Decide, Process, IdsUsed, Taken;
    match move {
      case MoveA(Calls(call)) => CallKeepsPull(cr, n.a.c, call);
      case MoveB(Calls(call)) => CallKeepsPull(cr, n.b.c, call);
      case MoveA(Decides(accept, claims)) => DecideKeepsId(cr, n.a.c, accept, claims);
      case MoveB(Decides(accept, claims)) => DecideKeepsId(cr, n.b.c, accept, claims);
      case MoveA(Takes(k)) => ProcessKeepsId(cr, n.a.(inp := n.a.inp + n.ba[..Min(k, |n.ba|)][..Taken(n.a, n.ba[..Min(k, |n.ba|)])]));
      case MoveB(Takes(k)) => ProcessKeepsId(cr, n.b.(inp := n.b.inp + n.ab[..Min(k, |n.ab|)][..Taken(n.b, n.ab[..Min(k, |n.ab|)])]));
      case _ =>
    }
  }

  lemma DecideKeepsId(cr: Suite, c: Ctx, accept: bool, claims: bytes)
    ensures Decide(cr, c, accept, claims).0.id == c.id
  {
  }

  lemma {:induction false} ProcessKeepsId(cr: Suite, s: Side)
    ensures Process(cr, s).c.id == s.c.id
    decreases |s.inp|
  {
    hide OnFrame, Parse, Limit;
    var r := Parse(s.inp, Limit(s.c));
    if !Stopped(s.c) && r.Framed? {
      FrameKeepsId(cr, s.c, r.body);
      var d := OnFrame(cr, s.c, r.body);
      if d.state != Error { ProcessKeepsId(cr, Side(d, s.inp[r.consumed..])); }
    }
  }

  lemma HelloKeepsId(cr: Suite, c: Ctx, body: bytes)
    ensures PeerHello(cr, c, body).id == c.id
  {
    hide DecodeHello, EncodeHello, Frame;
  }

  lemma HeaderKeepsId(cr: Suite, c: Ctx, body: bytes)
    ensures PeerSsHeader(cr, c, body).id == c.id
  {
    hide Encode, Frame, PushRc;
  }

  lemma PlainKeepsId(cr: Suite, c: Ctx, plain: bytes)
    requires plain != []
    ensures OnPlain(cr, c, plain).id == c.id
  {
    hide Decode, DecodeAuthDevice, Handle, PushRc;
  }

  lemma FrameKeepsId(cr: Suite, c: Ctx, body: bytes)
    ensures OnFrame(cr, c, body).id == c.id
  {
    hide PeerHello, PeerSsHeader;
    match c.hs {
      case WaitPeerHello => HelloKeepsId(cr, c, body);
      case WaitPeerSs => HeaderKeepsId(cr, c, body);
      case Done =>
        hide OnPlain;
        if c.pull.Some? {
          var plain := L.RecordCases(cr, c, body);
          hide OnRecord;
          if plain != [] { PlainKeepsId(cr, c.(pull := Some(c.pull.value.(n := c.pull.value.n + 1))), plain); }
        }
      case Start =>
    }
  }

  lemma {:induction false} IdsOnlyGrow(cr: Suite, n: Pair, moves: seq<Move>)
    ensures n.na <= Run(cr, n, moves).na && n.nb <= Run(cr, n, moves).nb
    decreases |moves|
  {
    if moves != [] {
      StepIdsGrow(cr, n, moves[0]);
      hide Step;
      IdsOnlyGrow(cr, Step(cr, n, moves[0]), moves[1..]);
    }
  }

  lemma StepIdsGrow(cr: Suite, n: Pair, move: Move)
    ensures n.na <= Step(cr, n, move).na && n.nb <= Step(cr, n, move).nb
  {
    hide HostCall, Decide, Feed, Output, Taken;
  }

  lemma {:induction false} RunMore(m: N.Net, x: seq<N.Move>, y: seq<N.Move>)
    ensures N.Run(m, x + y) == N.Run(N.Run(m, x), y)
    ensures S.CarefulRun(m, x + y) == (S.CarefulRun(m, x) && S.CarefulRun(N.Run(m, x), y))
    decreases |x|
  {
    hide N.Step, S.CarefulMove;
    if x == [] {
      assert x + y == y;
    } else {
      assert (x + y)[1..] == x[1..] + y;
      RunMore(N.Step(m, x[0]), x[1..], y);
    }
  }

  /**
   * Refinement: every run of the byte pair, with any host calls, any sizes of
   * output and input, and any failures, is a run of Net with the same host
   * calls in the same order, that leaves the same channels, events, accepted
   * chunks and PDUs in flight; and it breaks a rule of NetSafety only where
   * the hosts do.
   */
  lemma {:induction false} RunFollows(cr: Suite, n: Pair, m: N.Net, sab: Stream, sba: Stream, moves: seq<Move>)
      returns (moves': seq<N.Move>, sab': Stream, sba': Stream)
    requires StreamLaw(cr) && Related(cr, n, m, sab, sba) && IdsLeft(Run(cr, n, moves))
    ensures Related(cr, Run(cr, n, moves), N.Run(m, moves'), sab', sba') && NetCalls(moves') == CallsOf(moves)
    ensures CarefulRun(cr, n, moves) ==> S.CarefulRun(m, moves')
    decreases |moves|
  {
    hide Step, Related, N.Run, S.CarefulRun, CarefulMove, CallOf;
    moves', sab', sba' := [], sab, sba;
    RunNone(m);
    DeliveriesAreCareful(m, []);
    if moves != [] {
      var n' := Step(cr, n, moves[0]);
      IdsOnlyGrow(cr, n', moves[1..]);
      moves', sab', sba' := StepFollows(cr, n, m, sab, sba, moves[0]);
      var m', x := N.Run(m, moves'), moves';
      var y;
      y, sab', sba' := RunFollows(cr, n', m', sab', sba', moves[1..]);
      RunMore(m, x, y);
      NetCallsMore(x, y);
      moves' := x + y;
    }
  }
}
