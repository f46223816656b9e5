/**
 * Channel ids in every run of one session against any peer: as long as fewer
 * than 2^32 have been taken, live channels have distinct ids, all below the
 * number taken, and the counter is that number.
 */
module EngineTable {
  import opened Base
  import opened Mux
  import opened Wire
  import opened WirePdu
  import opened Transcript
  import opened Crypto
  import opened Engine
  import opened EngineLife
  import T = Table

  /** n ids have been taken so far. */
  predicate Numbered(t: T.Table, n: nat) {
    && T.Distinct(t.slots) && t.next == n % U32
    && (forall i :: 0 <= i < |t.slots| && T.Live(t.slots[i]) ==> t.slots[i].localId < n)
  }

  /** Channels stay under their own ids, and new ones take the counter's. */
  predicate OwnIds(t: T.Table, eff: Effect) {
    match eff
    case Put(id, ch) => ch.localId == id
    case Add(ch) => ch.localId == t.next
    case _ => true
  }

  function Cost(eff: Effect): nat {
    if eff.Add? || eff.Burn? then 1 else 0
  }

  lemma ChangeNumbered(t: T.Table, n: nat, maxChannels: nat, eff: Effect)
    requires Numbered(t, n) && T.Sane(t, maxChannels, eff) && OwnIds(t, eff) && n + Cost(eff) <= U32
    ensures Numbered(T.Change(t, eff), n + Cost(eff))
  {
    Successor(n);
    hide T.Find, T.Vacant, Add32;
    match eff {
      case Put(id, ch) =>
      case Drop(id) =>
      case Add(ch) => assert ch.localId == n by { Small(n); }
      case Burn =>
      case Keep =>
    }
  }

  lemma Small(n: nat)
    requires n < U32
    ensures n % U32 == n
  {
  }

  lemma Successor(n: nat)
    ensures Add32(n % U32, 1) == (n + 1) % U32
  {
  }

  lemma CallOwnIds(c: Ctx, call: Call)
    ensures OwnIds(c.table, CallOutcome(c, call).eff)
  {
    hide Segments, PushRc;
  }

  lemma MuxOwnIds(c: Ctx, p: Pdu)
    ensures OwnIds(c.table, MuxOutcome(c, p).eff)
  {
    hide Segments, PushRc;
  }

  /** The counter's advance tells the cost. */
  lemma CostBetween(c: Ctx, d: Ctx, eff: Effect, maxChannels: nat)
    requires T.Sane(c.table, maxChannels, eff) && d.table == T.Change(c.table, eff)
    ensures IdsBetween(c, d) == Cost(eff)
  {
    hide T.Find, T.Vacant;
  }

  /** One step took the ids it says it took. */
  predicate Steps(c: Ctx, d: Ctx) {
    forall n: nat :: Numbered(c.table, n) && n + IdsBetween(c, d) <= U32 ==> Numbered(d.table, n + IdsBetween(c, d))
  }

  lemma ChangeSteps(c: Ctx, d: Ctx, maxChannels: nat, eff: Effect)
    requires T.Sane(c.table, maxChannels, eff) && OwnIds(c.table, eff) && d.table == T.Change(c.table, eff)
    ensures Steps(c, d)
  {
    CostBetween(c, d, eff, maxChannels);
    hide Numbered, T.Sane, OwnIds, T.Change, IdsBetween;
    forall n: nat | Numbered(c.table, n) && n + IdsBetween(c, d) <= U32 ensures Numbered(d.table, n + IdsBetween(c, d)) {
      ChangeNumbered(c.table, n, maxChannels, eff);
    }
  }

  lemma SameSteps(c: Ctx, d: Ctx)
    requires d.table == c.table
    ensures Steps(c, d) && IdsBetween(c, d) == 0
  {
    hide Numbered;
  }

  lemma CallSteps(cr: Suite, c: Ctx, call: Call)
    ensures Steps(c, HostCall(cr, c, call).0)
  {
    CallFits(c, call);
    CallOwnIds(c, call);
    hide CallOutcome, Steps, OwnIds, T.Sane, T.Change;
    ChangeSteps(c, HostCall(cr, c, call).0, c.id.cfg.maxChannels, CallOutcome(c, call).eff);
  }

  /** A fatal PDU leaves the channels as they were. */
  lemma MuxErrs(c: Ctx, p: Pdu)
    requires c.state != Error
    ensures MuxOutcome(c, p).state == Error ==> T.Change(c.table, MuxOutcome(c, p).eff) == c.table
  {
    hide Segments, PushRc;
  }

  lemma MuxSteps(cr: Suite, c: Ctx, plain: bytes)
    requires c.state == Ready || c.state == Draining
    ensures Steps(c, OnMux(cr, c, plain)) && (OnMux(cr, c, plain).state == Error ==> OnMux(cr, c, plain).table == c.table)
  {
    var p := Decode(plain);
    hide Decode;
    if p.Some? && !(plain != [] && plain[0] == T_PONG) {
      MuxFits(c, p.value);
      MuxOwnIds(c, p.value);
      MuxErrs(c, p.value);
      hide MuxOutcome, Steps, OwnIds, T.Sane, T.Change;
      ChangeSteps(c, OnMux(cr, c, plain), c.id.cfg.maxChannels, MuxOutcome(c, p.value).eff);
    } else {
      SameSteps(c, OnMux(cr, c, plain));
    }
  }

  /** Outside the multiplexer no handler touches the table. */
  lemma AuthKeepsTable(cr: Suite, c: Ctx, plain: bytes)
    requires plain != []
    ensures OnAuth(cr, c, plain).table == c.table
  {
    hide Decode, DecodeAuthDevice, PushRc, Encode;
  }

  lemma HelloKeepsTable(cr: Suite, c: Ctx, body: bytes)
    ensures PeerHello(cr, c, body).table == c.table
  {
    hide DecodeHello, EncodeHello, Frame;
  }

  lemma HeaderKeepsTable(cr: Suite, c: Ctx, body: bytes)
    ensures PeerSsHeader(cr, c, body).table == c.table
  {
    hide Encode, Frame, PushRc;
  }

  lemma DecideKeepsTable(cr: Suite, c: Ctx, accept: bool, claims: bytes)
    ensures Decide(cr, c, accept, claims).0.table == c.table
  {
    hide PushRc, Encode;
  }

  lemma PlainSteps(cr: Suite, c: Ctx, plain: bytes)
    requires plain != []
    ensures Steps(c, OnPlain(cr, c, plain)) && (OnPlain(cr, c, plain).state == Error ==> OnPlain(cr, c, plain).table == c.table)
  {
    hide OnAuth, OnMux, Steps;
    if c.state == Auth {
      AuthKeepsTable(cr, c, plain);
      SameSteps(c, OnAuth(cr, c, plain));
    } else if c.state == Ready || c.state == Draining {
      MuxSteps(cr, c, plain);
    } else {
      SameSteps(c, Fail(c, ErrState));
    }
  }

  lemma RecordSteps(cr: Suite, c: Ctx, ct: bytes)
    ensures Steps(c, OnRecord(cr, c, ct)) && (OnRecord(cr, c, ct).state == Error ==> OnRecord(cr, c, ct).table == c.table)
  {
    hide OnPlain, Steps;
    if c.pull.None? {
      SameSteps(c, Fail(c, ErrState));
    } else {
      var d := c.(pull := Some(c.pull.value.(n := c.pull.value.n + 1)));
      var plain := RecordCases(cr, c, ct);
      hide OnRecord;
      SameSteps(c, Fail(c, ErrProtocol));
      SameSteps(c, Fail(c, ErrCrypto));
      SameSteps(c, d);
      SameSteps(c, Emit(d.(state := Closed), Disconnected(0)));
      if plain != [] {
        PlainSteps(cr, d, plain);
        StepsFrom(c, d, OnPlain(cr, d, plain));
      }
    }
  }

  lemma StepsFrom(c: Ctx, d: Ctx, e: Ctx)
    requires d.table == c.table && Steps(d, e)
    ensures Steps(c, e)
  {
    hide Numbered;
  }

  lemma FrameSteps(cr: Suite, c: Ctx, body: bytes)
    ensures Steps(c, OnFrame(cr, c, body)) && (OnFrame(cr, c, body).state == Error ==> OnFrame(cr, c, body).table == c.table)
  {
    hide PeerHello, PeerSsHeader, OnRecord, Steps;
    match c.hs {
      case WaitPeerHello => HelloKeepsTable(cr, c, body); SameSteps(c, PeerHello(cr, c, body));
      case WaitPeerSs => HeaderKeepsTable(cr, c, body); SameSteps(c, PeerSsHeader(cr, c, body));
      case Done => RecordSteps(cr, c, body);
      case Start => SameSteps(c, Fail(c, ErrState));
    }
  }

  lemma {:induction false} ProcessNumbered(cr: Suite, s: Side, n: nat)
    requires Numbered(s.c.table, n) && n + IdsUsed(cr, s) <= U32
    ensures Numbered(Process(cr, s).c.table, n + IdsUsed(cr, s))
    decreases |s.inp|
  {
    hide OnFrame, Parse, Limit, Numbered, IdsBetween;
    var r := Parse(s.inp, Limit(s.c));
    if !Stopped(s.c) && r.Framed? {
      var d := OnFrame(cr, s.c, r.body);
      FrameSteps(cr, s.c, r.body);
      if d.state != Error { ProcessNumbered(cr, Side(d, s.inp[r.consumed..]), n + IdsBetween(s.c, d)); }
    }
  }

  /** Ids one operation takes. */
  function IdsTaken(cr: Suite, s: Side, op: Op): nat {
    match op
    case OpCall(call) => IdsBetween(s.c, HostCall(cr, s.c, call).0)
    case OpFeed(data) => if Taken(s, data) == 0 then 0 else IdsUsed(cr, s.(inp := s.inp + data[..Taken(s, data)]))
    case _ => 0
  }

  function AllIdsTaken(cr: Suite, s: Side, ops: seq<Op>): nat
    decreases |ops|
  {
    if ops == [] then 0 else IdsTaken(cr, s, ops[0]) + AllIdsTaken(cr, Do(cr, s, ops[0]), ops[1..])
  }

  lemma DoNumbered(cr: Suite, s: Side, op: Op, n: nat)
    requires Numbered(s.c.table, n) && n + IdsTaken(cr, s, op) <= U32
    ensures Numbered(Do(cr, s, op).c.table, n + IdsTaken(cr, s, op))
  {
    hide HostCall, Decide, Numbered, IdsBetween, Process, IdsUsed, Taken;
    match op {
      case OpCall(call) => CallSteps(cr, s.c, call);
      case OpDecide(accept, claims) => DecideKeepsTable(cr, s.c, accept, claims);
      case OpFeed(data) =>
        if Taken(s, data) > 0 { ProcessNumbered(cr, s.(inp := s.inp + data[..Taken(s, data)]), n); }
      case OpOutput(max) =>
    }
  }

  lemma {:induction false} RunNumbered(cr: Suite, s: Side, ops: seq<Op>, n: nat)
    requires Numbered(s.c.table, n) && n + AllIdsTaken(cr, s, ops) <= U32
    ensures Numbered(RunOps(cr, s, ops).c.table, n + AllIdsTaken(cr, s, ops))
    decreases |ops|
  {
    hide Do, Numbered, IdsTaken;
    if ops != [] {
      DoNumbered(cr, s, ops[0], n);
      RunNumbered(cr, Do(cr, s, ops[0]), ops[1..], n + IdsTaken(cr, s, ops[0]));
    }
  }

  lemma IntegrityFrom(cr: Suite, s: Side, ops: seq<Op>, maxChannels: nat)
    requires StreamLaw(cr) && Inv(s.c) && Numbered(s.c.table, 0) && s.c.id.cfg.maxChannels == maxChannels <= MAX_CHANNELS
    ensures var t := RunOps(cr, s, ops).c.table;
      && t.active == T.LiveCount(t.slots) <= maxChannels
      && (T.CanAlloc(t, maxChannels) <==> t.active < maxChannels)
      && (AllIdsTaken(cr, s, ops) <= U32 ==> Numbered(t, AllIdsTaken(cr, s, ops)))
  {
    hide RunOps, CountAccepts, AllIdsTaken, Numbered, Phased, StreamLaw;
    RunsKeep(cr, s, ops);
    T.AllocFailsOnlyOnLimit(RunOps(cr, s, ops).c.table, maxChannels);
    if AllIdsTaken(cr, s, ops) <= U32 { RunNumbered(cr, s, ops, 0); }
  }

  /**
   * The channel table of a created session, after any run against any peer:
   * the count is the number of live slots, within the limit; an allocation
   * fails only on that limit; and with fewer than 2^32 ids taken, live ids
   * are distinct and below the counter.
   */
  lemma TableIntegrity(cr: Suite, id: Ident, serverPk: Option<Key32>, ephSk: Key32, header: Header24, ops: seq<Op>)
    requires StreamLaw(cr) && Creatable(id, serverPk) && id.cfg.maxChannels <= MAX_CHANNELS
    ensures var s := Create(cr, id, serverPk, ephSk, header).value; var t := RunOps(cr, s, ops).c.table;
      && t.active == T.LiveCount(t.slots) <= id.cfg.maxChannels
      && (T.CanAlloc(t, id.cfg.maxChannels) <==> t.active < id.cfg.maxChannels)
      && (AllIdsTaken(cr, s, ops) <= U32 ==> Numbered(t, AllIdsTaken(cr, s, ops)))
  {
    var s := Create(cr, id, serverPk, ephSk, header).value;
    CreatedIsSound(cr, id, serverPk, ephSk, header);
    CreatedTable(cr, id, serverPk, ephSk, header);
    hide Create, RunOps, AllIdsTaken, Numbered, Inv, StreamLaw, T.CanAlloc;
    IntegrityFrom(cr, s, ops, id.cfg.maxChannels);
  }

  lemma CreatedTable(cr: Suite, id: Ident, serverPk: Option<Key32>, ephSk: Key32, header: Header24)
    requires Creatable(id, serverPk)
    ensures Numbered(Create(cr, id, serverPk, ephSk, header).value.c.table, 0)
  {
    hide T.EMPTY, EncodeHello, Frame, BuildTHello;
    T.EmptyIsBlank();
  }
}
