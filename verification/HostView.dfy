/**
 * What a host knows: from its own granted calls and the events it is offered,
 * and from nothing else, it can keep a copy of every live channel.  In every
 * run of one session, against any peer, the copy is exact, and every event is
 * one the copy expects.
 */
module HostView {
  import opened Base
  import opened Mux
  import opened Wire
  import opened WirePdu
  import opened Transcript
  import opened Crypto
  import opened Engine
  import opened EngineLife
  import opened EngineTable
  import Q = Sequenced
  import R = PairRun
  import T = Table

  /** A granted call, with the id channel_open hands out; or an event. */
  datatype Note = Granted(call: Call, id: u32) | Told(e: Event)

  /** The copy of the live channels, and every id ever seen. */
  datatype View = View(chans: map<u32, Channel>, used: set<u32>)

  // ------------------------------------------------------------------
  // Keeping the copy
  // ------------------------------------------------------------------

  /** A channel opened by the host: no peer yet. */
  function Offered(cfg: Config, id: u32, name: bytes): Channel {
    Channel(Opening, id, 0, false, name, 0, cfg.initialWindow, cfg.maxPacket, false, false)
  }

  /** A granted call that the host may have made, knowing the view. */
  predicate Grantable(v: View, call: Call, id: u32) {
    match call
    case CallOpen(name) => id !in v.used
    case CallAccept(x, _) => x in v.chans && v.chans[x].state == Pending
    case CallSend(x, data) =>
      x in v.chans && v.chans[x].state == Opened && !v.chans[x].localEof && |data| <= v.chans[x].sendWindow && |data| <= v.chans[x].maxPacket
    case CallEof(x) => x in v.chans && v.chans[x].state == Opened
    case CallClose(x) => x in v.chans
    case CallAdjust(x, _) => x in v.chans && v.chans[x].state == Opened
    case CallDisconnect(_, _) => true
  }

  function AfterCall(cfg: Config, v: View, call: Call, id: u32): View
    requires Grantable(v, call, id)
  {
    match call
    case CallOpen(name) => View(v.chans[id := Offered(cfg, id, name)], v.used + {id})
    case CallAccept(x, accept) => if accept then v else v.(chans := v.chans - {x})
    case CallSend(x, data) => v.(chans := v.chans[x := v.chans[x].(sendWindow := v.chans[x].sendWindow - |data|)])
    case CallEof(x) => v.(chans := v.chans[x := v.chans[x].(localEof := true)])
    case CallClose(x) => v.(chans := v.chans - {x})
    case CallAdjust(x, credit) => v.(chans := v.chans[x := v.chans[x].(recvWindow := (v.chans[x].recvWindow + credit) % U32)])
    case CallDisconnect(_, _) => v
  }

  /**
   * An event the view expects: a channel is offered under a new id, for an
   * allowed name; it is opened once, by the host's own acceptance or by the
   * peer's; data is within its window; and the window told is the one there
   * was and what was added.
   */
  predicate Expected(cfg: Config, v: View, e: Event) {
    match e
    case ChannelOpen(id, _, name, _, _) => id !in v.used && NameAllowed(cfg, name)
    case ChannelOpened(id, peer, name, w, mp) =>
      && id in v.chans && v.chans[id].name == name
      && (v.chans[id].state == Opening
          || (v.chans[id].state == Pending && v.chans[id].peerId == peer && w == cfg.initialWindow && mp == cfg.maxPacket))
    case ChannelOpenFail(id, name) => id in v.chans && v.chans[id].state == Opening && v.chans[id].name == name
    case ChannelData(id, data) => id in v.chans && v.chans[id].state == Opened && |data| <= v.chans[id].recvWindow && |data| <= DATA_MAX
    case ChannelWindow(id, added, avail) => id in v.chans && v.chans[id].state == Opened && avail == (v.chans[id].sendWindow + added) % U32
    case ChannelEof(id) => id in v.chans
    case ChannelClose(id) => id in v.chans
    case _ => true
  }

  function AfterEvent(cfg: Config, v: View, e: Event): View
    requires Expected(cfg, v, e)
  {
    match e
    case ChannelOpen(id, peer, name, w, mp) =>
      View(v.chans[id := Channel(Pending, id, peer, true, name, w, cfg.initialWindow, mp, false, false)], v.used + {id})
    case ChannelOpened(id, peer, name, w, mp) =>
      var ch := v.chans[id];
      v.(chans := v.chans[id :=
        if ch.state == Pending then ch.(state := Opened, recvWindow := w)
        else ch.(state := Opened, peerId := peer, havePeer := true, sendWindow := w, maxPacket := mp)])
    case ChannelOpenFail(id, _) => v.(chans := v.chans - {id})
    case ChannelData(id, data) => v.(chans := v.chans[id := v.chans[id].(recvWindow := v.chans[id].recvWindow - |data|)])
    case ChannelWindow(id, _, avail) => v.(chans := v.chans[id := v.chans[id].(sendWindow := avail)])
    case ChannelEof(id) => v.(chans := v.chans[id := v.chans[id].(remoteEof := true)])
    case ChannelClose(id) => v.(chans := v.chans - {id})
    case _ => v
  }

  /** One note is expected, and what it makes of the view. */
  predicate Plausible(cfg: Config, v: View, x: Note) {
    match x
    case Granted(call, id) => Grantable(v, call, id)
    case Told(e) => Expected(cfg, v, e)
  }

  function See(cfg: Config, v: View, x: Note): View
    requires Plausible(cfg, v, x)
  {
    match x
    case Granted(call, id) => AfterCall(cfg, v, call, id)
    case Told(e) => AfterEvent(cfg, v, e)
  }

  /** Everything a host is told, in order; None if a note is not plausible. */
  function SeeAll(cfg: Config, v: View, notes: seq<Note>): Option<View>
    decreases |notes|
  {
    if notes == [] then Some(v)
    else if !Plausible(cfg, v, notes[0]) then None
    else SeeAll(cfg, See(cfg, v, notes[0]), notes[1..])
  }

  function Tolds(events: seq<Event>): (r: seq<Note>)
    ensures |r| == |events| && forall i :: 0 <= i < |r| ==> r[i] == Told(events[i])
  {
    seq(|events|, i requires 0 <= i < |events| => Told(events[i]))
  }

  lemma {:induction false} SeeMore(cfg: Config, v: View, x: seq<Note>, y: seq<Note>)
    ensures SeeAll(cfg, v, x + y) == var w := SeeAll(cfg, v, x); if w.None? then None else SeeAll(cfg, w.value, y)
    decreases |x|
  {
    hide Plausible, See;
    if x == [] {
      assert x + y == y;
    } else if Plausible(cfg, v, x[0]) {
      assert (x + y)[1..] == x[1..] + y;
      SeeMore(cfg, See(cfg, v, x[0]), x[1..], y);
    }
  }

  lemma SeeOne(cfg: Config, v: View, x: Note)
    ensures SeeAll(cfg, v, [x]) == if Plausible(cfg, v, x) then Some(See(cfg, v, x)) else None
  {
    hide Plausible, See;
    if Plausible(cfg, v, x) { assert SeeAll(cfg, See(cfg, v, x), [x][1..]) == Some(See(cfg, v, x)); }
  }

  // ------------------------------------------------------------------
  // The copy against the slots
  // ------------------------------------------------------------------

  /** The copy is the table, after n ids. */
  ghost predicate Tracks(t: T.Table, v: View, n: nat) {
    T.Same(t.slots, v.chans, n) && t.next == n % U32 && forall id :: id in v.used ==> id < n
  }

  /** What a change to the table is to the copy. */
  predicate Affects(v: View, v': View, eff: Effect) {
    match eff
    case Put(id, ch) => v' == v.(chans := v.chans[id := ch])
    case Drop(id) => v' == v.(chans := v.chans - {id})
    case Add(ch) => v' == View(v.chans[ch.localId := ch], v.used + {ch.localId})
    case _ => v' == v
  }

  lemma ChangeTracks(t: T.Table, v: View, v': View, eff: Effect, n: nat, maxChannels: nat)
    requires Tracks(t, v, n) && T.Sane(t, maxChannels, eff) && OwnIds(t, eff) && n + Cost(eff) <= U32 && Affects(v, v', eff)
    ensures Tracks(T.Change(t, eff), v', n + Cost(eff))
  {
    Successor(n);
    hide T.Find, T.Vacant, T.Same, Add32;
    match eff {
      case Put(id, ch) => T.SamePut(t.slots, v.chans, n, id, ch);
      case Drop(id) => T.SameDrop(t.slots, v.chans, n, id);
      case Add(ch) => Small(n); T.SameAdd(t.slots, v.chans, n, ch);
      case Burn => T.SameBurn(t.slots, v.chans, n);
      case Keep =>
    }
  }

  function ViewLook(v: View, id: Option<u32>): Option<Channel> {
    if id.Some? && id.value in v.chans then Some(v.chans[id.value]) else None
  }

  lemma LookTracks(t: T.Table, v: View, n: nat, id: Option<u32>)
    requires Tracks(t, v, n)
    ensures T.Look(t, id) == ViewLook(v, id)
    ensures ViewLook(v, id).Some? ==> v.chans[id.value].localId == id.value && v.chans[id.value].state != Unused
  {
    if id.Some? && id.value in v.chans { var i :| T.At(t.slots, i, id.value); }
  }

  /** A granted call and its events are plausible, and are its change. */
  lemma CallAffects(cfg: Config, st: State, v: View, canAlloc: bool, next: u32, s: Sink, call: Call)
    requires CallTarget(call).Some? && CallTarget(call).value in v.chans ==> v.chans[CallTarget(call).value].localId == CallTarget(call).value
    requires Perform(cfg, st, ViewLook(v, CallTarget(call)), canAlloc, next, s, call).eff.Add? ==> next !in v.used
    ensures var o := Perform(cfg, st, ViewLook(v, CallTarget(call)), canAlloc, next, s, call);
      if o.rc == Ok then
        var w := SeeAll(cfg, v, [Granted(call, next)] + Tolds(o.events)); w.Some? && Affects(v, w.value, o.eff)
      else o.events == [] && Affects(v, v, o.eff)
  {
    var o := Perform(cfg, st, ViewLook(v, CallTarget(call)), canAlloc, next, s, call);
    hide PushRc, Segments;
    if o.rc == Ok {
      CallPlausible(cfg, st, v, canAlloc, next, s, call);
      var w := See(cfg, v, Granted(call, next));
      SeeOne(cfg, v, Granted(call, next));
      SeeMore(cfg, v, [Granted(call, next)], Tolds(o.events));
      if o.events != [] { assert Tolds(o.events) == [Told(o.events[0])]; SeeOne(cfg, w, Told(o.events[0])); }
    }
  }

  lemma CallPlausible(cfg: Config, st: State, v: View, canAlloc: bool, next: u32, s: Sink, call: Call)
    requires Perform(cfg, st, ViewLook(v, CallTarget(call)), canAlloc, next, s, call).eff.Add? ==> next !in v.used
    ensures var o := Perform(cfg, st, ViewLook(v, CallTarget(call)), canAlloc, next, s, call);
      o.rc == Ok ==> Plausible(cfg, v, Granted(call, next)) && |o.events| <= 1
  {
    hide PushRc, Segments;
  }

  /** So is every event of a received PDU. */
  lemma PduAffects(cfg: Config, st: State, v: View, canAlloc: bool, next: u32, s: Sink, p: Pdu)
    requires PduTarget(p).Some? && PduTarget(p).value in v.chans ==> v.chans[PduTarget(p).value].localId == PduTarget(p).value
    requires Handle(cfg, st, ViewLook(v, PduTarget(p)), canAlloc, next, s, p).eff.Add? ==> next !in v.used
    ensures var o := Handle(cfg, st, ViewLook(v, PduTarget(p)), canAlloc, next, s, p);
      var w := SeeAll(cfg, v, Tolds(o.events)); w.Some? && Affects(v, w.value, o.eff)
  {
    var o := Handle(cfg, st, ViewLook(v, PduTarget(p)), canAlloc, next, s, p);
    PduExpected(cfg, st, v, canAlloc, next, s, p);
    hide Handle, Expected, Affects, AfterEvent;
    if o.events != [] { assert Tolds(o.events) == [Told(o.events[0])]; SeeOne(cfg, v, Told(o.events[0])); }
  }

  lemma PduExpected(cfg: Config, st: State, v: View, canAlloc: bool, next: u32, s: Sink, p: Pdu)
    requires PduTarget(p).Some? && PduTarget(p).value in v.chans ==> v.chans[PduTarget(p).value].localId == PduTarget(p).value
    requires Handle(cfg, st, ViewLook(v, PduTarget(p)), canAlloc, next, s, p).eff.Add? ==> next !in v.used
    ensures var o := Handle(cfg, st, ViewLook(v, PduTarget(p)), canAlloc, next, s, p);
      |o.events| <= 1 && if o.events == [] then Affects(v, v, o.eff)
                         else Expected(cfg, v, o.events[0]) && Affects(v, AfterEvent(cfg, v, o.events[0]), o.eff)
  {
    hide PushRc, NameAllowed, CString;
  }

  // ------------------------------------------------------------------
  // One session
  // ------------------------------------------------------------------

  /** What the host was told from c to d. */
  function News(c: Ctx, d: Ctx): seq<Note> {
    Tolds(d.log[Min(|c.log|, |d.log|)..])
  }

  /** From c to d: what the host was told takes its copy along, after n ids in all. */
  ghost predicate Moves(c: Ctx, d: Ctx, v: View, n: nat) {
    c.log <= d.log && var w := SeeAll(c.id.cfg, v, News(c, d)); w.Some? && Tracks(d.table, w.value, n)
  }

  /** An event of no channel. */
  predicate Neutral(e: Event) {
    !e.ChannelOpen? && !e.ChannelOpened? && !e.ChannelOpenFail? && !e.ChannelData? && !e.ChannelWindow? && !e.ChannelEof? && !e.ChannelClose?
  }

  predicate Aside(c: Ctx, d: Ctx) {
    c.log <= d.log && d.table == c.table && forall i :: |c.log| <= i < |d.log| ==> Neutral(d.log[i])
  }

  lemma {:induction false} NeutralSeen(cfg: Config, v: View, events: seq<Event>)
    requires forall i :: 0 <= i < |events| ==> Neutral(events[i])
    ensures SeeAll(cfg, v, Tolds(events)) == Some(v)
    decreases |events|
  {
    if events != [] {
      assert Tolds(events)[1..] == Tolds(events[1..]);
      NeutralSeen(cfg, v, events[1..]);
    }
  }

  lemma AsideMoves(c: Ctx, d: Ctx, v: View, n: nat)
    requires Aside(c, d) && Tracks(c.table, v, n)
    ensures Moves(c, d, v, n) && IdsBetween(c, d) == 0
  {
    SameSteps(c, d);
    hide T.Same, IdsBetween;
    NeutralSeen(c.id.cfg, v, d.log[|c.log|..]);
  }

  lemma MuxMoves(cr: Suite, c: Ctx, plain: bytes, v: View, n: nat)
    requires (c.state == Ready || c.state == Draining) && Tracks(c.table, v, n) && n + IdsBetween(c, OnMux(cr, c, plain)) <= U32
    ensures Moves(c, OnMux(cr, c, plain), v, n + IdsBetween(c, OnMux(cr, c, plain)))
  {
    var p, d := Decode(plain), OnMux(cr, c, plain);
    hide Decode, IdsBetween, Tracks;
    if p.Some? && !(plain != [] && plain[0] == T_PONG) {
      MuxFits(c, p.value);
      MuxOwnIds(c, p.value);
      var o := MuxOutcome(c, p.value);
      hide MuxOutcome, OwnIds, T.Sane, T.Change;
      assert d.table == T.Change(c.table, o.eff) && d.log == c.log + o.events;
      MuxSeen(c, p.value, v, n, d);
    } else {
      AsideMoves(c, d, v, n);
    }
  }

  lemma MuxSeen(c: Ctx, p: Pdu, v: View, n: nat, d: Ctx)
    requires Tracks(c.table, v, n) && n + IdsBetween(c, d) <= U32
    requires var o := MuxOutcome(c, p);
      T.Sane(c.table, c.id.cfg.maxChannels, o.eff) && OwnIds(c.table, o.eff) && d.table == T.Change(c.table, o.eff) && d.log == c.log + o.events
    ensures Moves(c, d, v, n + IdsBetween(c, d))
  {
    var o := MuxOutcome(c, p);
    hide MuxOutcome, T.Change, T.Sane, OwnIds, IdsBetween, Tracks, SeeAll, Affects;
    assert News(c, d) == Tolds(o.events);
    AddedUnused(c, d, v, o.eff, n);
    HandledAffects(c, p, v, n);
    EffectSeen(c, d, v, SeeAll(c.id.cfg, v, Tolds(o.events)).value, o.eff, n);
  }

  lemma HandledAffects(c: Ctx, p: Pdu, v: View, n: nat)
    requires Tracks(c.table, v, n) && (MuxOutcome(c, p).eff.Add? ==> c.table.next !in v.used)
    ensures var o := MuxOutcome(c, p); var w := SeeAll(c.id.cfg, v, Tolds(o.events)); w.Some? && Affects(v, w.value, o.eff)
  {
    LookTracks(c.table, v, n, PduTarget(p));
    hide Handle, Tracks, SeeAll, Affects, T.Look, SinkOf, T.CanAlloc;
    PduAffects(c.id.cfg, c.state, v, T.CanAlloc(c.table, c.id.cfg.maxChannels), c.table.next, SinkOf(c), p);
  }

  lemma NextUnused(t: T.Table, v: View, n: nat)
    requires Tracks(t, v, n)
    ensures n < U32 ==> t.next !in v.used
  {
    if n < U32 { Small(n); }
  }

  lemma AuthAside(cr: Suite, c: Ctx, plain: bytes)
    requires plain != []
    ensures Aside(c, OnAuth(cr, c, plain))
  {
    hide Decode, DecodeAuthDevice, PushRc, Encode, BuildTAuth, CString;
  }

  lemma HelloAside(cr: Suite, c: Ctx, body: bytes)
    ensures Aside(c, PeerHello(cr, c, body))
  {
    hide DecodeHello, ClientHello, ServerHello;
    if DecodeHello(body).Some? {
      EncodeDecodeHello(body);
      if c.id.role == Client { ClientHelloAside(cr, c, DecodeHello(body).value); } else { ServerHelloAside(cr, c, DecodeHello(body).value); }
    }
  }

  lemma ClientHelloAside(cr: Suite, c: Ctx, h: HelloBody)
    requires LegalHello(h)
    ensures Aside(c, ClientHello(cr, c, h))
  {
    hide EncodeHello, Frame, BuildTHello;
  }

  lemma ServerHelloAside(cr: Suite, c: Ctx, h: HelloBody)
    requires LegalHello(h)
    ensures Aside(c, ServerHello(cr, c, h))
  {
    hide EncodeHello, Frame, BuildTHello;
  }

  lemma HeaderAside(cr: Suite, c: Ctx, body: bytes)
    ensures Aside(c, PeerSsHeader(cr, c, body))
  {
    hide Encode, Frame, PushRc, BuildTAuth;
  }

  lemma DecideAside(cr: Suite, c: Ctx, accept: bool, claims: bytes)
    ensures Aside(c, Decide(cr, c, accept, claims).0)
  {
    hide PushRc, Encode;
  }

  lemma PlainMoves(cr: Suite, c: Ctx, plain: bytes, v: View, n: nat)
    requires plain != [] && Tracks(c.table, v, n) && n + IdsBetween(c, OnPlain(cr, c, plain)) <= U32
    ensures Moves(c, OnPlain(cr, c, plain), v, n + IdsBetween(c, OnPlain(cr, c, plain)))
  {
    hide OnAuth, OnMux, Tracks, Moves, IdsBetween;
    if c.state == Auth {
      AuthAside(cr, c, plain);
      AsideMoves(c, OnPlain(cr, c, plain), v, n);
    } else if c.state == Ready || c.state == Draining {
      MuxMoves(cr, c, plain, v, n);
    } else {
      AsideMoves(c, OnPlain(cr, c, plain), v, n);
    }
  }

  /** The stream position has no part in it. */
  lemma PulledMoves(c: Ctx, d: Ctx, e: Ctx, v: View, n: nat)
    requires d == c.(pull := d.pull) && Moves(d, e, v, n)
    ensures Moves(c, e, v, n)
  {
    hide Tracks, SeeAll;
  }

  lemma RecordMoves(cr: Suite, c: Ctx, ct: bytes, v: View, n: nat)
    requires Tracks(c.table, v, n) && n + IdsBetween(c, OnRecord(cr, c, ct)) <= U32
    ensures Moves(c, OnRecord(cr, c, ct), v, n + IdsBetween(c, OnRecord(cr, c, ct)))
  {
    var e := OnRecord(cr, c, ct);
    hide OnPlain, Tracks, Moves;
    if c.pull.None? {
      AsideMoves(c, e, v, n);
    } else {
      var d := c.(pull := Some(c.pull.value.(n := c.pull.value.n + 1)));
      var plain := RecordCases(cr, c, ct);
      hide OnRecord;
      if plain != [] && e == OnPlain(cr, d, plain) {
        assert IdsBetween(d, e) == IdsBetween(c, e);
        PlainMoves(cr, d, plain, v, n);
        PulledMoves(c, d, e, v, n + IdsBetween(c, e));
      } else {
        assert Aside(c, e);
        AsideMoves(c, e, v, n);
      }
    }
  }

  lemma FrameMoves(cr: Suite, c: Ctx, body: bytes, v: View, n: nat)
    requires Tracks(c.table, v, n) && n + IdsBetween(c, OnFrame(cr, c, body)) <= U32
    ensures Moves(c, OnFrame(cr, c, body), v, n + IdsBetween(c, OnFrame(cr, c, body)))
  {
    var d := OnFrame(cr, c, body);
    hide PeerHello, PeerSsHeader, OnRecord, Tracks, Moves, IdsBetween;
    match c.hs {
      case WaitPeerHello => HelloAside(cr, c, body); AsideMoves(c, d, v, n);
      case WaitPeerSs => HeaderAside(cr, c, body); AsideMoves(c, d, v, n);
      case Done => RecordMoves(cr, c, body, v, n);
      case Start => AsideMoves(c, d, v, n);
    }
  }

  /** One move after another. */
  lemma MovesThen(c: Ctx, d: Ctx, e: Ctx, v: View, n: nat, k: nat)
    requires d.id == c.id && Moves(c, d, v, n) && Moves(d, e, SeeAll(c.id.cfg, v, News(c, d)).value, k)
    ensures Moves(c, e, v, k)
  {
    hide Tracks, SeeAll;
    SeeMore(c.id.cfg, v, News(c, d), News(d, e));
    assert News(c, d) + News(d, e) == News(c, e);
  }

  lemma {:induction false} ProcessMoves(cr: Suite, s: Side, v: View, n: nat)
    requires Tracks(s.c.table, v, n) && n + IdsUsed(cr, s) <= U32
    ensures Moves(s.c, Process(cr, s).c, v, n + IdsUsed(cr, s))
    decreases |s.inp|
  {
    hide OnFrame, Parse, Limit, Tracks, IdsBetween, Moves;
    var r := Parse(s.inp, Limit(s.c));
    if !Stopped(s.c) && r.Framed? {
      var d := OnFrame(cr, s.c, r.body);
      FrameSteps(cr, s.c, r.body);
      if d.state == Error {
        SameSteps(s.c, d);
        FrameMoves(cr, s.c, r.body, v, n);
      } else {
        var t := Side(d, s.inp[r.consumed..]);
        FrameMoves(cr, s.c, r.body, v, n);
        R.FrameKeepsId(cr, s.c, r.body);
        var w := MovedTo(s.c, d, v, n + IdsBetween(s.c, d));
        ProcessMoves(cr, t, w, n + IdsBetween(s.c, d));
        MovesThen(s.c, d, Process(cr, t).c, v, n + IdsBetween(s.c, d), n + IdsUsed(cr, s));
      }
    } else {
      AsideMoves(s.c, Process(cr, s).c, v, n);
    }
  }

  lemma MovedTo(c: Ctx, d: Ctx, v: View, n: nat) returns (w: View)
    requires Moves(c, d, v, n)
    ensures c.log <= d.log && SeeAll(c.id.cfg, v, News(c, d)) == Some(w) && Tracks(d.table, w, n)
  {
    w := SeeAll(c.id.cfg, v, News(c, d)).value;
  }

  // ------------------------------------------------------------------
  // Whole runs
  // ------------------------------------------------------------------

  /** What a host has from one operation: its own call, where it is granted, and then the events. */
  function Notes(cr: Suite, s: Side, op: Op): seq<Note> {
    (if op.OpCall? && HostCall(cr, s.c, op.call).1 == Ok then [Granted(op.call, s.c.table.next)] else []) + News(s.c, Do(cr, s, op).c)
  }

  function History(cr: Suite, s: Side, ops: seq<Op>): seq<Note>
    decreases |ops|
  {
    if ops == [] then [] else Notes(cr, s, ops[0]) + History(cr, Do(cr, s, ops[0]), ops[1..])
  }

  lemma CallSeen(cr: Suite, c: Ctx, call: Call, v: View, n: nat)
    requires var (d, rc) := HostCall(cr, c, call); Tracks(c.table, v, n) && n + IdsBetween(c, d) <= U32
    ensures var (d, rc) := HostCall(cr, c, call);
      var w := SeeAll(c.id.cfg, v, (if rc == Ok then [Granted(call, c.table.next)] else []) + News(c, d));
      w.Some? && Tracks(d.table, w.value, n + IdsBetween(c, d))
  {
    CallFits(c, call);
    CallOwnIds(c, call);
    var o, d := CallOutcome(c, call), HostCall(cr, c, call).0;
    Q.CallPush(c, call);
    assert d.log == c.log + o.events && d.table == T.Change(c.table, o.eff) by { hide CallOutcome, T.Change, Encode; }
    hide CallOutcome, HostCall, T.Change, T.Sane, OwnIds, IdsBetween, Tracks, SeeAll, Affects;
    assert News(c, d) == Tolds(o.events);
    AddedUnused(c, d, v, o.eff, n);
    DecidedAffects(c, call, v, n);
    if o.rc == Ok {
      EffectSeen(c, d, v, SeeAll(c.id.cfg, v, [Granted(call, c.table.next)] + Tolds(o.events)).value, o.eff, n);
    } else {
      NeutralSeen(c.id.cfg, v, []);
      assert [] + Tolds(o.events) == Tolds([]);
      EffectSeen(c, d, v, v, o.eff, n);
    }
  }

  lemma DecidedAffects(c: Ctx, call: Call, v: View, n: nat)
    requires Tracks(c.table, v, n) && (CallOutcome(c, call).eff.Add? ==> c.table.next !in v.used)
    ensures var o := CallOutcome(c, call);
      if o.rc == Ok then
        var w := SeeAll(c.id.cfg, v, [Granted(call, c.table.next)] + Tolds(o.events)); w.Some? && Affects(v, w.value, o.eff)
      else o.events == [] && Affects(v, v, o.eff)
  {
    LookTracks(c.table, v, n, CallTarget(call));
    hide Perform, Tracks, SeeAll, Affects, T.Look, SinkOf, T.CanAlloc;
    CallAffects(c.id.cfg, c.state, v, T.CanAlloc(c.table, c.id.cfg.maxChannels), c.table.next, SinkOf(c), call);
  }

  /** An outcome that is what the view makes of these notes. */
  lemma EffectSeen(c: Ctx, d: Ctx, v: View, w: View, eff: Effect, n: nat)
    requires T.Sane(c.table, c.id.cfg.maxChannels, eff) && OwnIds(c.table, eff) && d.table == T.Change(c.table, eff)
    requires Tracks(c.table, v, n) && n + IdsBetween(c, d) <= U32 && Affects(v, w, eff)
    ensures Tracks(d.table, w, n + IdsBetween(c, d))
  {
    CostBetween(c, d, eff, c.id.cfg.maxChannels);
    hide T.Change, T.Sane, OwnIds, IdsBetween, Tracks, Affects;
    ChangeTracks(c.table, v, w, eff, n, c.id.cfg.maxChannels);
  }

  lemma AddedUnused(c: Ctx, d: Ctx, v: View, eff: Effect, n: nat)
    requires T.Sane(c.table, c.id.cfg.maxChannels, eff) && d.table == T.Change(c.table, eff) && Tracks(c.table, v, n) && n + IdsBetween(c, d) <= U32
    ensures eff.Add? ==> c.table.next !in v.used
  {
    CostBetween(c, d, eff, c.id.cfg.maxChannels);
    hide T.Change, T.Sane, IdsBetween, Tracks;
    NextUnused(c.table, v, n);
  }

  lemma DoSeen(cr: Suite, s: Side, op: Op, v: View, n: nat)
    requires Tracks(s.c.table, v, n) && n + IdsTaken(cr, s, op) <= U32
    ensures var d, w := Do(cr, s, op), SeeAll(s.c.id.cfg, v, Notes(cr, s, op));
      w.Some? && Tracks(d.c.table, w.value, n + IdsTaken(cr, s, op)) && d.c.id == s.c.id
  {
    var d := Do(cr, s, op);
    hide HostCall, Decide, Tracks, IdsBetween, Process, IdsUsed, Taken, SeeAll, News;
    match op {
      case OpCall(call) => CallSeen(cr, s.c, call, v, n); R.CallKeepsPull(cr, s.c, call);
      case OpDecide(accept, claims) =>
        DecideAside(cr, s.c, accept, claims);
        R.DecideKeepsId(cr, s.c, accept, claims);
        AsideMoves(s.c, d.c, v, n);
        assert [] + News(s.c, d.c) == News(s.c, d.c);
      case OpFeed(data) =>
        assert [] + News(s.c, d.c) == News(s.c, d.c);
        var t := s.(inp := s.inp + data[..Taken(s, data)]);
        if Taken(s, data) > 0 { ProcessMoves(cr, t, v, n); R.ProcessKeepsId(cr, t); } else { AsideMoves(s.c, d.c, v, n); }
      case OpOutput(max) =>
        assert [] + News(s.c, d.c) == News(s.c, d.c);
        AsideMoves(s.c, d.c, v, n);
    }
  }

  lemma {:induction false} RunSeen(cr: Suite, s: Side, ops: seq<Op>, v: View, n: nat)
    requires Tracks(s.c.table, v, n) && n + AllIdsTaken(cr, s, ops) <= U32
    ensures var w := SeeAll(s.c.id.cfg, v, History(cr, s, ops));
      w.Some? && Tracks(RunOps(cr, s, ops).c.table, w.value, n + AllIdsTaken(cr, s, ops))
    decreases |ops|
  {
    hide Do, Tracks, IdsTaken, Notes;
    if ops != [] {
      DoSeen(cr, s, ops[0], v, n);
      var d, w := Do(cr, s, ops[0]), SeeAll(s.c.id.cfg, v, Notes(cr, s, ops[0])).value;
      RunSeen(cr, d, ops[1..], w, n + IdsTaken(cr, s, ops[0]));
      hide SeeAll;
      SeeMore(s.c.id.cfg, v, Notes(cr, s, ops[0]), History(cr, d, ops[1..]));
    }
  }

  const NO_VIEW: View := View(map[], {})

  /**
   * What a host knows is true, and all there is: after any run of a created
   * session against any peer, with fewer than 2^32 ids taken, every granted
   * call and every event was plausible, and the copy kept from them holds
   * exactly the live channels, field by field.
   */
  lemma HostKnowsItsChannels(cr: Suite, id: Ident, serverPk: Option<Key32>, ephSk: Key32, header: Header24, s: Side, ops: seq<Op>)
    requires Create(cr, id, serverPk, ephSk, header) == Some(s) && AllIdsTaken(cr, s, ops) <= U32
    ensures var v, t := SeeAll(id.cfg, NO_VIEW, History(cr, s, ops)), RunOps(cr, s, ops).c.table;
      && v.Some?
      && (forall i :: 0 <= i < |t.slots| && T.Live(t.slots[i]) ==> t.slots[i].localId in v.value.chans && v.value.chans[t.slots[i].localId] == t.slots[i])
      && (forall x :: x in v.value.chans ==> exists i :: T.At(t.slots, i, x))
  {
    hide *;
    CreatedTracks(cr, id, serverPk, ephSk, header, s);
    RunSeen(cr, s, ops, NO_VIEW, 0);
    TracksIs(RunOps(cr, s, ops).c.table, SeeAll(id.cfg, NO_VIEW, History(cr, s, ops)).value, AllIdsTaken(cr, s, ops));
  }

  lemma TracksIs(t: T.Table, v: View, n: nat)
    requires Tracks(t, v, n)
    ensures forall i :: 0 <= i < |t.slots| && T.Live(t.slots[i]) ==> t.slots[i].localId in v.chans && v.chans[t.slots[i].localId] == t.slots[i]
    ensures forall x :: x in v.chans ==> exists i :: T.At(t.slots, i, x)
  {
  }

  lemma CreatedTracks(cr: Suite, id: Ident, serverPk: Option<Key32>, ephSk: Key32, header: Header24, s: Side)
    requires Create(cr, id, serverPk, ephSk, header) == Some(s)
    ensures Tracks(s.c.table, NO_VIEW, 0) && s.c.id == id
  {
    hide T.EMPTY, EncodeHello, Frame, BuildTHello;
    T.EmptyIsBlank();
  }

  // ------------------------------------------------------------------
  // The windows, by what was told and done
  // ------------------------------------------------------------------

  /**
   * What the host has of one channel: the window the peer announced, when it
   * was first told; the credit told since; the bytes channel_send accepted;
   * the credit it granted; the bytes it was given.
   */
  datatype Account = Account(announced: Option<u32>, added: nat, sent: nat, credited: nat, given: nat)

  const NO_ACCOUNT: Account := Account(None, 0, 0, 0, 0)

  function Enter(a: Account, y: Note, x: u32): Account {
    match y
    case Told(ChannelOpen(id, _, _, w, _)) => if id == x && a.announced.None? then a.(announced := Some(w)) else a
    case Told(ChannelOpened(id, _, _, w, _)) => if id == x && a.announced.None? then a.(announced := Some(w)) else a
    case Told(ChannelWindow(id, added, _)) => if id == x then a.(added := a.added + added) else a
    case Told(ChannelData(id, data)) => if id == x then a.(given := a.given + |data|) else a
    case Granted(CallSend(id, data), _) => if id == x then a.(sent := a.sent + |data|) else a
    case Granted(CallAdjust(id, credit), _) => if id == x then a.(credited := a.credited + credit) else a
    case _ => a
  }

  function AccountOf(notes: seq<Note>, x: u32): Account {
    if notes == [] then NO_ACCOUNT else Enter(AccountOf(notes[..|notes| - 1], x), notes[|notes| - 1], x)
  }

  /** A channel as its account has it. */
  predicate Accounted(cfg: Config, a: Account, ch: Channel) {
    match ch.state
    case Opening => a == NO_ACCOUNT && ch.recvWindow == cfg.initialWindow
    case Pending => a == NO_ACCOUNT.(announced := Some(ch.sendWindow)) && ch.recvWindow == cfg.initialWindow
    case _ =>
      && a.announced.Some?
      && ch.sendWindow == (a.announced.value + a.added - a.sent) % U32
      && ch.recvWindow == (cfg.initialWindow + a.credited - a.given) % U32
  }

  lemma Wrapped(x: int, k: nat)
    ensures (x % U32 + k) % U32 == (x + k) % U32
    ensures k <= x % U32 ==> (x - k) % U32 == x % U32 - k
  {
  }

  predicate Booked(cfg: Config, a: Account, v: View, x: u32) {
    && (x in v.chans ==> x in v.used && Accounted(cfg, a, v.chans[x]))
    && (x !in v.used ==> a == NO_ACCOUNT)
  }

  lemma EventBooked(cfg: Config, a: Account, v: View, e: Event, x: u32)
    requires Booked(cfg, a, v, x) && Expected(cfg, v, e)
    ensures Booked(cfg, Enter(a, Told(e), x), AfterEvent(cfg, v, e), x)
  {
    hide NameAllowed;
    if a.announced.Some? && e.ChannelWindow? { Wrapped(a.announced.value + a.added - a.sent, e.added); }
    if e.ChannelData? { Wrapped(cfg.initialWindow + a.credited - a.given, |e.data|); }
  }

  lemma CallBooked(cfg: Config, a: Account, v: View, call: Call, id: u32, x: u32)
    requires Booked(cfg, a, v, x) && Grantable(v, call, id)
    ensures Booked(cfg, Enter(a, Granted(call, id), x), AfterCall(cfg, v, call, id), x)
  {
    if a.announced.Some? && call.CallSend? { Wrapped(a.announced.value + a.added - a.sent, |call.data|); }
    if call.CallAdjust? { Wrapped(cfg.initialWindow + a.credited - a.given, call.credit); }
  }

  lemma SeeBooked(cfg: Config, a: Account, v: View, y: Note, x: u32)
    requires Booked(cfg, a, v, x) && Plausible(cfg, v, y)
    ensures Booked(cfg, Enter(a, y, x), See(cfg, v, y), x)
  {
    hide Booked, Expected, Grantable, AfterCall, AfterEvent, Enter;
    match y {
      case Granted(call, id) => CallBooked(cfg, a, v, call, id, x);
      case Told(e) => EventBooked(cfg, a, v, e, x);
    }
  }

  lemma {:induction false} AllBooked(cfg: Config, notes: seq<Note>, x: u32)
    requires SeeAll(cfg, NO_VIEW, notes).Some?
    ensures Booked(cfg, AccountOf(notes, x), SeeAll(cfg, NO_VIEW, notes).value, x)
    decreases |notes|
  {
    if notes != [] {
      var front, y := notes[..|notes| - 1], notes[|notes| - 1];
      assert notes == front + [y];
      hide Plausible, See, Booked, SeeAll, Enter;
      SeeMore(cfg, NO_VIEW, front, [y]);
      AllBooked(cfg, front, x);
      SeeOne(cfg, SeeAll(cfg, NO_VIEW, front).value, y);
      SeeBooked(cfg, AccountOf(front, x), SeeAll(cfg, NO_VIEW, front).value, y, x);
    }
  }

  /**
   * The windows of every channel, in every run against any peer: an open one
   * may send what the peer announced and has added since, less what was
   * accepted; it may receive what is configured and was granted since, less
   * what was given - modulo 2^32.  A pending one may send what was announced.
   */
  lemma WindowsAreAccounted(cr: Suite, id: Ident, serverPk: Option<Key32>, ephSk: Key32, header: Header24, s: Side, ops: seq<Op>)
    requires Create(cr, id, serverPk, ephSk, header) == Some(s) && AllIdsTaken(cr, s, ops) <= U32
    ensures var h, slots := History(cr, s, ops), RunOps(cr, s, ops).c.table.slots;
      forall i :: 0 <= i < |slots| && T.Live(slots[i]) ==> Accounted(id.cfg, AccountOf(h, slots[i].localId), slots[i])
  {
    hide *;
    CreatedTracks(cr, id, serverPk, ephSk, header, s);
    RunSeen(cr, s, ops, NO_VIEW, 0);
    AllAccounted(RunOps(cr, s, ops).c.table, id.cfg, History(cr, s, ops), AllIdsTaken(cr, s, ops));
  }

  lemma AllAccounted(t: T.Table, cfg: Config, h: seq<Note>, n: nat)
    requires SeeAll(cfg, NO_VIEW, h).Some? && Tracks(t, SeeAll(cfg, NO_VIEW, h).value, n)
    ensures forall i :: 0 <= i < |t.slots| && T.Live(t.slots[i]) ==> Accounted(cfg, AccountOf(h, t.slots[i].localId), t.slots[i])
  {
    var v := SeeAll(cfg, NO_VIEW, h).value;
    TracksIs(t, v, n);
    hide SeeAll, Tracks, Accounted, AccountOf, T.At;
    forall i | 0 <= i < |t.slots| && T.Live(t.slots[i]) ensures Accounted(cfg, AccountOf(h, t.slots[i].localId), t.slots[i]) {
      AllBooked(cfg, h, t.slots[i].localId);
    }
  }
}
