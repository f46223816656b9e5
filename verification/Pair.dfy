/**
 * Two sessions joined byte for byte: get_output moves any number of bytes
 * onto a link, feed_input takes any number off it, and what it does not take
 * stays there.  The pair refines the two FIFO links of PDUs in Net.
 */
module Pair {
  import opened Base
  import opened Mux
  import opened Wire
  import opened WirePdu
  import opened Crypto
  import opened Engine
  import opened EngineCalls
  import N = Net
  import Q = Sequenced
  import L = EngineLife
  import T = Table

  /** What a host has done: the chunks channel_send accepted, and the channels whose window an adjust overflowed. */
  datatype Record = Record(sent: seq<N.Chunk>, wrapped: set<u32>)

  const NOTHING: Record := Record([], {})

  /** na and nb count the channel ids each side has taken; ra and rb record its host's doings, for reasoning only. */
  datatype Pair = Pair(a: Side, b: Side, ab: bytes, ba: bytes, na: nat, nb: nat, ra: Record, rb: Record)

  function Flip(n: Pair): Pair {
    Pair(n.b, n.a, n.ba, n.ab, n.nb, n.na, n.rb, n.ra)
  }

  /** The record after a call that returned rc. */
  function Noted(r: Record, c: Ctx, call: Call, rc: Rc): Record {
    if rc != Ok then r
    else
      match call
      case CallSend(id, data) => r.(sent := r.sent + [N.Chunk(id, data)])
      case CallAdjust(id, credit) =>
        var look := T.Look(c.table, Some(id));
        if look.Some? && look.value.recvWindow + credit >= U32 then r.(wrapped := r.wrapped + {id}) else r
      case _ => r
  }

  datatype Doing =
    | Calls(call: Call)
    | Decides(accept: bool, claims: bytes)
    | Gives(max: nat)
    | Takes(k: nat)

  function ActA(cr: Suite, n: Pair, w: Doing): Pair {
    match w
    case Calls(call) =>
      var (c, rc) := HostCall(cr, n.a.c, call);
      n.(a := n.a.(c := c), na := n.na + IdsBetween(n.a.c, c), ra := Noted(n.ra, n.a.c, call, rc))
    case Decides(accept, claims) => n.(a := n.a.(c := Decide(cr, n.a.c, accept, claims).0))
    case Gives(max) =>
      var (c, given) := Output(n.a.c, max);
      n.(a := n.a.(c := c), ab := n.ab + given)
    case Takes(k) =>
      var data := n.ba[..Min(k, |n.ba|)];
      var t := Taken(n.a, data);
      n.(a := Feed(cr, n.a, data), ba := n.ba[t..],
         na := n.na + (if t == 0 then 0 else IdsUsed(cr, n.a.(inp := n.a.inp + data[..t]))))
  }

  datatype Move = MoveA(w: Doing) | MoveB(w: Doing)

  function Step(cr: Suite, n: Pair, m: Move): Pair {
    match m
    case MoveA(w) => ActA(cr, n, w)
    case MoveB(w) => Flip(ActA(cr, Flip(n), w))
  }

  function Run(cr: Suite, n: Pair, moves: seq<Move>): Pair
    decreases |moves|
  {
    if moves == [] then n else Run(cr, Step(cr, n, moves[0]), moves[1..])
  }

  // ------------------------------------------------------------------
  // What the bytes in flight stand for
  // ------------------------------------------------------------------

  function Later(st: Stream, k: nat): Stream {
    st.(n := st.n + k)
  }

  function SealFrame(cr: Suite, st: Stream, p: Pdu): bytes
    requires Legal(p)
  {
    var ct := cr.seal(st, TAG_MESSAGE, Encode(p));
    PutU32(|ct| % U32) + ct
  }

  /** PDUs sealed one after the other, from a stream position on. */
  function Sealed(cr: Suite, st: Stream, ps: seq<Pdu>): bytes
    requires AllLegal(ps)
    decreases |ps|
  {
    if ps == [] then [] else SealFrame(cr, st, ps[0]) + Sealed(cr, Later(st, 1), ps[1..])
  }

  lemma {:induction false} SealedSnoc(cr: Suite, st: Stream, ps: seq<Pdu>, p: Pdu)
    requires AllLegal(ps) && Legal(p)
    ensures AllLegal(ps + [p])
    ensures Sealed(cr, st, ps + [p]) == Sealed(cr, st, ps) + SealFrame(cr, Later(st, |ps|), p)
    decreases |ps|
  {
    hide SealFrame;
    if ps == [] {
      assert ps + [p] == [p];
      assert Sealed(cr, st, [p]) == SealFrame(cr, st, p) + Sealed(cr, Later(st, 1), []);
    } else {
      assert (ps + [p])[1..] == ps[1..] + [p];
      SealedSnoc(cr, Later(st, 1), ps[1..], p);
    }
  }

  // ------------------------------------------------------------------
  // One side beside its counterpart in Net
  // ------------------------------------------------------------------

  /** PDUs that fit a frame. */
  predicate Framable(ps: seq<Pdu>) {
    AllLegal(ps) && forall i :: 0 <= i < |ps| ==> PduLen(ps[i]) <= IN_BUF_SIZE
  }

  /** PDUs a side may have on its link once its handshake is over. */
  predicate Plain(ps: seq<Pdu>) {
    Framable(ps) && forall i :: 0 <= i < |ps| ==> !ps[i].AuthDevice? && !ps[i].AuthFail?
  }

  /** The session shows the peer: same state, same channels, same events. */
  ghost predicate Shows(c: Ctx, p: N.Peer, log: seq<Event>) {
    && T.Shows(c.table, p) && c.id.cfg == p.cfg && c.id.role == p.role && c.state == p.state
    && c.id.cfg.maxChannels <= MAX_CHANNELS
    && c.hs == Done && c.push.Some? && c.pull.Some?
    && c.state != Hello && c.state != SsHeader && (c.state == Auth ==> c.id.role == Client)
    && c.log == log
  }

  /** Everything a side was given to send since stream position st is q, sealed in order. */
  predicate Sends(cr: Suite, c: Ctx, st: Stream, gone: bytes, q: seq<Pdu>) {
    Plain(q) && gone + c.out == Sealed(cr, st, q) && c.push == Some(Later(st, |q|))
  }

  lemma OneFrameIsSealed(cr: Suite, c: Ctx, d: Ctx, p: Pdu)
    requires OneFrame(cr, c, d, p)
    ensures d.out == c.out + SealFrame(cr, c.push.value, p) && d.push == Some(Later(c.push.value, 1))
  {
    hide Encode, PutU32;
  }

  lemma SendsMore(cr: Suite, c: Ctx, d: Ctx, st: Stream, gone: bytes, q: seq<Pdu>, p: seq<Pdu>)
    requires Sends(cr, c, st, gone, q) && Plain(p) && |p| <= 1
    requires if p == [] then NoFrame(c, d) else OneFrame(cr, c, d, p[0])
    ensures Sends(cr, d, st, gone, q + p)
  {
    if p == [] {
      assert q + p == q;
    } else {
      assert p == [p[0]] && Legal(p[0]);
      SealedSnoc(cr, st, q, p[0]);
      OneFrameIsSealed(cr, c, d, p[0]);
      hide Sealed, SealFrame, OneFrame, Legal;
      assert gone + d.out == (gone + c.out) + SealFrame(cr, Later(st, |q|), p[0]);
    }
  }

  // ------------------------------------------------------------------
  // A host call is a call step of Net
  // ------------------------------------------------------------------

  /** The counter's advance, read off the 32-bit counter. */
  lemma IdsBetweenShows(c: Ctx, d: Ctx, p: N.Peer, o: Outcome)
    requires T.Shows(c.table, p) && d.table.next == N.NextId(N.Apply(p, o))
    ensures IdsBetween(c, d) == N.Apply(p, o).next - p.next
  {
  }

  /** Outcomes put channels back under the id they were found under. */
  lemma CallOwnId(p: N.Peer, call: Call, s: Sink)
    requires forall id :: id in p.chans ==> p.chans[id].localId == id
    requires var o := N.CallOutcome(p, call, s); o.eff.Add? ==> p.next < U32
    ensures T.OwnId(p, N.CallOutcome(p, call, s).eff)
  {
    hide Segments, PushRc;
  }

  lemma CallPlain(p: N.Peer, call: Call, s: Sink)
    ensures Plain(N.CallOutcome(p, call, s).push) && |N.CallOutcome(p, call, s).push| <= 1
  {
    hide Segments;
  }

  lemma ShownIds(t: T.Table, p: N.Peer)
    requires T.Shows(t, p)
    ensures forall id :: id in p.chans ==> p.chans[id].localId == id
  {
    forall id | id in p.chans ensures p.chans[id].localId == id { var i :| T.At(t.slots, i, id); }
  }

  /** What a session does with an outcome, seen from its peer in Net. */
  ghost predicate Follows(cr: Suite, c: Ctx, d: Ctx, p: N.Peer, log: seq<Event>, o: Outcome) {
    && Shows(d, N.Apply(p, o), log + o.events)
    && Plain(o.push) && |o.push| <= 1 && (if o.push == [] then NoFrame(c, d) else OneFrame(cr, c, d, o.push[0]))
    && IdsBetween(c, d) == N.Apply(p, o).next - p.next
  }

  lemma SettleFollows(cr: Suite, c: Ctx, p: N.Peer, log: seq<Event>, o: Outcome)
    requires StreamLaw(cr) && Shows(c, p, log) && Plain(o.push) && |o.push| <= 1 && L.Roomy(c.id.cfg, SinkOf(c), o)
    requires T.Sane(c.table, p.cfg.maxChannels, o.eff) && T.OwnId(p, o.eff)
    requires o.state == c.state || o.state == Error || o.state == Closed || o.state == Draining
    ensures Follows(cr, c, Settle(cr, c, o), p, log, o)
  {
    T.ChangeShows(c.table, p, o);
    var d := Settle(cr, c, o);
    if o.push != [] {
      AppendIsOneFrame(cr, c, o.push[0]);
      assert OneFrame(cr, c, d, o.push[0]);
    }
    hide T.Sane, T.OwnId, L.Roomy, T.Change, OneFrame;
    IdsBetweenShows(c, d, p, o);
    hide T.Shows;
  }

  /** Both layers decide the same. */
  lemma CallAgrees(c: Ctx, p: N.Peer, log: seq<Event>, call: Call)
    requires Shows(c, p, log)
    ensures CallOutcome(c, call) == N.CallOutcome(p, call, SinkOf(c))
  {
    T.LookShows(c.table, p, CallTarget(call));
    T.CanAllocShows(c.table, p);
    hide Perform, SinkOf;
  }

  lemma CallFollows(cr: Suite, c: Ctx, p: N.Peer, log: seq<Event>, call: Call)
    requires StreamLaw(cr) && Shows(c, p, log)
    requires N.CallOutcome(p, call, SinkOf(c)).eff.Add? ==> p.next < U32
    ensures Follows(cr, c, HostCall(cr, c, call).0, p, log, N.CallOutcome(p, call, SinkOf(c)))
  {
    hide Perform, StreamLaw, T.Shows, T.OwnId, Plain, L.Roomy, Settle, Follows, N.CallOutcome;
    CallAgrees(c, p, log, call);
    ShownIds(c.table, p);
    L.CallFits(c, call);
    L.CallRoomy(c, call);
    CallOwnId(p, call, SinkOf(c));
    CallPlain(p, call, SinkOf(c));
    SettleFollows(cr, c, p, log, CallOutcome(c, call));
  }

  // ------------------------------------------------------------------
  // A frame taken is a delivery step of Net
  // ------------------------------------------------------------------

  lemma ReceiveOwnId(p: N.Peer, m: Pdu, s: Sink)
    requires forall id :: id in p.chans ==> p.chans[id].localId == id
    requires var o := N.ReceiveOutcome(p, m, s); o.eff.Add? ==> p.next < U32
    ensures T.OwnId(p, N.ReceiveOutcome(p, m, s).eff)
  {
    hide Segments, PushRc;
  }

  lemma ReceivePlain(p: N.Peer, m: Pdu, s: Sink)
    requires p.state != Error
    ensures var o := N.ReceiveOutcome(p, m, s); Plain(o.push) && |o.push| <= 1 && (o.state == Error ==> o == Fatal(ErrProtocol))
  {
    hide Segments;
  }

  lemma MuxAgrees(c: Ctx, p: N.Peer, log: seq<Event>, m: Pdu)
    requires Shows(c, p, log) && (c.state == Ready || c.state == Draining)
    requires PduLen(m) <= c.id.cfg.maxRecord && PduLen(m) <= DATA_MAX + 64
    ensures MuxOutcome(c, m) == N.ReceiveOutcome(p, m, SinkOf(c))
  {
    T.LookShows(c.table, p, PduTarget(m));
    T.CanAllocShows(c.table, p);
    hide Handle, SinkOf;
  }

  /** An encoded PDU is handled as its outcome says; for a PONG that is not at all. */
  lemma OnMuxIs(cr: Suite, c: Ctx, m: Pdu)
    requires Legal(m)
    ensures var o := MuxOutcome(c, m);
      AllLegal(o.push) && |o.push| <= 1 && (o.push != [] ==> c.push.Some?) && OnMux(cr, c, Encode(m)) == Settle(cr, c, o)
  {
    DecodeEncode(m);
    Q.MuxIs(cr, c, Encode(m), m);
  }

  lemma MuxFollows(cr: Suite, c: Ctx, p: N.Peer, log: seq<Event>, m: Pdu)
    requires StreamLaw(cr) && Shows(c, p, log) && (c.state == Ready || c.state == Draining) && Legal(m)
    requires PduLen(m) <= c.id.cfg.maxRecord && PduLen(m) <= DATA_MAX + 64
    requires N.ReceiveOutcome(p, m, SinkOf(c)).eff.Add? ==> p.next < U32
    ensures Follows(cr, c, OnMux(cr, c, Encode(m)), p, log, N.ReceiveOutcome(p, m, SinkOf(c)))
  {
    OnMuxIs(cr, c, m);
    hide OnMux, Handle, StreamLaw, T.Shows, T.OwnId, Plain, L.Roomy, Settle, Follows, N.ReceiveOutcome, Decode, Encode;
    MuxAgrees(c, p, log, m);
    ShownIds(c.table, p);
    L.MuxFits(c, m);
    L.MuxRoomy(c, m);
    ReceiveOwnId(p, m, SinkOf(c));
    ReceivePlain(p, m, SinkOf(c));
    SettleFollows(cr, c, p, log, MuxOutcome(c, m));
  }

  /** A side that fails keeps its channels and its output. */
  lemma FailFollows(cr: Suite, c: Ctx, p: N.Peer, log: seq<Event>, rc: Rc)
    requires Shows(c, p, log)
    ensures Follows(cr, c, Fail(c, rc), p, log, Fatal(rc))
  {
    assert T.Shows(c.table, N.Apply(p, Fatal(rc)));
    hide T.Shows;
    IdsBetweenSame(c, Fail(c, rc));
  }

  lemma IdsBetweenSame(c: Ctx, d: Ctx)
    requires d.table == c.table
    ensures IdsBetween(c, d) == 0
  {
  }

  /** In AUTH a client takes an AUTH_OK, and fails on anything else. */
  lemma AuthFollows(cr: Suite, c: Ctx, p: N.Peer, log: seq<Event>, m: Pdu)
    requires Shows(c, p, log) && c.state == Auth && Legal(m) && !m.AuthDevice? && !m.AuthFail?
    requires PduLen(m) <= c.id.cfg.maxRecord && PduLen(m) <= DATA_MAX + 64
    ensures Follows(cr, c, OnAuth(cr, c, Encode(m)), p, log, N.ReceiveOutcome(p, m, SinkOf(c)))
  {
    DecodeEncode(m);
    TypeByte(m);
    hide Decode, Encode, T.Shows, Legal;
    if m.AuthOk? {
      IdsBetweenSame(c, OnAuth(cr, c, Encode(m)));
    } else {
      FailFollows(cr, c, p, log, ErrProtocol);
      hide Follows;
    }
  }

  lemma TypeByte(m: Pdu)
    requires Legal(m)
    ensures Encode(m) != [] && (Encode(m)[0] == T_AUTH_DEVICE <==> m.AuthDevice?)
      && (Encode(m)[0] == T_AUTH_OK <==> m.AuthOk?) && (Encode(m)[0] == T_AUTH_FAIL <==> m.AuthFail?)
  {
    hide PutU32, PutU16;
  }

  /** A sealed PDU opens at its position, unless it is too long to be looked at. */
  lemma SealedOpens(cr: Suite, c: Ctx, m: Pdu)
    requires StreamLaw(cr) && c.pull.Some? && Legal(m)
    ensures Encode(m) != [] && OnRecord(cr, c, cr.seal(c.pull.value, TAG_MESSAGE, Encode(m))) ==
      if PduLen(m) > c.id.cfg.maxRecord || PduLen(m) > DATA_MAX + 64 then Fail(c, ErrProtocol)
      else OnPlain(cr, c.(pull := Some(Later(c.pull.value, 1))), Encode(m))
  {
    var ct := cr.seal(c.pull.value, TAG_MESSAGE, Encode(m));
    assert |ct| == PduLen(m) + SS_ABYTES && cr.unseal(c.pull.value, ct) == Some((TAG_MESSAGE, Encode(m)));
    assert PduLen(m) > 0;
    hide StreamLaw, OnPlain, Fail, Encode;
  }

  /** The frame at the head of the link, taken whole. */
  lemma RecordFollows(cr: Suite, c: Ctx, p: N.Peer, log: seq<Event>, m: Pdu)
    requires StreamLaw(cr) && Shows(c, p, log) && !Stopped(c) && Legal(m) && !m.AuthDevice? && !m.AuthFail?
    requires N.ReceiveOutcome(p, m, SinkOf(c)).eff.Add? ==> p.next < U32
    ensures var d := OnRecord(cr, c, cr.seal(c.pull.value, TAG_MESSAGE, Encode(m)));
      var o := N.ReceiveOutcome(p, m, SinkOf(c));
      Follows(cr, c, d, p, log, o) && (o.state != Error ==> d.pull == Some(Later(c.pull.value, 1)))
  {
    SealedOpens(cr, c, m);
    hide StreamLaw, Follows, Encode, Legal, OnMux, OnAuth, OnRecord;
    if PduLen(m) > c.id.cfg.maxRecord || PduLen(m) > DATA_MAX + 64 {
      FailFollows(cr, c, p, log, ErrProtocol);
    } else {
      var d := c.(pull := Some(Later(c.pull.value, 1)));
      assert SinkOf(d) == SinkOf(c);
      hide N.ReceiveOutcome, SinkOf;
      if c.state == Auth { AuthFollows(cr, d, p, log, m); } else { MuxFollows(cr, d, p, log, m); }
      PulledFollows(cr, c, d, OnPlain(cr, d, Encode(m)), p, log, N.ReceiveOutcome(p, m, SinkOf(c)));
      PlainKeepsPull(cr, d, Encode(m));
    }
  }

  /** The pull counter has no part in what is sent or shown. */
  lemma PulledFollows(cr: Suite, c: Ctx, d: Ctx, e: Ctx, p: N.Peer, log: seq<Event>, o: Outcome)
    requires d == c.(pull := d.pull) && Follows(cr, d, e, p, log, o)
    ensures Follows(cr, c, e, p, log, o)
  {
    hide Shows, T.Shows, Encode, Legal;
  }

  lemma PlainKeepsPull(cr: Suite, c: Ctx, plain: bytes)
    requires plain != []
    ensures OnPlain(cr, c, plain).pull == c.pull
  {
    hide Decode, DecodeAuthDevice, Handle;
  }
}
