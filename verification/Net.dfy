/**
 * Two sessions joined by two FIFO links of PDUs.  Either side may make any
 * host call at any time, and either link may deliver its oldest PDU at any
 * time; the room in the output buffer is left open, so every call may also
 * fail for lack of space.  The history records are for reasoning only.
 */
module Net {
  import opened Base
  import opened Mux

  /** One session as the multiplexer sees it; next counts every id ever taken. */
  datatype Peer = Peer(role: Role, cfg: Config, state: State, chans: map<u32, Channel>, next: nat)

  predicate CanAlloc(p: Peer) {
    |p.chans| < p.cfg.maxChannels
  }

  function NextId(p: Peer): u32 {
    p.next % U32
  }

  function Look(p: Peer, id: Option<u32>): Option<Channel> {
    if id.Some? && id.value in p.chans then Some(p.chans[id.value]) else None
  }

  function Apply(p: Peer, o: Outcome): Peer {
    match o.eff
    case Keep => p.(state := o.state)
    case Put(id, ch) => p.(state := o.state, chans := p.chans[id := ch])
    case Drop(id) => p.(state := o.state, chans := p.chans - {id})
    case Add(ch) => p.(state := o.state, chans := p.chans[NextId(p) := ch], next := p.next + 1)
    case Burn => p.(state := o.state, next := p.next + 1)
  }

  datatype Chunk = Chunk(id: u32, data: bytes)

  /**
   * bind: the peer id each local channel was ever paired with; offered: local
   * ids announced by an OPEN; sent: accepted channel_send calls; log: events
   * offered to the host; wrapped: channels whose recv_window overflowed.
   */
  datatype Hist = Hist(bind: map<u32, u32>, offered: set<u32>, sent: seq<Chunk>, log: seq<Event>, wrapped: set<u32>)

  datatype Net = Net(a: Peer, b: Peer, ab: seq<Pdu>, ba: seq<Pdu>, ha: Hist, hb: Hist)

  function Flip(n: Net): Net {
    Net(n.b, n.a, n.ba, n.ab, n.hb, n.ha)
  }

  // ------------------------------------------------------------------
  // Steps of side A; side B steps through Flip
  // ------------------------------------------------------------------

  function CallOutcome(p: Peer, c: Call, s: Sink): Outcome {
    Perform(p.cfg, p.state, Look(p, CallTarget(c)), CanAlloc(p), NextId(p), s, c)
  }

  function NoteCall(h: Hist, p: Peer, c: Call, o: Outcome): Hist {
    var h := h.(log := h.log + o.events);
    if o.rc != Ok then h
    else
      match c
      case CallOpen(_) => h.(offered := h.offered + {NextId(p)})
      case CallSend(id, data) => h.(sent := h.sent + [Chunk(id, data)])
      case CallAdjust(id, credit) =>
        if id in p.chans && p.chans[id].recvWindow + credit >= U32 then h.(wrapped := h.wrapped + {id}) else h
      case _ => h
  }

  function CallA(n: Net, c: Call, s: Sink): Net {
    var o := CallOutcome(n.a, c, s);
    n.(a := Apply(n.a, o), ab := n.ab + o.push, ha := NoteCall(n.ha, n.a, c, o))
  }

  /** handle_encrypted_pdu: the size guard, then AUTH or mux by state. */
  function ReceiveOutcome(p: Peer, m: Pdu, s: Sink): Outcome {
    if PduLen(m) > p.cfg.maxRecord || PduLen(m) > DATA_MAX + 64 then Fatal(ErrProtocol)
    else if p.state == Auth then
      if m.AuthOk? && p.role == Client then Outcome(Ok, Ready, Keep, [], [Authenticated])
      else Fatal(ErrProtocol)
    else Handle(p.cfg, p.state, Look(p, PduTarget(m)), CanAlloc(p), NextId(p), s, m)
  }

  function NoteReceive(h: Hist, p: Peer, m: Pdu, o: Outcome): Hist {
    var h := h.(log := h.log + o.events);
    if m.Open? && o.eff.Add? then h.(bind := h.bind[NextId(p) := m.sender])
    else if m.Confirm? && o.eff.Put? then h.(bind := h.bind[m.recipient := m.sender])
    else h
  }

  /** A PDU that is answered by ERROR is not taken off the link. */
  function DeliverA(n: Net, s: Sink): Net {
    if n.ba == [] || n.a.state == Error || n.a.state == Closed then n
    else
      var o := ReceiveOutcome(n.a, n.ba[0], s);
      n.(a := Apply(n.a, o), ab := n.ab + o.push,
         ba := if o.state == Error then n.ba else n.ba[1..],
         ha := NoteReceive(n.ha, n.a, n.ba[0], o))
  }

  datatype Act =
    | ActCall(c: Call, s: Sink)
    | ActDeliver(s: Sink)

  function ActA(n: Net, act: Act): Net {
    match act
    case ActCall(c, s) => CallA(n, c, s)
    case ActDeliver(s) => DeliverA(n, s)
  }

  datatype Move = MoveA(act: Act) | MoveB(act: Act)

  function Step(n: Net, m: Move): Net {
    match m
    case MoveA(act) => ActA(n, act)
    case MoveB(act) => Flip(ActA(Flip(n), act))
  }

  function Run(n: Net, moves: seq<Move>): Net
    decreases |moves|
  {
    if moves == [] then n else Run(Step(n, moves[0]), moves[1..])
  }

  // ------------------------------------------------------------------
  // What is in flight, and what the logs say
  // ------------------------------------------------------------------

  /** DATA chunks on a link addressed to channel r, oldest first. */
  function DataTo(q: seq<Pdu>, r: u32): seq<bytes> {
    if q == [] then []
    else (if q[0].Data? && q[0].recipient == r then [q[0].data] else []) + DataTo(q[1..], r)
  }

  function BytesTo(q: seq<Pdu>, r: u32): nat {
    if q == [] then 0
    else (if q[0].Data? && q[0].recipient == r then |q[0].data| else 0) + BytesTo(q[1..], r)
  }

  /** WINDOW credit on a link addressed to channel r. */
  function CreditTo(q: seq<Pdu>, r: u32): nat {
    if q == [] then 0
    else (if q[0].Window? && q[0].recipient == r then q[0].add else 0) + CreditTo(q[1..], r)
  }

  /** Chunks channel_send accepted on channel k. */
  function SentOn(sent: seq<Chunk>, k: u32): seq<bytes> {
    if sent == [] then []
    else
      var last := sent[|sent| - 1];
      SentOn(sent[..|sent| - 1], k) + (if last.id == k then [last.data] else [])
  }

  /** Chunks offered to the host as DATA of channel r. */
  function GotOn(log: seq<Event>, r: u32): seq<bytes> {
    if log == [] then []
    else
      var last := log[|log| - 1];
      GotOn(log[..|log| - 1], r) + (if last.ChannelData? && last.id == r then [last.data] else [])
  }

  lemma {:induction false} DataToSnoc(q: seq<Pdu>, p: Pdu, r: u32)
    ensures DataTo(q + [p], r) == DataTo(q, r) + (if p.Data? && p.recipient == r then [p.data] else [])
    ensures BytesTo(q + [p], r) == BytesTo(q, r) + (if p.Data? && p.recipient == r then |p.data| else 0)
    ensures CreditTo(q + [p], r) == CreditTo(q, r) + (if p.Window? && p.recipient == r then p.add else 0)
  {
    if q == [] {
      assert q + [p] == [p];
    } else {
      assert (q + [p])[1..] == q[1..] + [p];
      DataToSnoc(q[1..], p, r);
    }
  }

  /** Nothing is in flight to a channel no PDU on the link names. */
  lemma {:induction false} NothingTo(q: seq<Pdu>, r: u32)
    requires forall i :: 0 <= i < |q| ==> !(q[i].Data? && q[i].recipient == r)
    ensures DataTo(q, r) == [] && BytesTo(q, r) == 0
  {
    if q != [] {
      forall i | 0 <= i < |q[1..]| ensures !(q[1..][i].Data? && q[1..][i].recipient == r) {
        assert q[1..][i] == q[i + 1];
      }
      NothingTo(q[1..], r);
    }
  }

  lemma {:induction false} NoCreditTo(q: seq<Pdu>, r: u32)
    requires forall i :: 0 <= i < |q| ==> !(q[i].Window? && q[i].recipient == r)
    ensures CreditTo(q, r) == 0
  {
    if q != [] {
      forall i | 0 <= i < |q[1..]| ensures !(q[1..][i].Window? && q[1..][i].recipient == r) {
        assert q[1..][i] == q[i + 1];
      }
      NoCreditTo(q[1..], r);
    }
  }
}
