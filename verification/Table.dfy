/**
 * The channel table, src/sodchan.c: sixteen slots, an id counter that wraps
 * at 2^32, and a count of live slots.
 */
module Table {
  import opened Base
  import opened Mux
  import N = Net

  datatype Table = Table(slots: seq<Channel>, next: u32, active: nat)

  const EMPTY: Table := Table(
    [BLANK, BLANK, BLANK, BLANK, BLANK, BLANK, BLANK, BLANK,
     BLANK, BLANK, BLANK, BLANK, BLANK, BLANK, BLANK, BLANK], 0, 0)

  lemma EmptyIsBlank()
    ensures |EMPTY.slots| == MAX_CHANNELS && EMPTY.next == 0 && EMPTY.active == 0
    ensures forall i :: 0 <= i < MAX_CHANNELS ==> EMPTY.slots[i] == BLANK
  {
  }

  predicate Live(ch: Channel) {
    ch.state != Unused
  }

  /** ch_by_local: the first live slot under an id, or the table's length. */
  function Find(slots: seq<Channel>, id: u32): (i: nat)
    ensures i <= |slots|
    ensures i < |slots| ==> Live(slots[i]) && slots[i].localId == id
    ensures forall j :: 0 <= j < i ==> !(Live(slots[j]) && slots[j].localId == id)
  {
    if slots == [] then 0
    else if Live(slots[0]) && slots[0].localId == id then 0
    else
      var i := Find(slots[1..], id);
      assert forall j :: 0 < j < i + 1 ==> slots[j] == slots[1..][j - 1];
      i + 1
  }

  /** The first unused slot, or the table's length. */
  function Vacant(slots: seq<Channel>): (i: nat)
    ensures i <= |slots|
    ensures i < |slots| ==> !Live(slots[i])
    ensures forall j :: 0 <= j < i ==> Live(slots[j])
  {
    if slots == [] then 0
    else if !Live(slots[0]) then 0
    else
      var i := Vacant(slots[1..]);
      assert forall j :: 0 < j < i + 1 ==> slots[j] == slots[1..][j - 1];
      i + 1
  }

  function Look(t: Table, id: Option<u32>): Option<Channel> {
    if id.None? then None
    else
      var i := Find(t.slots, id.value);
      if i < |t.slots| then Some(t.slots[i]) else None
  }

  predicate CanAlloc(t: Table, maxChannels: nat) {
    t.active < maxChannels && Vacant(t.slots) < |t.slots|
  }

  function Change(t: Table, eff: Effect): Table {
    match eff
    case Keep => t
    case Put(id, ch) =>
      var i := Find(t.slots, id);
      if i < |t.slots| then t.(slots := t.slots[i := ch]) else t
    case Drop(id) =>
      var i := Find(t.slots, id);
      if i < |t.slots| then t.(slots := t.slots[i := BLANK], active := if t.active > 0 then t.active - 1 else 0) else t
    case Add(ch) =>
      var i := Vacant(t.slots);
      if i < |t.slots| then t.(slots := t.slots[i := ch], next := Add32(t.next, 1), active := t.active + 1) else t
    case Burn =>
      var i := Vacant(t.slots);
      if i < |t.slots| then t.(slots := t.slots[i := BLANK], next := Add32(t.next, 1)) else t
  }

  // ------------------------------------------------------------------
  // Integrity
  // ------------------------------------------------------------------

  function LiveCount(slots: seq<Channel>): (c: nat)
    ensures c <= |slots|
  {
    if slots == [] then 0 else (if Live(slots[0]) then 1 else 0) + LiveCount(slots[1..])
  }

  /** What every operation keeps, with no bound on how many ids were taken. */
  predicate Counted(t: Table, maxChannels: nat) {
    |t.slots| == MAX_CHANNELS && t.active == LiveCount(t.slots) && t.active <= maxChannels
  }

  lemma {:induction false} CountUpdate(slots: seq<Channel>, i: nat, ch: Channel)
    requires i < |slots|
    ensures LiveCount(slots[i := ch]) ==
      LiveCount(slots) - (if Live(slots[i]) then 1 else 0) + (if Live(ch) then 1 else 0)
  {
    var s' := slots[i := ch];
    if i == 0 {
      assert s'[1..] == slots[1..];
    } else {
      assert s'[1..] == slots[1..][i - 1 := ch];
      CountUpdate(slots[1..], i - 1, ch);
    }
  }

  /** No slot is unused only when all are counted. */
  lemma {:induction false} FullMeansAll(slots: seq<Channel>)
    ensures Vacant(slots) == |slots| <==> LiveCount(slots) == |slots|
  {
    if slots != [] {
      FullMeansAll(slots[1..]);
    }
  }

  /** By pigeonhole, allocation fails on the configured limit and on nothing else. */
  lemma AllocFailsOnlyOnLimit(t: Table, maxChannels: nat)
    requires Counted(t, maxChannels) && maxChannels <= MAX_CHANNELS
    ensures CanAlloc(t, maxChannels) <==> t.active < maxChannels
  {
    FullMeansAll(t.slots);
  }

  /** An effect an operation may have on this table. */
  predicate Sane(t: Table, maxChannels: nat, eff: Effect) {
    match eff
    case Put(id, ch) => Find(t.slots, id) < |t.slots| && Live(ch)
    case Drop(id) => Find(t.slots, id) < |t.slots|
    case Add(ch) => CanAlloc(t, maxChannels) && Live(ch)
    case Burn => CanAlloc(t, maxChannels)
    case Keep => true
  }

  lemma ChangeKeepsCount(t: Table, maxChannels: nat, eff: Effect)
    requires Counted(t, maxChannels) && Sane(t, maxChannels, eff)
    ensures Counted(Change(t, eff), maxChannels)
  {
    match eff {
      case Put(id, ch) => CountUpdate(t.slots, Find(t.slots, id), ch);
      case Drop(id) => CountUpdate(t.slots, Find(t.slots, id), BLANK);
      case Add(ch) => CountUpdate(t.slots, Vacant(t.slots), ch);
      case Burn => CountUpdate(t.slots, Vacant(t.slots), BLANK);
      case Keep =>
    }
  }

  // ------------------------------------------------------------------
  // The slots as a map from ids, while ids are distinct
  // ------------------------------------------------------------------

  predicate Distinct(slots: seq<Channel>) {
    forall i, j :: 0 <= i < j < |slots| && Live(slots[i]) && Live(slots[j]) ==> slots[i].localId != slots[j].localId
  }

  ghost predicate At(slots: seq<Channel>, i: int, id: u32) {
    0 <= i < |slots| && Live(slots[i]) && slots[i].localId == id
  }

  /** The slots and a channel map hold the same channels. */
  ghost predicate Same(slots: seq<Channel>, chans: map<u32, Channel>, next: nat) {
    && Distinct(slots)
    && (forall i :: 0 <= i < |slots| && Live(slots[i]) ==>
          slots[i].localId in chans && chans[slots[i].localId] == slots[i] && slots[i].localId < next)
    && (forall id :: id in chans ==> exists i :: At(slots, i, id))
  }

  /** The table stands for the peer's channel map: same ids, same channels, same counter. */
  ghost predicate Shows(t: Table, p: N.Peer) {
    Counted(t, p.cfg.maxChannels) && Same(t.slots, p.chans, p.next) && t.next == N.NextId(p)
  }

  lemma LookShows(t: Table, p: N.Peer, id: Option<u32>)
    requires Shows(t, p)
    ensures Look(t, id) == N.Look(p, id)
  {
    if id.Some? && id.value in p.chans {
      var i :| At(t.slots, i, id.value);
    }
  }

  lemma {:induction false} LiveIds(slots: seq<Channel>, ids: set<u32>)
    requires Distinct(slots)
    requires forall id :: id in ids <==> Find(slots, id) < |slots|
    ensures |ids| == LiveCount(slots)
    decreases |slots|
  {
    if slots == [] {
      assert ids == {};
    } else {
      var rest := slots[1..];
      assert Distinct(rest) by {
        forall i, j | 0 <= i < j < |rest| && Live(rest[i]) && Live(rest[j]) ensures rest[i].localId != rest[j].localId {
          assert rest[i] == slots[i + 1] && rest[j] == slots[j + 1];
        }
      }
      if Live(slots[0]) {
        var x := slots[0].localId;
        forall j | 0 <= j < |rest| && Live(rest[j]) ensures rest[j].localId != x {
          assert rest[j] == slots[j + 1];
        }
        forall id ensures id in ids - {x} <==> Find(rest, id) < |rest| {
        }
        LiveIds(rest, ids - {x});
        assert x in ids;
      } else {
        LiveIds(rest, ids);
      }
    }
  }

  lemma CanAllocShows(t: Table, p: N.Peer)
    requires Shows(t, p) && p.cfg.maxChannels <= MAX_CHANNELS
    ensures CanAlloc(t, p.cfg.maxChannels) == N.CanAlloc(p)
  {
    AllocFailsOnlyOnLimit(t, p.cfg.maxChannels);
    forall id ensures id in p.chans <==> Find(t.slots, id) < |t.slots| {
      if id in p.chans { var i :| At(t.slots, i, id); }
    }
    LiveIds(t.slots, p.chans.Keys);
  }

  /** An effect that keeps channels under their own ids. */
  predicate OwnId(p: N.Peer, eff: Effect) {
    match eff
    case Put(id, ch) => ch.localId == id
    case Add(ch) => ch.localId == N.NextId(p) && p.next < U32
    case _ => true
  }

  lemma SamePut(slots: seq<Channel>, chans: map<u32, Channel>, next: nat, id: u32, ch: Channel)
    requires Same(slots, chans, next) && Find(slots, id) < |slots| && Live(ch) && ch.localId == id
    ensures Same(slots[Find(slots, id) := ch], chans[id := ch], next)
  {
    var i := Find(slots, id);
    var slots', chans' := slots[i := ch], chans[id := ch];
    assert slots'[i] == ch;
    forall k | k in chans' ensures exists j :: At(slots', j, k) {
      if k != id { var j :| At(slots, j, k); assert At(slots', j, k); } else { assert At(slots', i, k); }
    }
  }

  lemma SameDrop(slots: seq<Channel>, chans: map<u32, Channel>, next: nat, id: u32)
    requires Same(slots, chans, next) && Find(slots, id) < |slots|
    ensures Same(slots[Find(slots, id) := BLANK], chans - {id}, next)
  {
    var i := Find(slots, id);
    var slots', chans' := slots[i := BLANK], chans - {id};
    forall k | k in chans' ensures exists j :: At(slots', j, k) {
      var j :| At(slots, j, k);
      assert At(slots', j, k);
    }
  }

  lemma SameAdd(slots: seq<Channel>, chans: map<u32, Channel>, next: nat, ch: Channel)
    requires Same(slots, chans, next) && Vacant(slots) < |slots| && Live(ch) && ch.localId == next
    ensures Same(slots[Vacant(slots) := ch], chans[ch.localId := ch], next + 1)
  {
    var i := Vacant(slots);
    var slots', chans' := slots[i := ch], chans[ch.localId := ch];
    assert slots'[i] == ch;
    forall k | k in chans' ensures exists j :: At(slots', j, k) {
      if k in chans { var j :| At(slots, j, k); assert At(slots', j, k); } else { assert At(slots', i, k); }
    }
  }

  lemma SameBurn(slots: seq<Channel>, chans: map<u32, Channel>, next: nat)
    requires Same(slots, chans, next) && Vacant(slots) < |slots|
    ensures Same(slots[Vacant(slots) := BLANK], chans, next + 1)
  {
    hide Vacant;
    var i := Vacant(slots);
    var slots' := slots[i := BLANK];
    assert forall j :: 0 <= j < |slots| && j != i ==> slots'[j] == slots[j];
    forall k | k in chans ensures exists j :: At(slots', j, k) {
      var j :| At(slots, j, k);
      assert At(slots', j, k);
    }
  }

  lemma NextAfter(p: N.Peer)
    ensures Add32(N.NextId(p), 1) == N.NextId(p.(next := p.next + 1))
  {
  }

  /** Slots and map change in step. */
  lemma ChangeShows(t: Table, p: N.Peer, o: Outcome)
    requires Shows(t, p) && p.cfg.maxChannels <= MAX_CHANNELS
    requires Sane(t, p.cfg.maxChannels, o.eff) && OwnId(p, o.eff)
    ensures Shows(Change(t, o.eff), N.Apply(p, o))
  {
    ChangeKeepsCount(t, p.cfg.maxChannels, o.eff);
    NextAfter(p);
    assert o.eff.Add? ==> o.eff.ch.localId == p.next;
    hide Same, Counted, Add32, N.NextId, Find, Vacant;
    match o.eff {
      case Put(id, ch) => SamePut(t.slots, p.chans, p.next, id, ch);
      case Drop(id) => SameDrop(t.slots, p.chans, p.next, id);
      case Add(ch) => SameAdd(t.slots, p.chans, p.next, ch);
      case Burn => SameBurn(t.slots, p.chans, p.next);
      case Keep =>
    }
  }
}
