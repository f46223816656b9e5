/**
 * The event queue: a ring of fixed capacity that refuses the newest event
 * when full.  The history fields record what was offered and what the host
 * took; what the host sees is offered events, in order, with some left out.
 */
module EventRing {
  import opened Base
  import opened Mux

  /** x is y with some elements left out. */
  predicate Subsequence(x: seq<Event>, y: seq<Event>) {
    if x == [] then true
    else if y == [] then false
    else if x[0] == y[0] then Subsequence(x[1..], y[1..])
    else Subsequence(x, y[1..])
  }

  /** Leaving more out, and taking the next one, keep the order. */
  lemma {:induction false} SubsequenceMore(x: seq<Event>, y: seq<Event>, e: Event)
    requires Subsequence(x, y)
    ensures Subsequence(x, y + [e]) && Subsequence(x + [e], y + [e])
    decreases |y|
  {
    if y == [] {
      assert x + [e] == [e] && y + [e] == [e];
      assert Subsequence([e][1..], [e][1..]);
    } else {
      assert (y + [e])[0] == y[0] && (y + [e])[1..] == y[1..] + [e];
      if x == [] {
        SubsequenceMore(x, y[1..], e);
        assert x + [e] == [e];
        SubsequenceMore([], [], e);
        if e == y[0] { assert [e][1..] == []; }
      } else if x[0] == y[0] {
        assert (x + [e])[1..] == x[1..] + [e];
        SubsequenceMore(x[1..], y[1..], e);
      } else {
        SubsequenceMore(x, y[1..], e);
      }
    }
  }

  /** The index arithmetic of the ring. */
  function Around(x: nat, cap: nat): (r: nat)
    requires 0 < cap && x < 2 * cap
    ensures r == if x < cap then x else x - cap
  {
    x % cap
  }

  /** count elements of a ring from head on, around its end. */
  function Rotated(ring: seq<Event>, head: nat, count: nat): (r: seq<Event>)
    requires head < |ring| && count <= |ring|
    ensures |r| == count
  {
    if head + count <= |ring| then ring[head..head + count] else ring[head..] + ring[..head + count - |ring|]
  }

  lemma RotatedMore(ring: seq<Event>, head: nat, count: nat, e: Event)
    requires head < |ring| && count < |ring|
    ensures Rotated(ring[Around(head + count, |ring|) := e], head, count + 1) == Rotated(ring, head, count) + [e]
  {
    hide Around;
  }

  lemma RotatedLess(ring: seq<Event>, head: nat, count: nat)
    requires head < |ring| && 0 < count <= |ring|
    ensures Rotated(ring, Around(head + 1, |ring|), count - 1) == Rotated(ring, head, count)[1..]
    ensures Rotated(ring, head, count)[0] == ring[head]
  {
    hide Around;
  }

  class EventRing {
    const ring: array<Event>
    var head: nat
    var count: nat
    ghost var offered: seq<Event>
    ghost var taken: seq<Event>

    ghost predicate Valid()
      reads this, ring
    {
      && ring.Length > 0 && head < ring.Length && count <= ring.Length
      && Subsequence(taken + Contents(), offered)
    }

    /** The queue from the oldest event on. */
    function Contents(): (r: seq<Event>)
      requires head < ring.Length && count <= ring.Length
      reads this, ring
      ensures |r| == count
    {
      Rotated(ring[..], head, count)
    }

    constructor (capacity: nat)
      requires capacity > 0
      ensures Valid() && fresh(ring) && ring.Length == capacity && Contents() == [] && offered == [] && taken == []
    {
      ring := new Event[capacity](_ => PingEvent);
      head, count := 0, 0;
      offered, taken := [], [];
    }

    method Clear()
      requires Valid()
      modifies this
      ensures Valid() && Contents() == [] && offered == [] && taken == []
    {
      head, count := 0, 0;
      offered, taken := [], [];
    }

    /** sodchan_i_queue_event */
    method Queue(e: Event) returns (rc: Rc)
      requires Valid()
      modifies this, ring
      ensures Valid() && taken == old(taken) && offered == old(offered) + [e]
      ensures rc == if |old(Contents())| < ring.Length then Ok else ErrFull
      ensures Contents() == if rc == Ok then old(Contents()) + [e] else old(Contents())
    {
      hide Around, Subsequence, Rotated;
      SubsequenceMore(taken + Contents(), offered, e);
      offered := offered + [e];
      if count >= ring.Length {
        return ErrFull;
      }
      var i := Around(head + count, ring.Length);
      RotatedMore(ring[..], head, count, e);
      ring[i] := e;
      count := count + 1;
      assert taken + Contents() == old(taken + Contents()) + [e];
      return Ok;
    }

    /** sodchan_next_event */
    method Next() returns (e: Option<Event>)
      requires Valid()
      modifies this
      ensures Valid() && offered == old(offered)
      ensures e == if old(Contents()) == [] then None else Some(old(Contents())[0])
      ensures Contents() == if e.None? then old(Contents()) else old(Contents())[1..]
      ensures taken == if e.None? then old(taken) else old(taken) + [e.value]
    {
      if count == 0 {
        return None;
      }
      hide Around, Subsequence, Rotated;
      RotatedLess(ring[..], head, count);
      e := Some(ring[head]);
      ghost var was := Contents();
      head := Around(head + 1, ring.Length);
      count := count - 1;
      taken := taken + [e.value];
      assert taken + Contents() == old(taken) + was;
    }
  }
}
