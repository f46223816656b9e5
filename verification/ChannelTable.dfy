/**
 * The sixteen channel slots as sodchan_ctx holds them, searched and updated
 * in place.
 */
module ChannelTable {
  import opened Base
  import opened Mux
  import T = Table

  class ChannelTable {
    const slots: array<Channel>
    var next: u32
    var active: nat

    predicate Valid()
      reads this
    {
      slots.Length == MAX_CHANNELS
    }

    function Model(): T.Table
      reads this, slots
    {
      T.Table(slots[..], next, active)
    }

    constructor ()
      ensures Valid() && fresh(slots) && Model() == T.EMPTY
    {
      slots := new Channel[MAX_CHANNELS](_ => BLANK);
      next, active := 0, 0;
      new;
      T.EmptyIsBlank();
      hide T.EMPTY;
      assert slots[..] == T.EMPTY.slots;
    }

    method Clear()
      requires Valid()
      modifies this, slots
      ensures Valid() && Model() == T.EMPTY
    {
      hide T.EMPTY;
      T.EmptyIsBlank();
      var i := 0;
      while i < slots.Length
        invariant i <= slots.Length
        invariant forall k :: 0 <= k < i ==> slots[k] == BLANK
      {
        slots[i] := BLANK;
        i := i + 1;
      }
      next, active := 0, 0;
      assert slots[..] == T.EMPTY.slots;
    }

    /** ch_by_local: the slot of a live channel, or MAX_CHANNELS for NULL. */
    method ByLocal(id: u32) returns (i: nat)
      requires Valid()
      ensures i == T.Find(slots[..], id) <= MAX_CHANNELS
      ensures T.Look(Model(), Some(id)) == if i < MAX_CHANNELS then Some(slots[i]) else None
      ensures i < MAX_CHANNELS ==> T.Live(slots[i]) && slots[i].localId == id
    {
      i := 0;
      while i < slots.Length
        invariant i <= slots.Length
        invariant forall k :: 0 <= k < i ==> !(T.Live(slots[k]) && slots[k].localId == id)
      {
        if T.Live(slots[i]) && slots[i].localId == id {
          assert slots[..][i] == slots[i];
          return;
        }
        i := i + 1;
      }
    }

    /** ch_alloc: a wiped slot under the next id, counted but not yet live, or MAX_CHANNELS for NULL. */
    method Alloc(maxChannels: nat) returns (i: nat)
      requires Valid()
      modifies this, slots
      ensures Valid() && (i < MAX_CHANNELS <==> old(T.CanAlloc(Model(), maxChannels))) && i <= MAX_CHANNELS
      ensures i == MAX_CHANNELS ==> Model() == old(Model())
      ensures i < MAX_CHANNELS ==>
        && i == old(T.Vacant(slots[..]))
        && Model() == T.Table(old(slots[..])[i := BLANK.(localId := old(next))], Add32(old(next), 1), old(active) + 1)
    {
      if active >= maxChannels {
        return MAX_CHANNELS;
      }
      i := 0;
      while i < slots.Length
        invariant i <= slots.Length && Model() == old(Model())
        invariant forall k :: 0 <= k < i ==> T.Live(slots[k])
      {
        if !T.Live(slots[i]) {
          assert slots[..][i] == slots[i];
          slots[i] := BLANK.(localId := next);
          next := Add32(next, 1);
          active := active + 1;
          return;
        }
        i := i + 1;
      }
    }

    /** ch_free */
    method Free(i: nat)
      requires Valid() && i < MAX_CHANNELS
      modifies this, slots
      ensures Valid()
      ensures Model() == if !T.Live(old(slots[i])) then old(Model())
        else T.Table(old(slots[..])[i := BLANK], old(next), if old(active) > 0 then old(active) - 1 else 0)
    {
      if !T.Live(slots[i]) {
        return;
      }
      slots[i] := BLANK;
      if active > 0 {
        active := active - 1;
      }
    }

    /** A write through the channel pointer. */
    method Set(i: nat, ch: Channel)
      requires Valid() && i < MAX_CHANNELS
      modifies slots
      ensures Valid() && Model() == old(Model()).(slots := old(slots[..])[i := ch])
    {
      slots[i] := ch;
    }
  }
}
