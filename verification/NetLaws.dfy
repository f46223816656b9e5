/**
 * The channel laws in one place, each over every run from where the channels
 * begin: any calls, any interleaving, any closes and any failures, as long as
 * neither side has taken more than 2^32 ids.  Each is stated from A to B; a
 * reachable pair seen from the other side is reachable too.
 */
module NetLaws {
  import opened Base
  import opened Mux
  import opened Net
  import opened NetBinding
  import D = NetDelivery
  import C = NetCredit
  import F = NetRefusals
  import S = NetSafety

  /** A run from the beginning led here, with A as either side. */
  ghost predicate Reachable(d: Net) {
    IdsLeft(d) && exists n: Net, moves: seq<Move> :: S.Begins(n) && Leads(n, moves, d)
  }

  ghost predicate Leads(n: Net, moves: seq<Move>, d: Net) {
    d == Run(n, moves) || Flip(d) == Run(n, moves)
  }

  lemma ReachableIsLawful(d: Net)
    requires Reachable(d)
    ensures S.Lawful(d) && Reachable(Flip(d))
  {
    var n, moves :| S.Begins(n) && Leads(n, moves, d);
    S.RunLawful(n, moves);
    hide S.Begins, Run, D.Delivering, C.Credit;
    assert Flip(Flip(d)) == d;
    assert Leads(n, moves, Flip(d));
  }

  /** k on side A is paired with r on side B, as A knows it. */
  predicate Pairs(n: Net, k: u32, r: u32) {
    k in n.ha.bind && n.ha.bind[k] == r
  }

  /**
   * Credit: the receiver's window is what the sender may still send, plus what
   * is in flight in either direction - modulo 2^32 always, and exactly, with
   * no overflow on the sender's side, unless an adjust overflowed it.
   */
  lemma CreditIsConserved(d: Net, k: u32, r: u32)
    requires Reachable(d)
    requires Pairs(d, k, r) && k in d.a.chans && r in d.b.chans && (d.a.chans[k].state == Opened || d.a.chans[k].state == Pending)
    ensures var total := d.a.chans[k].sendWindow + BytesTo(d.ab, r) + CreditTo(d.ba, k);
      && d.b.chans[r].recvWindow == total % U32
      && (r !in d.hb.wrapped ==> d.b.chans[r].recvWindow == total && d.a.chans[k].sendWindow + CreditTo(d.ba, k) < U32)
  {
    ReachableIsLawful(d);
    hide Reachable, Agreed, D.Delivering, BytesTo, CreditTo, C.Credit;
    CreditAt(d, k, r);
  }

  lemma CreditAt(d: Net, k: u32, r: u32)
    requires C.Credit(d) && Pairs(d, k, r) && k in d.a.chans && r in d.b.chans && C.Sending(d.a.chans[k])
    ensures var total := d.a.chans[k].sendWindow + BytesTo(d.ab, r) + CreditTo(d.ba, k);
      && d.b.chans[r].recvWindow == total % U32
      && (r !in d.hb.wrapped ==> d.b.chans[r].recvWindow == total && d.a.chans[k].sendWindow + CreditTo(d.ba, k) < U32)
  {
    assert C.Balanced(d, k, r);
    hide BytesTo, CreditTo;
  }

  /** Delivery: the chunks accepted for sending are the chunks delivered, then the chunks in flight, in order. */
  lemma DeliveryIsOrdered(d: Net, k: u32, r: u32)
    requires Reachable(d) && Pairs(d, k, r)
    ensures SentOn(d.ha.sent, k) == GotOn(d.hb.log, r) + DataTo(d.ab, r)
    ensures GotOn(d.hb.log, r) <= SentOn(d.ha.sent, k)
  {
    ReachableIsLawful(d);
    hide Reachable;
  }

  /** Isolation and closing: a channel nobody was paired with delivers nothing, and none delivers after its EOF. */
  lemma NothingStray(d: Net, r: u32)
    requires Reachable(d)
    ensures (forall k :: !Pairs(d, k, r)) ==> GotOn(d.hb.log, r) == []
    ensures (forall i, j :: 0 <= i < j < |d.hb.log| && d.hb.log[i] == ChannelEof(r) && d.hb.log[j].ChannelData? ==> d.hb.log[j].id != r)
  {
    ReachableIsLawful(d);
    hide Reachable;
    if forall k :: !Pairs(d, k, r) {
      forall k | k in d.ha.bind ensures d.ha.bind[k] != r { assert !Pairs(d, k, r); }
    }
  }

  /** A pair is a pair for good: ids are never paired twice, and both ends name each other. */
  lemma PairsAreUnique(d: Net, k: u32, l: u32, r: u32)
    requires Reachable(d) && Pairs(d, k, r)
    ensures Pairs(d, l, r) ==> l == k
    ensures r in d.hb.bind ==> d.hb.bind[r] == k
    ensures r in d.b.chans && d.b.chans[r].havePeer ==> d.b.chans[r].peerId == k
  {
    ReachableIsLawful(d);
    hide Reachable;
    assert Paired(d) && Paired(Flip(d)) && Named(Flip(d));
    if r in d.b.chans { assert Placed(Flip(d), r); }
  }

  lemma ReachableIsRefused(d: Net)
    requires Reachable(d)
    ensures F.Refused(d)
  {
    var n, moves :| S.Begins(n) && Leads(n, moves, d);
    S.BeginLawful(n);
    assert F.Refused(n) && F.Refused(Flip(n));
    hide S.Begins, S.Lawful, Run, F.Refused;
    F.RunRefuses(n, moves);
  }

  /**
   * A PDU in flight meets the channel it was sent to, or none.  DATA, WINDOW,
   * EOF, CLOSE and CONFIRM name an id paired with one channel of the sender -
   * a CONFIRM the one it announces - and what is live under that id is that
   * channel's own peer.  What is live under the id of a CONFIRM or an
   * OPEN_FAIL is the offer it answers, still waiting.
   */
  lemma StaleMeetsItsOwn(d: Net, i: nat)
    requires Reachable(d)
    requires i < |d.ab| && PduTarget(d.ab[i]).Some?
    ensures var p := d.ab[i]; var r := PduTarget(p).value;
      && (!p.OpenFail? ==> exists k :: Pairs(d, k, r) && (p.Confirm? ==> k == p.sender)
                                      && (r in d.b.chans && d.b.chans[r].havePeer ==> d.b.chans[r].peerId == k))
      && (p.OpenFail? || p.Confirm? ==> r in d.hb.offered && r !in d.hb.bind && (r in d.b.chans ==> d.b.chans[r].state == Opening))
  {
    ReachableIsLawful(d);
    ReachableIsRefused(d);
    hide Reachable;
    var p := d.ab[i];
    var r := PduTarget(p).value;
    if r in d.b.chans { assert Placed(Flip(d), r); }
    if p.OpenFail? {
      assert F.Turned(d, r);
    } else {
      assert Carried(d, i) && Paired(d);
      var k :| k in d.ha.bind && d.ha.bind[k] == r && (p.Confirm? ==> k == p.sender);
      assert Pairs(d, k, r);
      PairsAreUnique(d, k, k, r);
    }
  }

  /** Both ends of an open channel, while both are live, or the CONFIRM that will make it so. */
  lemma OpenEndsAgree(d: Net, x: u32)
    requires Reachable(d) && x in d.a.chans && d.a.chans[x].state == Opened && d.a.chans[x].peerId in d.b.chans
    ensures var r := d.a.chans[x].peerId;
      || (d.b.chans[r].state == Opened && d.b.chans[r].peerId == x)
      || (d.b.chans[r].state == Opening
          && exists i :: 0 <= i < |d.ab| && d.ab[i].Confirm? && d.ab[i].recipient == r && d.ab[i].sender == x)
  {
    ReachableIsLawful(d);
    hide Reachable, Agreed;
    EndsAgree(d, x);
  }
}
