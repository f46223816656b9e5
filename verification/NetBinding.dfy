/**
 * The two ends of a channel agree on who they are, in every run: any calls,
 * any closes, any errors, as long as no side has used up its 2^32 ids.
 */
module NetBinding {
  import opened Base
  import opened Mux
  import opened Net

  /** Where a live channel of side A stands. */
  ghost predicate Placed(n: Net, k: u32)
    requires k in n.a.chans
  {
    var ch := n.a.chans[k];
    match ch.state
    case Unused => false
    case Opening => k in n.ha.offered && k !in n.ha.bind && !ch.havePeer
    case Pending =>
      k !in n.ha.offered && k in n.ha.bind && ch.havePeer && ch.peerId == n.ha.bind[k]
      && n.ha.bind[k] !in n.hb.bind
    case Opened => k in n.ha.bind && ch.havePeer && ch.peerId == n.ha.bind[k]
  }

  ghost predicate Named(n: Net) {
    && (forall k :: k in n.a.chans ==> k < n.a.next && n.a.chans[k].localId == k)
    && (forall k :: k in n.a.chans ==> Placed(n, k))
    && (forall k :: k in n.ha.offered ==> k < n.a.next)
    && (forall k :: k in n.ha.bind ==> k < n.a.next)
  }

  /** A CONFIRM for channel r of side B is among the first m PDUs from A. */
  ghost predicate ConfirmTo(q: seq<Pdu>, r: u32, m: nat)
    requires m <= |q|
  {
    exists i :: 0 <= i < m && q[i].Confirm? && q[i].recipient == r
  }

  lemma ConfirmToMore(q: seq<Pdu>, p: seq<Pdu>, r: u32, m: nat)
    requires m <= |q| && ConfirmTo(q, r, m)
    ensures forall l :: m <= l <= |q + p| ==> ConfirmTo(q + p, r, l)
  {
    var i :| 0 <= i < m && q[i].Confirm? && q[i].recipient == r;
    assert (q + p)[i] == q[i];
  }

  lemma ConfirmToLater(q: seq<Pdu>, r: u32, m: nat)
    requires 0 < m <= |q| && ConfirmTo(q, r, m)
    requires !(q[0].Confirm? && q[0].recipient == r)
    ensures ConfirmTo(q[1..], r, m - 1)
  {
    var i :| 0 <= i < m && q[i].Confirm? && q[i].recipient == r;
    assert q[1..][i - 1] == q[i];
  }

  ghost predicate Paired(n: Net) {
    && (forall k :: k in n.ha.bind && k !in n.ha.offered ==> n.ha.bind[k] in n.hb.offered)
    && (forall k :: k in n.ha.bind && k in n.ha.offered ==>
          var r := n.ha.bind[k];
          r in n.hb.bind && r !in n.hb.offered && n.hb.bind[r] == k)
    && (forall k, l :: k in n.ha.bind && l in n.ha.bind && n.ha.bind[k] == n.ha.bind[l] ==> k == l)
    && (forall k :: k in n.a.chans && n.a.chans[k].state == Opened && k !in n.ha.offered && k in n.ha.bind ==>
          n.ha.bind[k] in n.hb.bind || ConfirmTo(n.ab, n.ha.bind[k], |n.ab|))
  }

  /** DATA, WINDOW, EOF and CLOSE name an established channel of the receiver. */
  predicate Addressed(p: Pdu) {
    p.Data? || p.Window? || p.Eof? || p.Close?
  }

  /** What the PDU at position i of the link from A to B implies. */
  ghost predicate Carried(n: Net, i: nat)
    requires i < |n.ab|
  {
    var p := n.ab[i];
    if p.Open? then
      p.sender in n.ha.offered && p.sender !in n.ha.bind && p.sender !in n.hb.bind.Values
    else if p.Confirm? then
      && p.sender in n.ha.bind && p.sender !in n.ha.offered && n.ha.bind[p.sender] == p.recipient
      && p.recipient !in n.hb.bind
      && (p.sender in n.a.chans ==> n.a.chans[p.sender].state == Opened)
    else if Addressed(p) then
      p.recipient in n.ha.bind.Values && (p.recipient in n.hb.bind || ConfirmTo(n.ab, p.recipient, i))
    else true
  }

  ghost predicate Link(n: Net) {
    && (forall i :: 0 <= i < |n.ab| ==> Carried(n, i))
    && (forall i, j :: 0 <= i < j < |n.ab| && n.ab[i].Open? && n.ab[j].Open? ==> n.ab[i].sender != n.ab[j].sender)
    && (forall i, j :: 0 <= i < j < |n.ab| && n.ab[i].Confirm? && n.ab[j].Confirm? ==>
          n.ab[i].recipient != n.ab[j].recipient)
  }

  ghost predicate Bound(n: Net) {
    Named(n) && Paired(n) && Link(n)
  }

  ghost predicate Agreed(n: Net) {
    Bound(n) && Bound(Flip(n))
  }

  /** Neither side has taken more than 2^32 ids. */
  predicate IdsLeft(n: Net) {
    n.a.next <= U32 && n.b.next <= U32
  }

  lemma BindGrows(bind: map<u32, u32>, x: u32, s: u32)
    requires x !in bind
    ensures bind[x := s].Values == bind.Values + {s}
  {
    var bind' := bind[x := s];
    forall v | v in bind.Values + {s} ensures v in bind'.Values {
      if v == s { assert bind'[x] == s; } else {
        var k :| k in bind && bind[k] == v;
        assert bind'[k] == v;
      }
    }
  }

  /** An id not yet taken by A is nobody's peer. */
  lemma FreshIsNobodysPeer(n: Net, x: u32)
    requires Agreed(n) && n.a.next <= x
    ensures x !in n.ha.bind && x !in n.ha.offered && x !in n.a.chans && x !in n.hb.bind.Values
  {
    assert Paired(Flip(n));
    forall r | r in n.hb.bind ensures n.hb.bind[r] < n.a.next {
    }
  }

  // ------------------------------------------------------------------
  // Six shapes of change on side A
  // ------------------------------------------------------------------

  /** The channel's place in the protocol, without windows and flags. */
  predicate SamePlace(c: Channel, d: Channel) {
    c.state == d.state && c.localId == d.localId && c.peerId == d.peerId && c.havePeer == d.havePeer
  }

  predicate SamePlaces(m: map<u32, Channel>, m': map<u32, Channel>) {
    m'.Keys == m.Keys && forall k :: k in m ==> SamePlace(m[k], m'[k])
  }

  predicate SameNames(h: Hist, h': Hist) {
    h'.bind == h.bind && h'.offered == h.offered
  }

  /** Side B is untouched. */
  predicate SameB(n: Net, n': Net) {
    n'.b.chans == n.b.chans && n'.b.next == n.b.next && SameNames(n.hb, n'.hb)
  }

  /** Windows, flags or the state of A move; A may say p, if p names an open channel's peer. */
  ghost predicate Touches(n: Net, n': Net, p: seq<Pdu>) {
    && SameB(n, n') && n'.ba == n.ba
    && SamePlaces(n.a.chans, n'.a.chans) && n'.a.next >= n.a.next && SameNames(n.ha, n'.ha)
    && n'.ab == n.ab + p && |p| <= 1
    && (p != [] ==> !p[0].Open? && !p[0].Confirm?)
    && (p != [] && Addressed(p[0]) ==>
          exists k :: k in n.a.chans && n.a.chans[k].state == Opened && n.a.chans[k].peerId == p[0].recipient)
  }

  lemma TouchKeeps(n: Net, n': Net, p: seq<Pdu>)
    requires Agreed(n) && Touches(n, n', p)
    ensures Agreed(n')
  {
    assert Named(n') by { assert forall k :: k in n.a.chans ==> Placed(n, k); }
    assert Named(Flip(n')) by { assert forall k :: k in n.b.chans ==> Placed(Flip(n), k); }
    assert Paired(n') by { ConfirmsKept(n.ab, p); }
    TouchLink(n, n', p);
    SameLinkB(n, n');
  }

  lemma TouchLink(n: Net, n': Net, p: seq<Pdu>)
    requires Agreed(n) && Touches(n, n', p)
    ensures Link(n')
  {
    ConfirmsKept(n.ab, p);
    assert Link(n);
    forall i | 0 <= i < |n.ab| ensures Carried(n', i) { assert Carried(n, i); }
    if p != [] && Addressed(p[0]) {
      var k :| k in n.a.chans && n.a.chans[k].state == Opened && n.a.chans[k].peerId == p[0].recipient;
      assert Placed(n, k) && Paired(n) && Paired(Flip(n));
      assert n.ha.bind[k] in n.ha.bind.Values;
      assert Carried(n', |n.ab|);
    }
  }

  /** The link from B is unmoved by a change that keeps A's peers. */
  lemma SameLinkB(n: Net, n': Net)
    requires Agreed(n) && SameB(n, n') && n'.ba == n.ba && n'.ha.bind == n.ha.bind
    requires n.ha.offered <= n'.ha.offered
    ensures Link(Flip(n'))
  {
    assert Link(Flip(n));
    forall i | 0 <= i < |n.ba| ensures Carried(Flip(n'), i) { assert Carried(Flip(n), i); }
  }

  lemma ConfirmsKept(q: seq<Pdu>, p: seq<Pdu>)
    ensures forall r, m :: 0 <= m <= |q| && ConfirmTo(q, r, m) ==> ConfirmTo(q + p, r, m)
    ensures forall r :: ConfirmTo(q, r, |q|) ==> ConfirmTo(q + p, r, |q + p|)
  {
    forall r, m | 0 <= m <= |q| && ConfirmTo(q, r, m)
      ensures ConfirmTo(q + p, r, m) && ConfirmTo(q + p, r, |q + p|)
    {
      ConfirmToMore(q, p, r, m);
    }
  }

  /** Side A frees a channel. */
  lemma RemoveKeeps(n: Net, n': Net, id: u32)
    requires Agreed(n) && SameB(n, n') && n'.ba == n.ba && n'.ab == n.ab
    requires n'.a.chans == n.a.chans - {id} && n'.a.next == n.a.next && SameNames(n.ha, n'.ha)
    ensures Agreed(n')
  {
    assert Named(n') by { assert forall k :: k in n'.a.chans ==> Placed(n, k); }
    assert Named(Flip(n')) by { assert forall k :: k in n.b.chans ==> Placed(Flip(n), k); }
    assert Link(n') by {
      forall i | 0 <= i < |n.ab| ensures Carried(n', i) { assert Carried(n, i); }
    }
    SameLinkB(n, n');
  }

  /** The oldest PDU to A leaves the link, unless it is a CONFIRM. */
  lemma PopKeeps(n: Net, n': Net)
    requires Agreed(n) && n.ba != [] && !n.ba[0].Confirm?
    requires n' == n.(ba := n.ba[1..])
    ensures Agreed(n')
  {
    assert Named(n') by { assert forall k :: k in n.a.chans ==> Placed(n, k); }
    assert Named(Flip(n')) by { assert forall k :: k in n.b.chans ==> Placed(Flip(n), k); }
    forall r, m | 0 < m <= |n.ba| && ConfirmTo(n.ba, r, m) ensures ConfirmTo(n'.ba, r, m - 1) {
      ConfirmToLater(n.ba, r, m);
    }
    assert Paired(Flip(n')) by {
      forall k | k in n.b.chans && n.b.chans[k].state == Opened && k !in n.hb.offered && k in n.hb.bind && n.hb.bind[k] !in n.ha.bind
        ensures ConfirmTo(n'.ba, n.hb.bind[k], |n'.ba|)
      {
        ConfirmToLater(n.ba, n.hb.bind[k], |n.ba|);
      }
    }
    assert Link(n') by {
      forall i | 0 <= i < |n.ab| ensures Carried(n', i) { assert Carried(n, i); }
    }
    assert Link(Flip(n')) by {
      forall i | 0 <= i < |n'.ba| ensures Carried(Flip(n'), i) {
        assert Carried(Flip(n), i + 1);
      }
    }
  }

  /** Side A opens a channel under a fresh id and announces it. */
  ghost predicate Offers(n: Net, n': Net, ch: Channel, p: Pdu) {
    && SameB(n, n') && n'.ba == n.ba && n.a.next < U32
    && n'.a.next == n.a.next + 1 && n'.a.chans == n.a.chans[NextId(n.a) := ch]
    && ch.state == Opening && !ch.havePeer && ch.localId == NextId(n.a)
    && n'.ha.bind == n.ha.bind && n'.ha.offered == n.ha.offered + {NextId(n.a)}
    && p.Open? && p.sender == NextId(n.a) && n'.ab == n.ab + [p]
  }

  lemma OfferKeeps(n: Net, n': Net, ch: Channel, p: Pdu)
    requires Agreed(n) && Offers(n, n', ch, p)
    ensures Agreed(n')
  {
    FreshIsNobodysPeer(n, NextId(n.a));
    assert Named(n') by { assert forall k :: k in n.a.chans ==> Placed(n, k); }
    assert Named(Flip(n')) by { assert forall k :: k in n.b.chans ==> Placed(Flip(n), k); }
    OfferPaired(n, n', ch, p);
    OfferLink(n, n', ch, p);
    SameLinkB(n, n');
  }

  lemma OfferPaired(n: Net, n': Net, ch: Channel, p: Pdu)
    requires Agreed(n) && Offers(n, n', ch, p)
    ensures Paired(n') && Paired(Flip(n'))
  {
    FreshIsNobodysPeer(n, NextId(n.a));
    assert Paired(n) && Paired(Flip(n));
    forall k | k in n.hb.bind ensures n.hb.bind[k] != NextId(n.a) {
      assert n.hb.bind[k] in n.hb.bind.Values;
    }
    ConfirmsKept(n.ab, [p]);
  }

  lemma OfferLink(n: Net, n': Net, ch: Channel, p: Pdu)
    requires Agreed(n) && Offers(n, n', ch, p)
    ensures Link(n')
  {
    var x := NextId(n.a);
    FreshIsNobodysPeer(n, x);
    ConfirmsKept(n.ab, [p]);
    assert Link(n);
    forall i | 0 <= i < |n.ab| ensures Carried(n', i) && !(n.ab[i].Open? && n.ab[i].sender == x) {
      assert Carried(n, i);
    }
    assert Carried(n', |n.ab|);
  }

  /** Side A accepts a pending channel. */
  ghost predicate Accepts(n: Net, n': Net, x: u32, p: Pdu) {
    && SameB(n, n') && n'.ba == n.ba && SameNames(n.ha, n'.ha) && n'.a.next == n.a.next
    && x in n.a.chans && n.a.chans[x].state == Pending
    && n'.a.chans.Keys == n.a.chans.Keys
    && (forall k :: k in n.a.chans && k != x ==> n'.a.chans[k] == n.a.chans[k])
    && SamePlace(n.a.chans[x].(state := Opened), n'.a.chans[x])
    && p.Confirm? && p.sender == x && p.recipient == n.a.chans[x].peerId && n'.ab == n.ab + [p]
  }

  lemma AcceptKeeps(n: Net, n': Net, x: u32, p: Pdu)
    requires Agreed(n) && Accepts(n, n', x, p)
    ensures Agreed(n')
  {
    assert Named(n') by { assert forall k :: k in n.a.chans ==> Placed(n, k); }
    assert Named(Flip(n')) by { assert forall k :: k in n.b.chans ==> Placed(Flip(n), k); }
    AcceptPaired(n, n', x, p);
    AcceptLink(n, n', x, p);
  }

  lemma AcceptPaired(n: Net, n': Net, x: u32, p: Pdu)
    requires Agreed(n) && Accepts(n, n', x, p)
    ensures Paired(n') && Paired(Flip(n'))
  {
    assert Placed(n, x);
    assert Paired(n) && Paired(Flip(n));
    ConfirmsKept(n.ab, [p]);
    assert n'.ab[|n.ab|] == p;
    assert ConfirmTo(n'.ab, p.recipient, |n'.ab|);
  }

  lemma AcceptLink(n: Net, n': Net, x: u32, p: Pdu)
    requires Agreed(n) && Accepts(n, n', x, p)
    ensures Link(n') && Link(Flip(n'))
  {
    assert Placed(n, x);
    assert Paired(n);
    assert Link(n) && Link(Flip(n));
    ConfirmsKept(n.ab, [p]);
    forall i | 0 <= i < |n.ab| ensures Carried(n', i) && !(n.ab[i].Confirm? && n.ab[i].recipient == p.recipient) {
      assert Carried(n, i);
    }
    SameLinkB(n, n');
  }

  /** Side A takes an OPEN off its link and answers with a pending channel. */
  ghost predicate Pends(n: Net, n': Net, ch: Channel) {
    && SameB(n, n') && n.a.next < U32
    && n.ba != [] && n.ba[0].Open? && n'.ba == n.ba[1..] && n'.ab == n.ab
    && n'.a.next == n.a.next + 1 && n'.a.chans == n.a.chans[NextId(n.a) := ch]
    && ch.state == Pending && ch.havePeer && ch.localId == NextId(n.a) && ch.peerId == n.ba[0].sender
    && n'.ha.bind == n.ha.bind[NextId(n.a) := n.ba[0].sender] && n'.ha.offered == n.ha.offered
  }

  lemma PendKeeps(n: Net, n': Net, ch: Channel)
    requires Agreed(n) && Pends(n, n', ch)
    ensures Agreed(n')
  {
    var x, s := NextId(n.a), n.ba[0].sender;
    FreshIsNobodysPeer(n, x);
    assert Carried(Flip(n), 0);
    PopKeeps(n, n.(ba := n.ba[1..]));
    PendNamed(n, n', ch);
    PendPaired(n, n', ch);
    PendLink(n, n', ch);
  }

  lemma PendNamed(n: Net, n': Net, ch: Channel)
    requires Agreed(n) && Pends(n, n', ch)
    ensures Named(n') && Named(Flip(n'))
  {
    var x := NextId(n.a);
    FreshIsNobodysPeer(n, x);
    assert Carried(Flip(n), 0);
    forall k | k in n'.a.chans ensures Placed(n', k) {
      if k != x { assert Placed(n, k); }
    }
    forall k | k in n.b.chans ensures Placed(Flip(n'), k) {
      assert Placed(Flip(n), k);
      assert k in n.hb.bind ==> n.hb.bind[k] in n.hb.bind.Values;
    }
  }

  lemma PendPaired(n: Net, n': Net, ch: Channel)
    requires Agreed(n) && Pends(n, n', ch) && Agreed(n.(ba := n.ba[1..]))
    ensures Paired(n') && Paired(Flip(n'))
  {
    var x, s, m := NextId(n.a), n.ba[0].sender, n.(ba := n.ba[1..]);
    FreshIsNobodysPeer(n, x);
    assert Carried(Flip(n), 0);
    assert Paired(m) && Paired(Flip(m));
    forall k | k in n.ha.bind ensures n'.ha.bind[k] == n.ha.bind[k] && n.ha.bind[k] != s {
      assert n.ha.bind[k] in n.ha.bind.Values;
    }
    forall k | k in n.hb.bind ensures n.hb.bind[k] != x {
      assert n.hb.bind[k] in n.hb.bind.Values;
    }
  }

  lemma PendLink(n: Net, n': Net, ch: Channel)
    requires Agreed(n) && Pends(n, n', ch) && Agreed(n.(ba := n.ba[1..]))
    ensures Link(n') && Link(Flip(n'))
  {
    var x, s, m := NextId(n.a), n.ba[0].sender, n.(ba := n.ba[1..]);
    FreshIsNobodysPeer(n, x);
    BindGrows(n.ha.bind, x, s);
    assert Link(m) && Link(Flip(m));
    forall i | 0 <= i < |n'.ab| ensures Carried(n', i) { assert Carried(m, i); }
    forall i | 0 <= i < |n'.ba| ensures Carried(Flip(n'), i) {
      assert Carried(Flip(m), i);
      assert n'.ba[i] == n.ba[i + 1];
      assert n'.ba[i].Open? ==> n'.ba[i].sender != s;
    }
  }

  /** Side A takes a CONFIRM off its link: the opener learns its peer. */
  ghost predicate Confirms(n: Net, n': Net, x: u32) {
    && SameB(n, n') && n'.a.next == n.a.next
    && n.ba != [] && n.ba[0].Confirm? && n.ba[0].recipient == x && n'.ba == n.ba[1..] && n'.ab == n.ab
    && x in n.a.chans && n.a.chans[x].state == Opening
    && n'.a.chans.Keys == n.a.chans.Keys
    && (forall k :: k in n.a.chans && k != x ==> n'.a.chans[k] == n.a.chans[k])
    && SamePlace(n.a.chans[x].(state := Opened, havePeer := true, peerId := n.ba[0].sender), n'.a.chans[x])
    && n'.ha.bind == n.ha.bind[x := n.ba[0].sender] && n'.ha.offered == n.ha.offered
  }

  lemma ConfirmFacts(n: Net, n': Net, x: u32)
    requires Agreed(n) && Confirms(n, n', x)
    ensures var s := n.ba[0].sender;
      x !in n.ha.bind && x in n.ha.offered && s !in n.ha.bind.Values
      && s in n.hb.bind && n.hb.bind[s] == x && s !in n.hb.offered
      && n'.ha.bind.Values == n.ha.bind.Values + {s}
  {
    var s := n.ba[0].sender;
    assert Placed(n, x);
    assert Carried(Flip(n), 0);
    BindGrows(n.ha.bind, x, s);
    assert Paired(n) && Paired(Flip(n));
    forall k | k in n.ha.bind ensures n.ha.bind[k] != s {
      if k !in n.ha.offered { assert n.ha.bind[k] in n.hb.offered; } else { assert n.hb.bind[n.ha.bind[k]] == k; }
    }
  }

  lemma ConfirmKeeps(n: Net, n': Net, x: u32)
    requires Agreed(n) && Confirms(n, n', x)
    ensures Agreed(n')
  {
    ConfirmFacts(n, n', x);
    assert Named(n') by { assert forall k :: k in n.a.chans ==> Placed(n, k); }
    assert Named(Flip(n')) by { ConfirmNamed(n, n', x); }
    ConfirmPaired(n, n', x);
    ConfirmLink(n, n', x);
  }

  lemma ConfirmNamed(n: Net, n': Net, x: u32)
    requires Agreed(n) && Confirms(n, n', x)
    ensures Named(Flip(n'))
  {
    ConfirmFacts(n, n', x);
    var s := n.ba[0].sender;
    assert Carried(Flip(n), 0);
    assert Paired(Flip(n));
    forall k | k in n.b.chans ensures Placed(Flip(n'), k) {
      assert Placed(Flip(n), k);
    }
  }

  lemma ConfirmPaired(n: Net, n': Net, x: u32)
    requires Agreed(n) && Confirms(n, n', x)
    ensures Paired(n') && Paired(Flip(n'))
  {
    ConfirmFacts(n, n', x);
    assert Paired(n) && Paired(Flip(n));
    forall k | k in n.ha.bind ensures n'.ha.bind[k] == n.ha.bind[k] && n.ha.bind[k] != n.ba[0].sender {
      assert n.ha.bind[k] in n.ha.bind.Values;
    }
    forall k | k in n.b.chans && n.b.chans[k].state == Opened && k !in n.hb.offered && k in n.hb.bind && n.hb.bind[k] !in n'.ha.bind
      ensures ConfirmTo(n'.ba, n.hb.bind[k], |n'.ba|)
    {
      ConfirmToLater(n.ba, n.hb.bind[k], |n.ba|);
    }
  }

  lemma ConfirmLink(n: Net, n': Net, x: u32)
    requires Agreed(n) && Confirms(n, n', x)
    ensures Link(n') && Link(Flip(n'))
  {
    ConfirmFacts(n, n', x);
    assert Link(n) && Link(Flip(n));
    forall i | 0 <= i < |n.ab| ensures Carried(n', i) { assert Carried(n, i); }
    forall i | 0 <= i < |n'.ba| ensures Carried(Flip(n'), i) {
      assert Carried(Flip(n), i + 1);
      assert n'.ba[i] == n.ba[i + 1];
      if Addressed(n'.ba[i]) && n'.ba[i].recipient !in n'.ha.bind {
        ConfirmToLater(n.ba, n'.ba[i].recipient, i + 1);
      }
    }
  }

  // ------------------------------------------------------------------
  // Every step has one of these shapes
  // ------------------------------------------------------------------

  /** PDUs that bind nothing: they name no channel, or only a refused one. */
  predicate Neutral(p: Pdu) {
    p.OpenFail? || p.Pong? || p.Disconnect?
  }

  ghost predicate OwnIds(p: Peer) {
    forall k :: k in p.chans ==> p.chans[k].localId == k
  }

  /** What a host call can do to the table and the link. */
  lemma CallShape(p: Peer, c: Call, s: Sink)
    requires OwnIds(p)
    ensures var o := CallOutcome(p, c, s);
      && |o.push| <= 1
      && match o.eff {
        case Add(ch) =>
          && c.CallOpen? && o.rc == Ok && ch.state == Opening && !ch.havePeer && ch.localId == NextId(p)
          && |o.push| == 1 && o.push[0].Open? && o.push[0].sender == NextId(p)
        case Put(id, ch) =>
          && id in p.chans
          && if c.CallAccept? then
               && p.chans[id].state == Pending && SamePlace(p.chans[id].(state := Opened), ch)
               && |o.push| == 1 && o.push[0].Confirm? && o.push[0].sender == id
               && o.push[0].recipient == p.chans[id].peerId
             else
               && p.chans[id].state == Opened && SamePlace(p.chans[id], ch)
               && |o.push| == 1 && Addressed(o.push[0]) && o.push[0].recipient == p.chans[id].peerId
        case Drop(id) =>
          && id in p.chans
          && (o.push != [] ==>
               || Neutral(o.push[0])
               || (o.push[0].Close? && p.chans[id].state == Opened && o.push[0].recipient == p.chans[id].peerId))
        case _ => (o.push != [] ==> Neutral(o.push[0])) && (c.CallOpen? ==> o.rc != Ok)
      }
  {
  }

  /** What a received PDU can do to the table and the link. */
  lemma ReceiveShape(p: Peer, m: Pdu, s: Sink)
    ensures var o := ReceiveOutcome(p, m, s);
      && |o.push| <= 1 && (o.push != [] ==> Neutral(o.push[0]))
      && (o.state == Error && p.state != Error ==> o.eff.Keep? && o.push == [])
      && (m.Confirm? && o.state != Error && p.state != Error ==> o.eff.Put? && o.push == [])
      && match o.eff {
        case Add(ch) =>
          m.Open? && ch.state == Pending && ch.havePeer && ch.localId == NextId(p) && ch.peerId == m.sender && o.push == []
        case Put(id, ch) =>
          && id in p.chans
          && if m.Confirm? then
               && m.recipient == id && p.chans[id].state == Opening
               && SamePlace(p.chans[id].(state := Opened, havePeer := true, peerId := m.sender), ch)
             else SamePlace(p.chans[id], ch)
        case Drop(id) => id in p.chans
        case Keep => true
        case Burn => false
      }
  {
  }

  lemma CallNames(h: Hist, p: Peer, c: Call, o: Outcome)
    ensures var h' := NoteCall(h, p, c, o);
      && h'.bind == h.bind
      && h'.offered == if c.CallOpen? && o.rc == Ok then h.offered + {NextId(p)} else h.offered
  {
  }

  lemma CallKeeps(n: Net, c: Call, s: Sink)
    requires Agreed(n) && IdsLeft(CallA(n, c, s))
    ensures Agreed(CallA(n, c, s))
  {
    var o := CallOutcome(n.a, c, s);
    hide *;
    match o.eff
    case Add(ch) => AddCallKeeps(n, c, s);
    case Put(id, ch) => PutCallKeeps(n, c, s);
    case Drop(id) => RestCallKeeps(n, c, s);
    case Keep => RestCallKeeps(n, c, s);
    case Burn => RestCallKeeps(n, c, s);
  }

  lemma AddCallKeeps(n: Net, c: Call, s: Sink)
    requires Agreed(n) && IdsLeft(CallA(n, c, s)) && CallOutcome(n.a, c, s).eff.Add?
    ensures Agreed(CallA(n, c, s))
  {
    assert OwnIds(n.a) by { assert Named(n); }
    hide Agreed, CallOutcome, NoteCall;
    CallShape(n.a, c, s);
    var o := CallOutcome(n.a, c, s);
    CallNames(n.ha, n.a, c, o);
    OfferKeeps(n, CallA(n, c, s), o.eff.ch, o.push[0]);
  }

  lemma PutCallKeeps(n: Net, c: Call, s: Sink)
    requires Agreed(n) && CallOutcome(n.a, c, s).eff.Put?
    ensures Agreed(CallA(n, c, s))
  {
    hide CallOutcome, CallA;
    if c.CallAccept? { AcceptCallKeeps(n, c, s); } else { TouchCallKeeps(n, c, s); }
  }

  lemma AcceptCallKeeps(n: Net, c: Call, s: Sink)
    requires Agreed(n) && CallOutcome(n.a, c, s).eff.Put? && c.CallAccept?
    ensures Agreed(CallA(n, c, s))
  {
    assert OwnIds(n.a) by { assert Named(n); }
    hide Agreed, CallOutcome, NoteCall;
    CallShape(n.a, c, s);
    var o, n' := CallOutcome(n.a, c, s), CallA(n, c, s);
    CallNames(n.ha, n.a, c, o);
    AcceptKeeps(n, n', o.eff.id, o.push[0]);
  }

  lemma TouchCallKeeps(n: Net, c: Call, s: Sink)
    requires Agreed(n) && CallOutcome(n.a, c, s).eff.Put? && !c.CallAccept?
    ensures Agreed(CallA(n, c, s))
  {
    assert OwnIds(n.a) by { assert Named(n); }
    hide Agreed, CallOutcome, NoteCall, Touches;
    CallShape(n.a, c, s);
    var o, n' := CallOutcome(n.a, c, s), CallA(n, c, s);
    CallNames(n.ha, n.a, c, o);
    PutTouches(n, n', o.eff.id, o.push);
    TouchKeeps(n, n', o.push);
  }

  lemma RestCallKeeps(n: Net, c: Call, s: Sink)
    requires Agreed(n) && !CallOutcome(n.a, c, s).eff.Put? && !CallOutcome(n.a, c, s).eff.Add?
    ensures Agreed(CallA(n, c, s))
  {
    assert OwnIds(n.a) by { assert Named(n); }
    hide Agreed, CallOutcome, NoteCall, Touches;
    CallShape(n.a, c, s);
    var o, n' := CallOutcome(n.a, c, s), CallA(n, c, s);
    CallNames(n.ha, n.a, c, o);
    if o.eff.Drop? {
      DropTouches(n, n', o.eff.id, o.push);
      DropKeeps(n, n', o.eff.id, o.push);
    } else {
      KeepTouches(n, n', o.push);
      TouchKeeps(n, n', o.push);
    }
  }

  lemma KeepTouches(n: Net, n': Net, p: seq<Pdu>)
    requires SameB(n, n') && n'.ba == n.ba && n'.a.next >= n.a.next && SameNames(n.ha, n'.ha)
    requires n'.a.chans == n.a.chans
    requires n'.ab == n.ab + p && |p| <= 1 && (p != [] ==> Neutral(p[0]))
    ensures Touches(n, n', p)
  {
  }

  lemma DropTouches(n: Net, n': Net, id: u32, p: seq<Pdu>)
    requires SameB(n, n') && n'.ba == n.ba && n'.a.next == n.a.next && SameNames(n.ha, n'.ha)
    requires id in n.a.chans && n'.ab == n.ab + p && |p| <= 1
    requires p != [] ==>
      (Neutral(p[0]) || (p[0].Close? && n.a.chans[id].state == Opened && p[0].recipient == n.a.chans[id].peerId))
    ensures Touches(n, n'.(a := n'.a.(chans := n.a.chans)), p)
  {
  }

  lemma PutTouches(n: Net, n': Net, id: u32, p: seq<Pdu>)
    requires SameB(n, n') && n'.ba == n.ba && n'.a.next == n.a.next && SameNames(n.ha, n'.ha)
    requires id in n.a.chans && n'.a.chans.Keys == n.a.chans.Keys
    requires forall k :: k in n.a.chans && k != id ==> n'.a.chans[k] == n.a.chans[k]
    requires SamePlace(n.a.chans[id], n'.a.chans[id]) && n.a.chans[id].state == Opened
    requires n'.ab == n.ab + p && |p| == 1 && Addressed(p[0]) && p[0].recipient == n.a.chans[id].peerId
    ensures Touches(n, n', p)
  {
  }

  /** Side A says p and then frees a channel. */
  lemma DropKeeps(n: Net, n': Net, id: u32, p: seq<Pdu>)
    requires Agreed(n) && id in n.a.chans
    requires Touches(n, n'.(a := n'.a.(chans := n.a.chans)), p)
    requires n'.a.chans == n.a.chans - {id} && n'.a.next == n.a.next
    ensures Agreed(n')
  {
    hide Agreed, Touches;
    var m := n'.(a := n'.a.(chans := n.a.chans));
    TouchKeeps(n, m, p);
    RemoveKeeps(m, n', id);
  }

  lemma DeliverKeeps(n: Net, s: Sink)
    requires Agreed(n) && IdsLeft(DeliverA(n, s))
    ensures Agreed(DeliverA(n, s))
  {
    hide Agreed, ReceiveOutcome;
    if n.ba != [] && n.a.state != Error && n.a.state != Closed {
      var n', m := DeliverA(n, s), n.(ba := n.ba[1..]);
      var p := n.ba[0];
      ReceiveShape(n.a, p, s);
      var o := ReceiveOutcome(n.a, p, s);
      if o.state == Error {
        TouchKeeps(n, n', []);
      } else if p.Confirm? {
        ConfirmKeeps(n, n', p.recipient);
      } else {
        PopKeeps(n, m);
        match o.eff
        case Add(ch) => PendKeeps(n, n', ch);
        case Drop(id) => DropKeeps(m, n', id, o.push);
        case _ => TouchKeeps(m, n', o.push);
      }
    }
  }

  lemma FlipAgreed(n: Net)
    requires Agreed(n)
    ensures Agreed(Flip(n))
  {
  }

  /** Every move of either side keeps the agreement. */
  lemma StepKeeps(n: Net, m: Move)
    requires Agreed(n) && IdsLeft(Step(n, m))
    ensures Agreed(Step(n, m))
  {
    hide Agreed, CallA, DeliverA;
    match m {
      case MoveA(ActCall(c, s)) => CallKeeps(n, c, s);
      case MoveA(ActDeliver(s)) => DeliverKeeps(n, s);
      case MoveB(ActCall(c, s)) => FlipAgreed(n); CallKeeps(Flip(n), c, s); FlipAgreed(CallA(Flip(n), c, s));
      case MoveB(ActDeliver(s)) => FlipAgreed(n); DeliverKeeps(Flip(n), s); FlipAgreed(DeliverA(Flip(n), s));
    }
  }

  lemma StepIdsGrow(n: Net, m: Move)
    ensures n.a.next <= Step(n, m).a.next && n.b.next <= Step(n, m).b.next
  {
  }

  lemma {:induction false} IdsOnlyGrow(n: Net, moves: seq<Move>)
    ensures n.a.next <= Run(n, moves).a.next && n.b.next <= Run(n, moves).b.next
    decreases |moves|
  {
    hide Step;
    if moves != [] {
      StepIdsGrow(n, moves[0]);
      IdsOnlyGrow(Step(n, moves[0]), moves[1..]);
    }
  }

  /** The binding invariant holds after every run that stays within 2^32 ids a side. */
  lemma {:induction false} RunKeeps(n: Net, moves: seq<Move>)
    requires Agreed(n) && IdsLeft(Run(n, moves))
    ensures Agreed(Run(n, moves))
    decreases |moves|
  {
    hide Step, Agreed;
    if moves != [] {
      IdsOnlyGrow(Step(n, moves[0]), moves[1..]);
      StepKeeps(n, moves[0]);
      RunKeeps(Step(n, moves[0]), moves[1..]);
    }
  }

  /**
   * Dual-id binding.  If A's x is OPEN with peer r and B's r is live, then r
   * is OPEN with peer x, or r is still OPENING and the CONFIRM naming x is on
   * the link to B.
   */
  lemma EndsAgree(n: Net, x: u32)
    requires Agreed(n) && x in n.a.chans && n.a.chans[x].state == Opened
    requires n.a.chans[x].peerId in n.b.chans
    ensures var r := n.a.chans[x].peerId;
      || (n.b.chans[r].state == Opened && n.b.chans[r].peerId == x)
      || (n.b.chans[r].state == Opening && x !in n.ha.offered
          && exists i :: 0 <= i < |n.ab| && n.ab[i].Confirm? && n.ab[i].recipient == r && n.ab[i].sender == x)
  {
    var r := n.a.chans[x].peerId;
    assert Placed(n, x) && Placed(Flip(n), r);
    assert Paired(n) && Paired(Flip(n)) && Link(n);
    if r !in n.hb.bind {
      var i :| 0 <= i < |n.ab| && n.ab[i].Confirm? && n.ab[i].recipient == r;
      assert Carried(n, i);
    }
  }
}
