/**
 * Credit conservation.  For each direction of a pair whose two ends are live,
 * the receiver's window is the sender's window plus the DATA bytes and the
 * WINDOW credit in flight: modulo 2^32 in every run, and exactly as long as
 * no adjust has overflowed that receiver's window.
 */
module NetCredit {
  import opened Base
  import opened Mux
  import opened Net
  import opened NetBinding

  /** A receive window against the total it stands for. */
  predicate Matches(recv: u32, total: int, exact: bool) {
    if exact then recv == total else recv == total % U32
  }

  predicate Sending(ch: Channel) {
    ch.state == Opened || ch.state == Pending
  }

  /** A's channel k and B's channel r, its peer: the direction from k to r. */
  ghost predicate Balanced(n: Net, k: u32, r: u32)
    requires k in n.a.chans && r in n.b.chans
  {
    Matches(n.b.chans[r].recvWindow,
            n.a.chans[k].sendWindow + BytesTo(n.ab, r) + CreditTo(n.ba, k),
            r !in n.hb.wrapped)
  }

  /** The window B announces in the PDU at position i of its link. */
  ghost predicate Announced(n: Net, i: nat)
    requires i < |n.ba|
  {
    var p := n.ba[i];
    if p.Open? then
      p.sender in n.b.chans ==> n.b.chans[p.sender].recvWindow == p.initWindow && p.sender !in n.hb.wrapped
    else if p.Confirm? then
      p.sender in n.b.chans ==>
        Matches(n.b.chans[p.sender].recvWindow, p.initWindow + CreditTo(n.ba, p.recipient), p.sender !in n.hb.wrapped)
    else true
  }

  ghost predicate Credit(n: Net) {
    && (forall k :: k in n.a.chans && Sending(n.a.chans[k]) && k in n.ha.bind && n.ha.bind[k] in n.b.chans ==>
          Balanced(n, k, n.ha.bind[k]))
    && (forall i :: 0 <= i < |n.ba| ==> Announced(n, i))
    && (forall r :: r in n.hb.wrapped ==> r < n.b.next && (r in n.b.chans ==> n.b.chans[r].state == Opened))
  }

  // ------------------------------------------------------------------
  // Modular arithmetic
  // ------------------------------------------------------------------

  lemma Grant(recv: u32, total: int, exact: bool, c: u32)
    requires Matches(recv, total, exact)
    ensures Matches(Add32(recv, c), total + c, exact && recv + c < U32)
  {
  }

  lemma Collect(recv: u32, send: u32, rest: nat, exact: bool, c: u32)
    requires Matches(recv, send + rest, exact) && c <= rest
    ensures Matches(recv, Add32(send, c) + (rest - c), exact)
  {
  }

  // ------------------------------------------------------------------
  // A as the sender
  // ------------------------------------------------------------------

  ghost predicate SameReceiver(n: Net, n': Net) {
    n'.b == n.b && n'.hb == n.hb
  }

  ghost predicate SameCredit(q: seq<Pdu>, q': seq<Pdu>) {
    q' == q || (q != [] && !q[0].Window? && q' == q[1..])
  }

  ghost predicate Idle(n: Net, n': Net, p: seq<Pdu>) {
    && SameReceiver(n, n') && SameCredit(n.ba, n'.ba)
    && n'.ab == n.ab + p && |p| <= 1 && (p != [] ==> !p[0].Data?)
    && (forall k :: k in n'.a.chans && Sending(n'.a.chans[k]) && k in n'.ha.bind ==>
          && k in n.a.chans && Sending(n.a.chans[k]) && k in n.ha.bind && n'.ha.bind[k] == n.ha.bind[k]
          && n'.a.chans[k].sendWindow == n.a.chans[k].sendWindow)
  }

  lemma SumsMore(q: seq<Pdu>, p: seq<Pdu>, r: u32)
    requires |p| <= 1
    ensures BytesTo(q + p, r) == BytesTo(q, r) + (if p != [] && p[0].Data? && p[0].recipient == r then |p[0].data| else 0)
    ensures CreditTo(q + p, r) == CreditTo(q, r) + (if p != [] && p[0].Window? && p[0].recipient == r then p[0].add else 0)
  {
    if p == [] {
      assert q + p == q;
    } else {
      assert p == [p[0]];
      DataToSnoc(q, p[0], r);
    }
  }

  lemma AnnouncedKept(n: Net, n': Net)
    requires Credit(n) && SameReceiver(n, n') && SameCredit(n.ba, n'.ba)
    ensures forall i :: 0 <= i < |n'.ba| ==> Announced(n', i)
  {
    forall i | 0 <= i < |n'.ba| ensures Announced(n', i) {
      var d := |n.ba| - |n'.ba|;
      assert n'.ba[i] == n.ba[i + d];
      assert Announced(n, i + d);
    }
  }

  lemma IdleKeeps(n: Net, n': Net, p: seq<Pdu>)
    requires Credit(n) && Idle(n, n', p)
    ensures Credit(n')
  {
    AnnouncedKept(n, n');
    forall k | k in n'.a.chans && Sending(n'.a.chans[k]) && k in n'.ha.bind && n'.ha.bind[k] in n'.b.chans
      ensures Balanced(n', k, n'.ha.bind[k])
    {
      assert Balanced(n, k, n.ha.bind[k]);
      SumsMore(n.ab, p, n.ha.bind[k]);
    }
  }

  ghost predicate Sends(n: Net, n': Net, x: u32, data: bytes) {
    && SameReceiver(n, n') && n'.ba == n.ba && n'.ha.bind == n.ha.bind
    && x in n.a.chans && x in n.ha.bind && |data| <= n.a.chans[x].sendWindow
    && n'.a.chans == n.a.chans[x := n.a.chans[x].(sendWindow := n.a.chans[x].sendWindow - |data|)]
    && n'.ab == n.ab + [Data(n.ha.bind[x], data)]
  }

  lemma SendKeeps(n: Net, n': Net, x: u32, data: bytes)
    requires Credit(n) && Paired(n) && Sends(n, n', x, data)
    ensures Credit(n')
  {
    AnnouncedKept(n, n');
    forall k | k in n'.a.chans && Sending(n'.a.chans[k]) && k in n'.ha.bind && n'.ha.bind[k] in n'.b.chans
      ensures Balanced(n', k, n'.ha.bind[k])
    {
      assert Balanced(n, k, n.ha.bind[k]);
      SumsMore(n.ab, [Data(n.ha.bind[x], data)], n.ha.bind[k]);
    }
  }

  /** A WINDOW for x is taken off the link and added to its send window. */
  ghost predicate Collects(n: Net, n': Net, x: u32) {
    && SameReceiver(n, n') && n'.ab == n.ab && n'.ha.bind == n.ha.bind
    && n.ba != [] && n.ba[0].Window? && n.ba[0].recipient == x && n'.ba == n.ba[1..]
    && x in n.a.chans
    && n'.a.chans == n.a.chans[x := n.a.chans[x].(sendWindow := Add32(n.a.chans[x].sendWindow, n.ba[0].add))]
  }

  lemma CollectKeeps(n: Net, n': Net, x: u32)
    requires Credit(n) && Link(Flip(n)) && Collects(n, n', x)
    ensures Credit(n')
  {
    forall k | k in n'.a.chans && Sending(n'.a.chans[k]) && k in n'.ha.bind && n'.ha.bind[k] in n'.b.chans
      ensures Balanced(n', k, n'.ha.bind[k])
    {
      var r := n.ha.bind[k];
      assert Balanced(n, k, r);
      if k == x {
        Collect(n.b.chans[r].recvWindow, n.a.chans[k].sendWindow, BytesTo(n.ab, r) + CreditTo(n.ba, k),
                r !in n.hb.wrapped, n.ba[0].add);
      }
    }
    CollectAnnounced(n, n', x);
  }

  lemma CollectAnnounced(n: Net, n': Net, x: u32)
    requires Credit(n) && Link(Flip(n)) && Collects(n, n', x)
    ensures forall i :: 0 <= i < |n'.ba| ==> Announced(n', i)
  {
    forall i | 0 <= i < |n'.ba| ensures Announced(n', i) {
      assert n'.ba[i] == n.ba[i + 1];
      assert Announced(n, i + 1);
      if n'.ba[i].Confirm? { LateConfirm(n, i + 1); }
    }
  }

  /** Where the receiver's window has not wrapped, neither can the sender's. */
  lemma SendWindowFits(n: Net, x: u32)
    requires Credit(n) && n.ba != [] && n.ba[0].Window? && n.ba[0].recipient == x
    requires x in n.a.chans && Sending(n.a.chans[x]) && x in n.ha.bind
    requires n.ha.bind[x] in n.b.chans && n.ha.bind[x] !in n.hb.wrapped
    ensures n.a.chans[x].sendWindow + n.ba[0].add < U32
  {
    assert Balanced(n, x, n.ha.bind[x]);
  }

  /** No WINDOW runs ahead of the CONFIRM of the channel it names. */
  lemma LateConfirm(n: Net, i: nat)
    requires Link(Flip(n)) && 0 < i < |n.ba| && n.ba[i].Confirm?
    ensures !(Addressed(n.ba[0]) && n.ba[0].recipient == n.ba[i].recipient)
  {
    assert Carried(Flip(n), 0) && Carried(Flip(n), i);
  }

  /** A WINDOW for a channel that is gone, or still opening, is taken off and ignored. */
  ghost predicate Ignores(n: Net, n': Net) {
    && SameReceiver(n, n') && n'.ab == n.ab && n'.ha.bind == n.ha.bind && n'.a.chans == n.a.chans
    && n.ba != [] && n.ba[0].Window? && n'.ba == n.ba[1..]
    && (n.ba[0].recipient in n.a.chans ==> !Sending(n.a.chans[n.ba[0].recipient]))
  }

  lemma IgnoreKeeps(n: Net, n': Net)
    requires Credit(n) && Link(Flip(n)) && Ignores(n, n')
    ensures Credit(n')
  {
    forall k | k in n'.a.chans && Sending(n'.a.chans[k]) && k in n'.ha.bind && n'.ha.bind[k] in n'.b.chans
      ensures Balanced(n', k, n'.ha.bind[k])
    {
      assert Balanced(n, k, n.ha.bind[k]);
    }
    forall i | 0 <= i < |n'.ba| ensures Announced(n', i) {
      assert n'.ba[i] == n.ba[i + 1];
      assert Announced(n, i + 1);
      if n'.ba[i].Confirm? { LateConfirm(n, i + 1); }
    }
  }

  /** A learns the window B announced, in a CONFIRM or an OPEN. */
  ghost predicate Learns(n: Net, n': Net, x: u32, ch: Channel) {
    && SameReceiver(n, n') && n'.ab == n.ab
    && n.ba != [] && (n.ba[0].Confirm? || n.ba[0].Open?) && n'.ba == n.ba[1..]
    && n'.a.chans == n.a.chans[x := ch] && n'.ha.bind == n.ha.bind[x := n.ba[0].sender]
    && ch.sendWindow == n.ba[0].initWindow
  }

  lemma LearnKeeps(n: Net, n': Net, x: u32, ch: Channel)
    requires Credit(n) && Learns(n, n', x, ch)
    requires BytesTo(n.ab, n.ba[0].sender) == 0
    requires if n.ba[0].Confirm? then n.ba[0].recipient == x else CreditTo(n.ba, x) == 0
    ensures Credit(n')
  {
    AnnouncedKept(n, n');
    assert Announced(n, 0);
    forall k | k in n'.a.chans && Sending(n'.a.chans[k]) && k in n'.ha.bind && n'.ha.bind[k] in n'.b.chans
      ensures Balanced(n', k, n'.ha.bind[k])
    {
      if k != x { assert Balanced(n, k, n.ha.bind[k]); }
    }
  }

  // ------------------------------------------------------------------
  // B as the receiver
  // ------------------------------------------------------------------

  ghost predicate SameSender(n: Net, n': Net) {
    n'.a == n.a && n'.ha == n.ha
  }

  /** Nobody has been told of r. */
  ghost predicate Unheard(n: Net, r: u32) {
    && r !in n.ha.bind.Values
    && (forall i :: 0 <= i < |n.ba| && (n.ba[i].Open? || n.ba[i].Confirm?) ==> n.ba[i].sender != r)
  }

  /** Channels of B that are still there keep their window; new ones are unheard of. */
  ghost predicate SameWindows(n: Net, n': Net) {
    && n'.b.next >= n.b.next && n'.hb.wrapped == n.hb.wrapped
    && (forall r :: r in n'.b.chans && r in n.b.chans ==>
          && n'.b.chans[r].recvWindow == n.b.chans[r].recvWindow
          && (n.b.chans[r].state == Opened ==> n'.b.chans[r].state == Opened))
    && (forall r :: r in n'.b.chans && r !in n.b.chans ==> Unheard(n, r) && r !in n.hb.wrapped)
  }

  ghost predicate SameData(q: seq<Pdu>, q': seq<Pdu>) {
    q' == q || (q != [] && !q[0].Data? && q' == q[1..])
  }

  ghost predicate Listens(n: Net, n': Net, p: seq<Pdu>) {
    && SameSender(n, n') && SameData(n.ab, n'.ab) && SameWindows(n, n')
    && n'.ba == n.ba + p && |p| <= 1 && (p != [] ==> !p[0].Window? && !p[0].Confirm? && !p[0].Open?)
  }

  lemma ListenKeeps(n: Net, n': Net, p: seq<Pdu>)
    requires Credit(n) && Listens(n, n', p)
    ensures Credit(n')
  {
    forall k | k in n'.a.chans && Sending(n'.a.chans[k]) && k in n'.ha.bind && n'.ha.bind[k] in n'.b.chans
      ensures Balanced(n', k, n'.ha.bind[k])
    {
      assert n.ha.bind[k] in n.ha.bind.Values;
      assert Balanced(n, k, n.ha.bind[k]);
      SumsMore(n.ba, p, k);
    }
    forall i | 0 <= i < |n'.ba| ensures Announced(n', i) {
      if i < |n.ba| {
        assert n'.ba[i] == n.ba[i];
        assert Announced(n, i);
        if n.ba[i].Confirm? { SumsMore(n.ba, p, n.ba[i].recipient); }
      }
    }
  }

  /** DATA for r is taken off the link and its length off the window. */
  ghost predicate Takes(n: Net, n': Net, r: u32) {
    && SameSender(n, n') && n'.ba == n.ba && n'.hb.wrapped == n.hb.wrapped && n'.b.next == n.b.next
    && n.ab != [] && n.ab[0].Data? && n.ab[0].recipient == r && n'.ab == n.ab[1..]
    && r in n.b.chans && n.b.chans[r].state == Opened && |n.ab[0].data| <= n.b.chans[r].recvWindow
    && n'.b.chans == n.b.chans[r := n.b.chans[r].(recvWindow := n.b.chans[r].recvWindow - |n.ab[0].data|)]
  }

  lemma TakeKeeps(n: Net, n': Net, r: u32)
    requires Agreed(n) && Credit(n) && Takes(n, n', r)
    ensures Credit(n')
  {
    hide Agreed;
    forall k | k in n'.a.chans && Sending(n'.a.chans[k]) && k in n'.ha.bind && n'.ha.bind[k] in n'.b.chans
      ensures Balanced(n', k, n'.ha.bind[k])
    {
      assert Balanced(n, k, n.ha.bind[k]);
    }
    forall i | 0 <= i < |n'.ba| ensures Announced(n', i) {
      assert Announced(n, i);
      TakenNotAnnounced(n, i);
    }
  }

  /** A channel that is being sent DATA is not one being announced. */
  lemma TakenNotAnnounced(n: Net, i: nat)
    requires Agreed(n) && 0 <= i < |n.ba| && n.ab != [] && n.ab[0].Data?
    ensures n.ba[i].Open? || n.ba[i].Confirm? ==> n.ba[i].sender != n.ab[0].recipient
  {
    assert Bound(n) && Bound(Flip(n));
    assert Carried(n, 0) && Carried(Flip(n), i);
    var r := n.ab[0].recipient;
    if n.ba[i].Confirm? {
      assert r in n.hb.bind;
      var k :| k in n.ha.bind && n.ha.bind[k] == r;
      if k in n.ha.offered { assert n.hb.bind[r] == k; }
    }
  }

  /** window_adjust on r succeeds. */
  ghost predicate Grants(n: Net, n': Net, r: u32, c: u32) {
    && SameSender(n, n') && n'.ab == n.ab && n'.b.next == n.b.next
    && r in n.b.chans && n.b.chans[r].state == Opened && r in n.hb.bind && r < n.b.next
    && n'.b.chans == n.b.chans[r := n.b.chans[r].(recvWindow := Add32(n.b.chans[r].recvWindow, c))]
    && n'.ba == n.ba + [Window(n.hb.bind[r], c)]
    && n'.hb.wrapped == if n.b.chans[r].recvWindow + c >= U32 then n.hb.wrapped + {r} else n.hb.wrapped
  }

  lemma GrantKeeps(n: Net, n': Net, r: u32, c: u32)
    requires Agreed(n) && Credit(n) && Grants(n, n', r, c)
    ensures Credit(n')
  {
    hide Agreed;
    var p := Window(n.hb.bind[r], c);
    forall k | k in n'.a.chans && Sending(n'.a.chans[k]) && k in n'.ha.bind && n'.ha.bind[k] in n'.b.chans
      ensures Balanced(n', k, n'.ha.bind[k])
    {
      var q := n.ha.bind[k];
      assert Balanced(n, k, q);
      SumsMore(n.ba, [p], k);
      PeersAreMutual(n, k, r);
      if q == r {
        Grant(n.b.chans[r].recvWindow, n.a.chans[k].sendWindow + BytesTo(n.ab, r) + CreditTo(n.ba, k), r !in n.hb.wrapped, c);
      }
    }
    forall i | 0 <= i < |n'.ba| ensures Announced(n', i) {
      if i < |n.ba| {
        assert n'.ba[i] == n.ba[i];
        GrantAnnounced(n, n', r, c, i);
      }
    }
  }

  /** Of two bound ids, one end names the other exactly when the other names it. */
  lemma PeersAreMutual(n: Net, k: u32, r: u32)
    requires Agreed(n) && k in n.ha.bind && r in n.hb.bind
    ensures n.ha.bind[k] == r <==> n.hb.bind[r] == k
  {
    assert Bound(n) && Bound(Flip(n));
    if n.ha.bind[k] == r {
      if k !in n.ha.offered { assert n.ha.bind[n.hb.bind[r]] == r; }
    }
    if n.hb.bind[r] == k {
      if r !in n.hb.offered { assert n.hb.bind[n.ha.bind[k]] == k; }
    }
  }

  lemma GrantAnnounced(n: Net, n': Net, r: u32, c: u32, i: nat)
    requires Agreed(n) && Credit(n) && Grants(n, n', r, c) && i < |n.ba|
    ensures Announced(n', i)
  {
    assert Announced(n, i) && n'.ba[i] == n.ba[i];
    var p := n.ba[i];
    assert p.Confirm? && p.sender == r ==> p.recipient == n.hb.bind[r] by {
      assert Bound(Flip(n)) && Carried(Flip(n), i);
    }
    assert p.Open? ==> p.sender != r by {
      assert Bound(Flip(n)) && Carried(Flip(n), i);
    }
    assert p.Confirm? && p.recipient == n.hb.bind[r] ==> p.sender == r by {
      assert Bound(Flip(n)) && Carried(Flip(n), i);
    }
    hide Agreed;
    if p.Confirm? {
      SumsMore(n.ba, [Window(n.hb.bind[r], c)], p.recipient);
      if p.sender == r {
        Grant(n.b.chans[r].recvWindow, p.initWindow + CreditTo(n.ba, p.recipient), r !in n.hb.wrapped, c);
      }
    }
  }

  /** B announces channel r with its window, in an OPEN or a CONFIRM. */
  ghost predicate Announces(n: Net, n': Net, r: u32, ch: Channel, p: Pdu) {
    && SameSender(n, n') && n'.ab == n.ab && n'.b.next >= n.b.next && n'.hb.wrapped == n.hb.wrapped
    && n'.b.chans == n.b.chans[r := ch] && n'.ba == n.ba + [p]
    && (p.Open? || p.Confirm?) && p.sender == r && p.initWindow == ch.recvWindow && r !in n.hb.wrapped
    && (p.Confirm? ==> ch.state == Opened && CreditTo(n.ba, p.recipient) == 0)
    && (forall i :: 0 <= i < |n.ba| && (n.ba[i].Open? || n.ba[i].Confirm?) ==> n.ba[i].sender != r)
    && (forall k :: k in n.a.chans && Sending(n.a.chans[k]) && k in n.ha.bind ==> n.ha.bind[k] != r)
  }

  lemma AnnounceKeeps(n: Net, n': Net, r: u32, ch: Channel, p: Pdu)
    requires Credit(n) && Announces(n, n', r, ch, p)
    ensures Credit(n')
  {
    forall k | k in n'.a.chans && Sending(n'.a.chans[k]) && k in n'.ha.bind && n'.ha.bind[k] in n'.b.chans
      ensures Balanced(n', k, n'.ha.bind[k])
    {
      assert Balanced(n, k, n.ha.bind[k]);
      SumsMore(n.ba, [p], k);
    }
    forall i | 0 <= i < |n'.ba| ensures Announced(n', i) {
      if i < |n.ba| {
        assert n'.ba[i] == n.ba[i];
        assert Announced(n, i);
        if n.ba[i].Confirm? { SumsMore(n.ba, [p], n.ba[i].recipient); }
      } else if p.Confirm? {
        SumsMore(n.ba, [p], p.recipient);
      }
    }
  }

  // ------------------------------------------------------------------
  // Every move
  // ------------------------------------------------------------------

  /** What the binding invariant says about one live channel of A. */
  lemma LiveFacts(n: Net, k: u32)
    requires Agreed(n)
    ensures Paired(n) && Link(Flip(n)) && OwnIds(n.a)
    ensures k in n.a.chans && n.a.chans[k].state != Opening ==> k in n.ha.bind && n.ha.bind[k] == n.a.chans[k].peerId
    ensures k in n.a.chans ==> k < n.a.next
    ensures n.a.next <= k ==> k !in n.ha.bind && k !in n.a.chans && k !in n.hb.bind.Values
  {
    assert Named(n) && Bound(Flip(n));
    if k in n.a.chans { assert Placed(n, k); }
    if n.a.next <= k { FreshIsNobodysPeer(n, k); }
  }

  lemma CallSendShape(p: Peer, c: Call, s: Sink)
    ensures var o := CallOutcome(p, c, s);
      && |o.push| <= 1
      && (!(c.CallSend? && o.rc == Ok) ==> (o.push != [] ==> !o.push[0].Data?))
      && match o.eff {
        case Put(id, ch) =>
          && id in p.chans
          && (!c.CallSend? ==> ch.sendWindow == p.chans[id].sendWindow && Sending(ch) == Sending(p.chans[id]))
        case Add(ch) => ch.state == Opening
        case _ => true
      }
  {
  }

  lemma SendCreditOut(n: Net, c: Call, s: Sink)
    requires Agreed(n) && Credit(n) && c.CallSend? && CallOutcome(n.a, c, s).rc == Ok
    ensures Credit(CallA(n, c, s))
  {
    hide Agreed, Credit;
    LiveFacts(n, c.id);
    SendKeeps(n, CallA(n, c, s), c.id, c.data);
  }

  lemma CallCreditOut(n: Net, c: Call, s: Sink)
    requires Agreed(n) && IdsLeft(CallA(n, c, s)) && Credit(n)
    ensures Credit(CallA(n, c, s))
  {
    hide Agreed, Credit, Paired, Link, OwnIds;
    if c.CallSend? && CallOutcome(n.a, c, s).rc == Ok {
      hide CallA, CallOutcome;
      SendCreditOut(n, c, s);
    } else {
      var n', o := CallA(n, c, s), CallOutcome(n.a, c, s);
      LiveFacts(n, NextId(n.a));
      CallSendShape(n.a, c, s);
      CallNames(n.ha, n.a, c, o);
      IdleKeeps(n, n', o.push);
    }
  }

  lemma CallRecvShape(p: Peer, c: Call, s: Sink)
    ensures var o := CallOutcome(p, c, s);
      && |o.push| <= 1
      && (!c.CallAdjust? && !o.eff.Add? && !(c.CallAccept? && o.eff.Put?) ==>
            && (o.push != [] ==> !o.push[0].Window? && !o.push[0].Confirm? && !o.push[0].Open?)
            && (o.eff.Put? ==> var id := o.eff.id;
                  id in p.chans && o.eff.ch.recvWindow == p.chans[id].recvWindow && o.eff.ch.state == p.chans[id].state))
      && (o.eff.Add? ==> c.CallOpen?)
  {
  }

  lemma CallWraps(h: Hist, p: Peer, c: Call, o: Outcome)
    ensures var h' := NoteCall(h, p, c, o);
      && (!c.CallAdjust? || o.rc != Ok ==> h'.wrapped == h.wrapped)
  {
  }

  lemma CallCreditIn(n: Net, c: Call, s: Sink)
    requires Agreed(n) && IdsLeft(CallA(n, c, s)) && Credit(Flip(n))
    ensures Credit(Flip(CallA(n, c, s)))
  {
    hide Agreed, Credit;
    var n', o := CallA(n, c, s), CallOutcome(n.a, c, s);
    if c.CallAdjust? {
      AdjustCreditIn(n, c.id, c.credit, s);
    } else if o.eff.Add? {
      OpenCreditIn(n, c, s);
    } else if c.CallAccept? && o.eff.Put? {
      AcceptCreditIn(n, c.id, s);
    } else {
      hide CallOutcome, NoteCall;
      CallRecvShape(n.a, c, s);
      CallWraps(n.ha, n.a, c, o);
      ListenKeeps(Flip(n), Flip(n'), o.push);
    }
  }

  lemma AdjustCreditIn(n: Net, x: u32, credit: u32, s: Sink)
    requires Agreed(n) && Credit(Flip(n))
    ensures Credit(Flip(CallA(n, CallAdjust(x, credit), s)))
  {
    hide Agreed, Credit;
    var c := CallAdjust(x, credit);
    var n', o := CallA(n, c, s), CallOutcome(n.a, c, s);
    LiveFacts(n, x);
    FlipAgreed(n);
    if o.rc == Ok {
      GrantKeeps(Flip(n), Flip(n'), x, credit);
    } else {
      ListenKeeps(Flip(n), Flip(n'), []);
    }
  }

  lemma FreshFacts(n: Net, x: u32)
    requires Agreed(n) && Credit(Flip(n)) && n.a.next <= x
    ensures x !in n.ha.wrapped && x !in n.a.chans
    ensures forall i :: 0 <= i < |n.ab| && (n.ab[i].Open? || n.ab[i].Confirm?) ==> n.ab[i].sender != x
    ensures forall k :: k in n.hb.bind ==> n.hb.bind[k] != x
  {
    assert Bound(n);
    FreshIsNobodysPeer(n, x);
    forall i | 0 <= i < |n.ab| ensures (n.ab[i].Open? || n.ab[i].Confirm?) ==> n.ab[i].sender != x {
      assert Carried(n, i);
    }
    forall k | k in n.hb.bind ensures n.hb.bind[k] != x { assert n.hb.bind[k] in n.hb.bind.Values; }
  }

  lemma OpenCreditIn(n: Net, c: Call, s: Sink)
    requires Agreed(n) && IdsLeft(CallA(n, c, s)) && Credit(Flip(n)) && CallOutcome(n.a, c, s).eff.Add?
    ensures Credit(Flip(CallA(n, c, s)))
  {
    hide Agreed, Credit;
    var x := NextId(n.a);
    FreshFacts(n, x);
    var n', o := CallA(n, c, s), CallOutcome(n.a, c, s);
    assert c.CallOpen?;
    AnnounceKeeps(Flip(n), Flip(n'), x, o.eff.ch, o.push[0]);
  }

  /** A pending channel has not been announced, is not yet anybody's peer, and has been told of no credit. */
  lemma PendingFacts(n: Net, x: u32)
    requires Agreed(n) && Credit(Flip(n)) && x in n.a.chans && n.a.chans[x].state == Pending
    ensures x !in n.ha.wrapped && CreditTo(n.ab, n.a.chans[x].peerId) == 0
    ensures forall i :: 0 <= i < |n.ab| && (n.ab[i].Open? || n.ab[i].Confirm?) ==> n.ab[i].sender != x
    ensures x !in n.hb.bind.Values
    ensures forall i :: 0 <= i < |n.ba| ==> !(Addressed(n.ba[i]) && n.ba[i].recipient == x)
  {
    assert Bound(n) && Bound(Flip(n)) && Placed(n, x);
    var r := n.ha.bind[x];
    forall k | k in n.hb.bind ensures n.hb.bind[k] != x {
      if n.hb.bind[k] == x { PeersAreMutual(n, x, k); }
    }
    forall i | 0 <= i < |n.ab|
      ensures n.ab[i].Confirm? ==> n.ab[i].recipient != r
      ensures (n.ab[i].Open? || n.ab[i].Confirm?) ==> n.ab[i].sender != x
    {
      assert Carried(n, i);
    }
    forall i | 0 <= i < |n.ab| ensures !(n.ab[i].Window? && n.ab[i].recipient == r) {
      assert Carried(n, i);
    }
    NoCreditTo(n.ab, r);
    forall i | 0 <= i < |n.ba| ensures !(Addressed(n.ba[i]) && n.ba[i].recipient == x) {
      assert Carried(Flip(n), i);
    }
  }

  lemma AcceptCreditIn(n: Net, x: u32, s: Sink)
    requires Agreed(n) && Credit(Flip(n)) && CallOutcome(n.a, CallAccept(x, true), s).eff.Put?
    ensures Credit(Flip(CallA(n, CallAccept(x, true), s)))
  {
    hide Agreed, Credit;
    LiveFacts(n, x);
    PendingFacts(n, x);
    var c := CallAccept(x, true);
    var n', o := CallA(n, c, s), CallOutcome(n.a, c, s);
    forall k | k in n.hb.bind ensures n.hb.bind[k] != x { assert n.hb.bind[k] in n.hb.bind.Values; }
    AnnounceKeeps(Flip(n), Flip(n'), x, o.eff.ch, o.push[0]);
  }

  lemma ReceiveCreditShape(p: Peer, m: Pdu, s: Sink)
    requires p.state != Error
    ensures var o := ReceiveOutcome(p, m, s);
      && (m.Data? && o.state != Error ==>
            && o.push == [] && m.recipient in p.chans && p.chans[m.recipient].state == Opened
            && |m.data| <= p.chans[m.recipient].recvWindow
            && o.eff == Put(m.recipient, p.chans[m.recipient].(recvWindow := p.chans[m.recipient].recvWindow - |m.data|)))
      && (m.Window? && o.state != Error ==>
            && o.push == []
            && if m.recipient in p.chans && p.chans[m.recipient].state == Opened then
                 o.eff == Put(m.recipient, p.chans[m.recipient].(sendWindow := Add32(p.chans[m.recipient].sendWindow, m.add)))
               else o.eff == Keep)
      && match o.eff {
        case Put(id, ch) =>
          && id in p.chans
          && (!m.Data? ==> ch.recvWindow == p.chans[id].recvWindow)
          && (p.chans[id].state == Opened ==> ch.state == Opened)
          && (!m.Window? && !m.Confirm? ==> ch.sendWindow == p.chans[id].sendWindow && ch.state == p.chans[id].state)
          && (m.Confirm? ==> ch.sendWindow == m.initWindow)
        case Add(ch) => m.Open? && ch.sendWindow == m.initWindow
        case _ => true
      }
  {
  }

  lemma DeliverCreditIn(n: Net, s: Sink)
    requires Agreed(n) && IdsLeft(DeliverA(n, s)) && Credit(Flip(n))
    ensures Credit(Flip(DeliverA(n, s)))
  {
    hide Agreed, Credit, ReceiveOutcome;
    if n.ba != [] && n.a.state != Error && n.a.state != Closed {
      var p, n' := n.ba[0], DeliverA(n, s);
      ReceiveShape(n.a, p, s);
      ReceiveCreditShape(n.a, p, s);
      var o := ReceiveOutcome(n.a, p, s);
      if p.Data? && o.state != Error {
        FlipAgreed(n);
        TakeKeeps(Flip(n), Flip(n'), p.recipient);
      } else {
        if o.eff.Add? { FreshFacts(n, NextId(n.a)); }
        ListenKeeps(Flip(n), Flip(n'), o.push);
      }
    }
  }

  lemma DeliverCreditOut(n: Net, s: Sink)
    requires Agreed(n) && IdsLeft(DeliverA(n, s)) && Credit(n) && Credit(Flip(n))
    ensures Credit(DeliverA(n, s))
  {
    hide Agreed, Credit, ReceiveOutcome, Paired, Link, OwnIds;
    if n.ba != [] && n.a.state != Error && n.a.state != Closed {
      var p, n' := n.ba[0], DeliverA(n, s);
      ReceiveShape(n.a, p, s);
      ReceiveCreditShape(n.a, p, s);
      var o := ReceiveOutcome(n.a, p, s);
      LiveFacts(n, NextId(n.a));
      if p.Window? && o.state != Error {
        if o.eff.Put? {
          CollectKeeps(n, n', p.recipient);
        } else {
          if p.recipient in n.a.chans && n.a.chans[p.recipient].state == Pending { PendingFacts(n, p.recipient); }
          LiveFacts(n, p.recipient);
          IgnoreKeeps(n, n');
        }
      } else if p.Confirm? && o.state != Error {
        LearnFacts(n);
        LearnKeeps(n, n', p.recipient, o.eff.ch);
      } else if o.eff.Add? {
        LearnFacts(n);
        LearnKeeps(n, n', NextId(n.a), o.eff.ch);
      } else {
        DeliverIdle(n, s);
      }
    }
  }

  lemma DeliverIdle(n: Net, s: Sink)
    requires Credit(n) && n.ba != [] && n.a.state != Error && n.a.state != Closed
    requires var p, o := n.ba[0], ReceiveOutcome(n.a, n.ba[0], s);
      (!p.Window? && !p.Confirm? && !o.eff.Add?) || o.state == Error
    ensures Credit(DeliverA(n, s))
  {
    hide ReceiveOutcome, Credit;
    var p, n' := n.ba[0], DeliverA(n, s);
    ReceiveShape(n.a, p, s);
    ReceiveCreditShape(n.a, p, s);
    IdleKeeps(n, n', ReceiveOutcome(n.a, p, s).push);
  }

  /** No bytes or credit have yet moved on a pair that an OPEN or a CONFIRM is about to make. */
  lemma LearnFacts(n: Net)
    requires Agreed(n) && n.ba != [] && (n.ba[0].Open? || n.ba[0].Confirm?)
    ensures BytesTo(n.ab, n.ba[0].sender) == 0
    ensures n.ba[0].Open? ==> CreditTo(n.ba, NextId(n.a)) == 0 || n.a.next >= U32
  {
    var p := n.ba[0];
    assert p.sender !in n.ha.bind.Values by { NetFacts(n); }
    assert Bound(n) && Bound(Flip(n));
    forall i | 0 <= i < |n.ab| ensures !(n.ab[i].Data? && n.ab[i].recipient == p.sender) {
      assert Carried(n, i);
    }
    NothingTo(n.ab, p.sender);
    if p.Open? && n.a.next < U32 {
      FreshIsNobodysPeer(n, NextId(n.a));
      forall i | 0 <= i < |n.ba| ensures !(n.ba[i].Window? && n.ba[i].recipient == NextId(n.a)) {
        assert Carried(Flip(n), i);
      }
      NoCreditTo(n.ba, NextId(n.a));
    }
  }

  lemma NetFacts(n: Net)
    requires Agreed(n) && n.ba != [] && (n.ba[0].Open? || n.ba[0].Confirm?)
    ensures n.ba[0].sender !in n.ha.bind.Values
  {
    assert Bound(n) && Bound(Flip(n)) && Carried(Flip(n), 0);
    var p := n.ba[0];
    forall k | k in n.ha.bind ensures n.ha.bind[k] != p.sender {
      if p.Confirm? { PeersAreMutual(n, k, p.sender); }
    }
  }

  lemma StepCredit(n: Net, m: Move)
    requires Agreed(n) && IdsLeft(Step(n, m)) && Credit(n) && Credit(Flip(n))
    ensures Credit(Step(n, m)) && Credit(Flip(Step(n, m)))
  {
    hide Agreed, Credit, CallA, DeliverA;
    var f := Flip(n);
    assert Flip(f) == n;
    match m {
      case MoveA(ActCall(c, s)) => CallCreditOut(n, c, s); CallCreditIn(n, c, s);
      case MoveA(ActDeliver(s)) => DeliverCreditOut(n, s); DeliverCreditIn(n, s);
      case MoveB(ActCall(c, s)) =>
        FlipAgreed(n); CallCreditOut(f, c, s); CallCreditIn(f, c, s);
        assert Flip(Flip(CallA(f, c, s))) == CallA(f, c, s);
      case MoveB(ActDeliver(s)) =>
        FlipAgreed(n); DeliverCreditOut(f, s); DeliverCreditIn(f, s);
        assert Flip(Flip(DeliverA(f, s))) == DeliverA(f, s);
    }
  }

  /** Credit is conserved along every run within the id space. */
  lemma {:induction false} RunCredit(n: Net, moves: seq<Move>)
    requires Agreed(n) && IdsLeft(Run(n, moves)) && Credit(n) && Credit(Flip(n))
    ensures Agreed(Run(n, moves)) && Credit(Run(n, moves)) && Credit(Flip(Run(n, moves)))
    decreases |moves|
  {
    hide Step, Agreed, Credit;
    if moves != [] {
      IdsOnlyGrow(Step(n, moves[0]), moves[1..]);
      StepKeeps(n, moves[0]);
      StepCredit(n, moves[0]);
      RunCredit(Step(n, moves[0]), moves[1..]);
    }
  }
}
