/**
 * The input buffer: how the bytes were cut up does not matter, and the buffer
 * never wedges.
 */
module EngineInput {
  import opened Base
  import opened Wire
  import opened Crypto
  import opened Transcript
  import opened Engine

  // ------------------------------------------------------------------
  // Chunking independence
  // ------------------------------------------------------------------

  /** Processing first and then being given more is being given it all at once. */
  lemma {:induction false} ProcessMore(cr: Suite, s: Side, more: bytes)
    ensures var d := Process(cr, s);
      Process(cr, s.(inp := s.inp + more)) ==
        if Stopped(d.c) then d.(inp := d.inp + more) else Process(cr, d.(inp := d.inp + more))
    decreases |s.inp|
  {
    hide OnFrame, Parse, Limit;
    var r := Parse(s.inp, Limit(s.c));
    if !Stopped(s.c) && !r.NeedMore? {
      ParseMore(s.inp, more, Limit(s.c));
      if r.Framed? && OnFrame(cr, s.c, r.body).state != Error {
        var e := Side(OnFrame(cr, s.c, r.body), s.inp[r.consumed..]);
        assert (s.inp + more)[r.consumed..] == e.inp + more;
        ProcessMore(cr, e, more);
      }
    }
  }

  lemma {:induction false} ProcessShrinks(cr: Suite, s: Side)
    ensures |Process(cr, s).inp| <= |s.inp|
    decreases |s.inp|
  {
    hide OnFrame, Parse, Limit;
    var r := Parse(s.inp, Limit(s.c));
    if !Stopped(s.c) && r.Framed? && OnFrame(cr, s.c, r.body).state != Error {
      ProcessShrinks(cr, Side(OnFrame(cr, s.c, r.body), s.inp[r.consumed..]));
    }
  }

  /** Equal in everything but the unread bytes of a stopped session. */
  predicate Alike(s: Side, t: Side) {
    s.c == t.c && (Stopped(s.c) || s == t)
  }

  /**
   * Feeding x and then y, with no call in between, ends where feeding x + y
   * ends, although the frame limit may change on the way.
   */
  lemma ChunkingDoesNotMatter(cr: Suite, s: Side, x: bytes, y: bytes)
    requires |s.inp| + |x| + |y| <= IN_BUF_SIZE && Settled(s)
    ensures Alike(Feed(cr, Feed(cr, s, x), y), Feed(cr, s, x + y))
  {
    hide Process, Parse, Limit;
    var sx := s.(inp := s.inp + x);
    if !Stopped(s.c) {
      ProcessShrinks(cr, sx);
      ProcessMore(cr, sx, y);
      assert s.inp + (x + y) == sx.inp + y;
      assert x[..|x|] == x && y[..|y|] == y && (x + y)[..|x + y|] == x + y;
      if x == [] {
        assert x + y == y;
      } else if y == [] {
        assert x + y == x;
      }
    }
  }

  // ------------------------------------------------------------------
  // The buffer never wedges
  // ------------------------------------------------------------------

  /** At an API boundary a running session waits for the rest of one frame. */
  predicate Settled(s: Side) {
    !Stopped(s.c) ==> Parse(s.inp, Limit(s.c)).NeedMore?
  }

  lemma {:induction false} ProcessSettles(cr: Suite, s: Side)
    ensures Settled(Process(cr, s))
    decreases |s.inp|
  {
    hide OnFrame, Parse, Limit;
    var r := Parse(s.inp, Limit(s.c));
    if !Stopped(s.c) && r.Framed? && OnFrame(cr, s.c, r.body).state != Error {
      ProcessSettles(cr, Side(OnFrame(cr, s.c, r.body), s.inp[r.consumed..]));
    }
  }

  /** What waits for more is less than a length field, or a proper prefix of one legal frame. */
  lemma WaitingIsPrefix(inp: bytes, maxBody: nat)
    requires Parse(inp, maxBody).NeedMore? && 4 <= |inp| && maxBody < U32
    ensures exists body :: LegalBody(body, maxBody) && |inp| < 4 + |body| && inp <= Frame(body)
  {
    var n := GetU32(inp);
    PutGetU32(inp);
    hide PutU32, GetU32;
    var body := inp[4..] + Zeros(n - (|inp| - 4));
    assert |body| == n;
    assert Frame(body) == inp[..4] + body;
    assert inp == inp[..4] + inp[4..];
    assert LegalBody(body, maxBody) && |inp| < 4 + |body| && inp <= Frame(body);
  }

  lemma ResidueIsShort(s: Side)
    requires Settled(s) && !Stopped(s.c)
    ensures |s.inp| < IN_BUF_SIZE
    ensures |s.inp| >= 4 ==> exists body :: LegalBody(body, Limit(s.c)) && |s.inp| < 4 + |body| && s.inp <= Frame(body)
  {
    hide Frame;
    if |s.inp| >= 4 { WaitingIsPrefix(s.inp, Limit(s.c)); }
  }

  /** The least length field that starts with these bytes. */
  function LeastLength(inp: bytes): u32
    requires |inp| < 4
  {
    GetU32(inp + Zeros(4 - |inp|))
  }

  /**
   * Fewer than four bytes may already rule out every legal frame, and the
   * session waits all the same: they start one if and only if the least
   * length they allow is within the limit.
   */
  lemma ShortResidue(s: Side)
    requires !Stopped(s.c) && |s.inp| < 4
    ensures Settled(s)
    ensures (exists body :: LegalBody(body, Limit(s.c)) && s.inp <= Frame(body)) <==> LeastLength(s.inp) <= Limit(s.c)
  {
    if LeastLength(s.inp) <= Limit(s.c) {
      LeastStarts(s.inp, Limit(s.c));
    }
    forall body | LegalBody(body, Limit(s.c)) && s.inp <= Frame(body) ensures LeastLength(s.inp) <= |body| {
      StartedIsLeast(s.inp, body);
    }
  }

  lemma LeastStarts(inp: bytes, maxBody: nat)
    requires |inp| < 4 && LeastLength(inp) <= maxBody && 0 < maxBody < U32
    ensures exists body :: LegalBody(body, maxBody) && inp <= Frame(body)
  {
    var full := inp + Zeros(4 - |inp|);
    var n := if LeastLength(inp) == 0 then 1 else LeastLength(inp);
    PutGetU32(full);
    assert PutU32(n)[..|inp|] == inp by {
      if LeastLength(inp) == 0 {
        assert full == PutU32(0) == [0, 0, 0, 0] && PutU32(1) == [0, 0, 0, 1];
      }
    }
    assert inp <= Frame(Zeros(n)) && LegalBody(Zeros(n), maxBody);
  }

  lemma StartedIsLeast(inp: bytes, body: bytes)
    requires |inp| < 4 && |body| < U32 && inp <= Frame(body)
    ensures LeastLength(inp) <= |body|
  {
    var full, len := inp + Zeros(4 - |inp|), PutU32(|body|);
    GetPutU32(|body|, []);
    assert len + [] == len;
    assert forall i :: 0 <= i < 4 ==> full[i] <= len[i];
  }

  /** One byte that no legal frame starts with, and a created session waits for more all the same. */
  lemma CanWaitInVain(cr: Suite, id: Ident, serverPk: Option<Key32>, ephSk: Key32, header: Header24)
    requires Creatable(id, serverPk)
    ensures var s := Create(cr, id, serverPk, ephSk, header).value; var d := Feed(cr, s, [255]);
      && d == s.(inp := [255]) && !Stopped(d.c) && Settled(d)
      && !exists body :: LegalBody(body, Limit(d.c)) && d.inp <= Frame(body)
  {
    var s := Create(cr, id, serverPk, ephSk, header).value;
    var fed := s.(inp := [255]);
    assert s.inp == [] && s.c.state == Hello && s.c.hs == WaitPeerHello by { hide QueueHello; }
    hide Create;
    assert s.inp + [255][..1] == fed.inp;
    assert Feed(cr, s, [255]) == Process(cr, fed) == fed;
    var full := [255] + Zeros(3);
    assert full == [255, 0, 0, 0];
    assert LeastLength([255]) == 255 * 0x100_0000;
    ShortResidue(fed);
  }

  /** A running session always takes at least one byte of a non-empty feed. */
  lemma NeverWedged(cr: Suite, s: Side, data: bytes)
    requires Settled(s) && !Stopped(s.c) && data != []
    ensures 0 < Taken(s, data) && Settled(Feed(cr, s, data))
  {
    hide Settled;
    ResidueIsShort(s);
    ProcessSettles(cr, s.(inp := s.inp + data[..Taken(s, data)]));
  }

  // ------------------------------------------------------------------
  // What goes in and what comes out
  // ------------------------------------------------------------------

  /** A running session takes all it is given, or fills its buffer; a stopped one takes nothing. */
  lemma FeedTakesWhatFits(s: Side, data: bytes)
    requires |s.inp| <= IN_BUF_SIZE
    ensures var k := Taken(s, data);
      if Stopped(s.c) then k == 0 else k <= |data| && |s.inp| + k <= IN_BUF_SIZE && (k == |data| || |s.inp| + k == IN_BUF_SIZE)
  {
  }

  /** get_output hands out the oldest bytes, as many as are asked for and there; nothing else changes. */
  lemma OutputGivesTheOldest(c: Ctx, max: nat)
    ensures var (d, given) := Output(c, max);
      given + d.out == c.out && (|given| == max || d.out == []) && |given| <= max && d == c.(out := d.out)
  {
  }

  /** The longest body a frame may have: a clear one in the handshake, and then a record with its tag, within the buffer. */
  predicate Longest(c: Ctx, n: nat) {
    if c.hs != Done then n == MAX_CLEAR_FRAME
    else n <= c.id.cfg.maxRecord + SS_ABYTES && n <= IN_BUF_SIZE - 4 && (n == c.id.cfg.maxRecord + SS_ABYTES || n == IN_BUF_SIZE - 4)
  }

  /**
   * What is at the front of the buffer: a length of zero or above the limit
   * fails at once, before its body is there; a whole frame is handled, and
   * leaves the buffer unless it fails; less than that waits.
   */
  lemma FrontDecides(cr: Suite, c: Ctx, body: bytes, rest: bytes, k: nat, longest: nat)
    requires !Stopped(c) && |body| < U32 && Longest(c, longest) && k < 4 + |body|
    ensures var s, d := Side(c, Frame(body) + rest), OnFrame(cr, c, body);
      if 0 < |body| <= longest then
        && Process(cr, Side(c, Frame(body)[..k])) == Side(c, Frame(body)[..k])
        && (d.state == Error ==> Process(cr, s) == Side(d, s.inp))
        && (d.state != Error ==> Process(cr, s) == Process(cr, Side(d, rest)))
      else
        && (k >= 4 ==> Process(cr, Side(c, Frame(body)[..k])) == Side(Fail(c, ErrProtocol), Frame(body)[..k]))
        && Process(cr, s) == Side(Fail(c, ErrProtocol), s.inp)
  {
    assert longest == Limit(c);
    if 0 < |body| <= longest {
      ParseFrame(body, rest, longest);
      ParseProperPrefix(body, k, longest);
    } else {
      BadLength(body, rest, longest);
      if k >= 4 {
        assert Frame(body)[..k] == PutU32(|body|) + body[..k - 4];
        GetPutU32(|body|, body[..k - 4]);
      }
    }
    hide OnFrame, Limit, GetU32, PutU32;
  }

  lemma BadLength(body: bytes, rest: bytes, maxBody: nat)
    requires |body| < U32 && (body == [] || |body| > maxBody)
    ensures Parse(Frame(body) + rest, maxBody) == BadFrame
  {
    assert Frame(body) + rest == PutU32(|body|) + (body + rest);
    GetPutU32(|body|, body + rest);
  }
}
