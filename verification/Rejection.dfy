/**
 * A device that is turned down: the client of an honest pair, waiting in AUTH,
 * comes to know of it.
 */
module Rejection {
  import opened Base
  import opened Mux
  import opened Wire
  import opened WirePdu
  import opened Crypto
  import opened Engine
  import opened EngineCalls
  import opened EngineInput
  import opened AuthLaws
  import opened PduLaws
  import opened Pair
  import opened Handshake
  import opened Leaving

  /** What phase 5 says: the server may decide, the client waits, and nothing is in flight. */
  lemma Awaiting(cr: Suite, n: Pair, claims: bytes)
    requires StreamLaw(cr) && AtPhase(cr, n, 5, claims)
    ensures var a, b, st := n.a.c, n.b.c, S2c(cr, n.a.c, n.b.c);
      && Due(a) && a.push == Some(st) && a.out == [] && a.id.cfg.maxRecord >= 3 + CLAIMS_MAX
      && b.state == Auth && b.hs == Done && b.pull == Some(st) && b.id.cfg.maxRecord >= 3 + CLAIMS_MAX
      && n.b.inp == [] && n.ab == [] && !Stopped(b) && |n.b.inp| < IN_BUF_SIZE
  {
    AuthPhase(cr, n, 5, claims);
    hide Keys, Transcripted, DevicePdu, Frame, SealFrame, StreamLaw, Settled, DeviceEvent;
  }

  /** A client in AUTH takes a sealed AUTH_FAIL off its input, and fails. */
  lemma ClientMeetsFailure(cr: Suite, c: Ctx, p: Pdu)
    requires StreamLaw(cr) && c.state == Auth && c.hs == Done && c.pull.Some? && c.id.cfg.maxRecord >= 3 + CLAIMS_MAX && p == AuthFail(0, [])
    ensures var ct := cr.seal(c.pull.value, TAG_MESSAGE, Encode(p));
      |ct| < U32 && var d := Process(cr, Side(c, Frame(ct))).c;
      d.state == Error && d.log == c.log + [AuthFailed(REASON_UNSPEC), ErrorEvent(ErrRejected)]
  {
    var ct := cr.seal(c.pull.value, TAG_MESSAGE, Encode(p));
    assert |ct| == 20;
    FailIsHeard(cr, c, p);
    assert OnFrame(cr, c, ct) == Hears(cr, c, p);
    assert Frame(ct) + [] == Frame(ct);
    var longest := Min(c.id.cfg.maxRecord + SS_ABYTES, IN_BUF_SIZE - 4);
    hide Encode, StreamLaw, OnFrame, Hears, Process, Frame;
    FrontDecides(cr, c, ct, [], 0, longest);
  }

  /** The server's part: the AUTH_FAIL is all there is on the way, and is short. */
  lemma RejectedServer(cr: Suite, n: Pair, claims: bytes, unused: bytes)
    requires StreamLaw(cr) && AtPhase(cr, n, 5, claims) && |unused| <= CLAIMS_MAX
    ensures var n', st := Step(cr, n, MoveA(Decides(false, unused))), S2c(cr, n.a.c, n.b.c);
      var ct := cr.seal(st, TAG_MESSAGE, Encode(AuthFail(0, [])));
      && n'.a.c.state == Error && n'.a.c.log == n.a.c.log + [AuthFailed(REASON_POLICY), ErrorEvent(ErrRejected)]
      && n'.b == n.b && |ct| < U32
      && n'.ab + n'.a.c.out != [] && Side(n'.b.c, Buffered(n'.b.inp + n'.ab + n'.a.c.out)) == Side(n.b.c, Frame(ct))
  {
    Awaiting(cr, n, claims);
    var p, a, n' := AuthFail(0, []), n.a.c, Step(cr, n, MoveA(Decides(false, unused)));
    hide AtPhase, S2c, Due, Process, Decide;
    RejectionIsSent(cr, a, unused);
    var ct := cr.seal(a.push.value, TAG_MESSAGE, Encode(p));
    assert |ct| == 20;
    hide StreamLaw, Encode, OneFrame;
    FrameIs(cr, a, n'.a.c, p);
    assert [] + [] + Frame(ct) == Frame(ct) && Buffered(Frame(ct)) == Frame(ct);
  }

  lemma FrameIs(cr: Suite, c: Ctx, d: Ctx, p: Pdu)
    requires OneFrame(cr, c, d, p) && c.out == []
    ensures var ct := cr.seal(c.push.value, TAG_MESSAGE, Encode(p)); |ct| < U32 && d.out == Frame(ct)
  {
    hide Encode;
    var ct := cr.seal(c.push.value, TAG_MESSAGE, Encode(p));
    assert [] + Frame(ct) == Frame(ct);
  }

  /**
   * A rejection that is due ends the server, whose host is told of its own
   * policy; and what is then in flight, delivered, ends the client, whose
   * host is told of the failure and the rejection.
   */
  lemma RejectionReachesTheClient(cr: Suite, n: Pair, claims: bytes, unused: bytes)
    requires Ideal(cr) && AtPhase(cr, n, 5, claims) && |unused| <= CLAIMS_MAX
    ensures var n' := Step(cr, n, MoveA(Decides(false, unused))); var d := Run(cr, n', Emptying(n'));
      && n'.a.c.state == Error && n'.a.c.log == n.a.c.log + [AuthFailed(REASON_POLICY), ErrorEvent(ErrRejected)]
      && n'.b == n.b && n.b.c.state == Auth
      && d.b.c.state == Error && d.b.c.log == n.b.c.log + [AuthFailed(REASON_UNSPEC), ErrorEvent(ErrRejected)]
  {
    hide *;
    IdealStream(cr);
    Awaiting(cr, n, claims);
    var n' := Step(cr, n, MoveA(Decides(false, unused)));
    RejectedServer(cr, n, claims, unused);
    ClientMeetsFailure(cr, n.b.c, AuthFail(0, []));
    Emptied(cr, n');
  }
}
