/**
 * The normative byte layouts, src/sodchan_wire.c: big-endian integers,
 * length-prefixed frames, the HELLO body, and one encoding per PDU.
 */
module Wire {
  import opened Base

  function PutU16(v: u16): (r: bytes)
    ensures |r| == 2
  {
    [v / 256, v % 256]
  }

  function PutU32(v: u32): (r: bytes)
    ensures |r| == 4
  {
    PutU16(v / 0x1_0000) + PutU16(v % 0x1_0000)
  }

  function GetU16(s: bytes): u16
    requires |s| >= 2
  {
    var hi: int, lo: int := s[0], s[1];
    hi * 256 + lo
  }

  function GetU32(s: bytes): u32
    requires |s| >= 4
  {
    var hi: int, lo: int := GetU16(s), GetU16(s[2..]);
    hi * 0x1_0000 + lo
  }

  lemma GetPutU16(v: u16, rest: bytes)
    ensures GetU16(PutU16(v) + rest) == v
  {
  }

  lemma PutGetU16(s: bytes)
    requires |s| >= 2
    ensures PutU16(GetU16(s)) == s[..2]
  {
  }

  lemma GetPutU32(v: u32, rest: bytes)
    ensures GetU32(PutU32(v) + rest) == v
  {
    var hi, lo := v / 0x1_0000, v % 0x1_0000;
    assert PutU32(v) + rest == PutU16(hi) + (PutU16(lo) + rest);
    GetPutU16(hi, PutU16(lo) + rest);
    assert (PutU16(hi) + (PutU16(lo) + rest))[2..] == PutU16(lo) + rest;
    GetPutU16(lo, rest);
  }

  lemma PutGetU32(s: bytes)
    requires |s| >= 4
    ensures PutU32(GetU32(s)) == s[..4]
  {
    PutGetU16(s);
    PutGetU16(s[2..]);
    hide GetU16, PutU16;
    var hi: int, lo: int := GetU16(s), GetU16(s[2..]);
    assert (hi * 0x1_0000 + lo) / 0x1_0000 == hi && (hi * 0x1_0000 + lo) % 0x1_0000 == lo;
    assert s[..4] == s[..2] + s[2..][..2];
  }

  // ------------------------------------------------------------------
  // Frames: u32be length, then the body
  // ------------------------------------------------------------------

  datatype Parsed =
    | NeedMore
    | BadFrame
    | Framed(body: bytes, consumed: nat)

  function Parse(data: bytes, maxBody: nat): (r: Parsed)
    ensures r.Framed? ==> r.consumed == 4 + |r.body| <= |data| && 0 < |r.body| <= maxBody
  {
    if |data| < 4 then NeedMore
    else
      var n := GetU32(data);
      if n == 0 || n > maxBody then BadFrame
      else if |data| < 4 + n then NeedMore
      else Framed(data[4..4 + n], 4 + n)
  }

  function Frame(body: bytes): bytes
    requires |body| < U32
  {
    PutU32(|body|) + body
  }

  /** Bodies a peer may frame under a limit. */
  predicate LegalBody(body: bytes, maxBody: nat) {
    0 < |body| <= maxBody < U32
  }

  predicate LegalBodies(bodies: seq<bytes>, maxBody: nat) {
    forall i :: 0 <= i < |bodies| ==> LegalBody(bodies[i], maxBody)
  }

  function Frames(bodies: seq<bytes>): bytes
    requires forall i :: 0 <= i < |bodies| ==> |bodies[i]| < U32
  {
    if bodies == [] then [] else Frame(bodies[0]) + Frames(bodies[1..])
  }

  /** A whole frame parses to its body, whatever follows it. */
  lemma ParseFrame(body: bytes, rest: bytes, maxBody: nat)
    requires LegalBody(body, maxBody)
    ensures Parse(Frame(body) + rest, maxBody) == Framed(body, 4 + |body|)
    ensures (Frame(body) + rest)[4 + |body|..] == rest
  {
    assert Frame(body) + rest == PutU32(|body|) + (body + rest);
    GetPutU32(|body|, body + rest);
  }

  /** What parses is a whole frame followed by the rest. */
  lemma ParsedIsFrame(data: bytes, maxBody: nat)
    requires maxBody < U32 && Parse(data, maxBody).Framed?
    ensures var r := Parse(data, maxBody); LegalBody(r.body, maxBody) && data == Frame(r.body) + data[r.consumed..]
  {
    PutGetU32(data);
  }

  /** A verdict once reached does not depend on what follows. */
  lemma ParseMore(data: bytes, more: bytes, maxBody: nat)
    requires !Parse(data, maxBody).NeedMore?
    ensures Parse(data + more, maxBody) == Parse(data, maxBody)
  {
    assert (data + more)[..4] == data[..4];
    var r := Parse(data, maxBody);
    if r.Framed? {
      assert (data + more)[4..r.consumed] == data[4..r.consumed];
    }
  }

  /** Everything a buffer holds: the whole frames in order, and what is left. */
  function Split(data: bytes, maxBody: nat): (r: (seq<bytes>, bytes))
    decreases |data|
  {
    match Parse(data, maxBody)
    case Framed(body, consumed) =>
      var (bodies, rest) := Split(data[consumed..], maxBody);
      ([body] + bodies, rest)
    case _ => ([], data)
  }

  /** A proper prefix of a frame is never a frame and never bad. */
  lemma ParseProperPrefix(body: bytes, k: nat, maxBody: nat)
    requires LegalBody(body, maxBody) && k < 4 + |body|
    ensures Parse(Frame(body)[..k], maxBody) == NeedMore
  {
    if k >= 4 {
      assert Frame(body)[..k] == PutU32(|body|) + body[..k - 4];
      GetPutU32(|body|, body[..k - 4]);
    }
  }

  /** The frames of any list, parsed back, are that list with nothing left. */
  lemma {:induction false} SplitFrames(bodies: seq<bytes>, maxBody: nat)
    requires LegalBodies(bodies, maxBody)
    ensures Split(Frames(bodies), maxBody) == (bodies, [])
  {
    if bodies != [] {
      ParseFrame(bodies[0], Frames(bodies[1..]), maxBody);
      SplitFrames(bodies[1..], maxBody);
      assert bodies == [bodies[0]] + bodies[1..];
    }
  }

  /** Any byte prefix of the frames of a list parses to a prefix of the list. */
  lemma {:induction false} SplitPrefix(bodies: seq<bytes>, k: nat, maxBody: nat)
    requires LegalBodies(bodies, maxBody) && k <= |Frames(bodies)|
    ensures Split(Frames(bodies)[..k], maxBody).0 <= bodies
    decreases |bodies|
  {
    if bodies != [] {
      var f, rest := Frame(bodies[0]), Frames(bodies[1..]);
      if k < |f| {
        assert (f + rest)[..k] == f[..k];
        ParseProperPrefix(bodies[0], k, maxBody);
      } else {
        assert (f + rest)[..k] == f + rest[..k - |f|];
        ParseFrame(bodies[0], rest[..k - |f|], maxBody);
        SplitPrefix(bodies[1..], k - |f|, maxBody);
      }
    }
  }

  // ------------------------------------------------------------------
  // HELLO body
  // ------------------------------------------------------------------

  const MAGIC: u16 := 0x5343
  const PROTO_VERSION: u16 := 1
  const SUITE_V1: u16 := 1
  const HELLO_BODY_LEN: nat := 140

  datatype HelloBody = HelloBody(proto: u16, suite: u16, role: u16, flags: u32, ephPk: bytes, idPk: bytes, idSig: bytes)

  predicate LegalHello(h: HelloBody) {
    && h.proto == PROTO_VERSION && h.suite == SUITE_V1 && h.role <= 1
    && |h.ephPk| == 32 && |h.idPk| == 32 && |h.idSig| == 64
  }

  function EncodeHello(h: HelloBody): bytes {
    PutU16(MAGIC) + PutU16(h.proto) + PutU16(h.suite) + PutU16(h.role) + PutU32(h.flags) + h.ephPk + h.idPk + h.idSig
  }

  function DecodeHello(s: bytes): Option<HelloBody> {
    if |s| != HELLO_BODY_LEN || GetU16(s) != MAGIC then None
    else
      var h := HelloBody(GetU16(s[2..]), GetU16(s[4..]), GetU16(s[6..]), GetU32(s[8..]), s[12..44], s[44..76], s[76..140]);
      if h.proto != PROTO_VERSION || h.suite != SUITE_V1 then None
      else if h.role > 1 then None
      else Some(h)
  }

  lemma DecodeEncodeHello(h: HelloBody)
    requires LegalHello(h)
    ensures DecodeHello(EncodeHello(h)) == Some(h)
  {
    var s := EncodeHello(h);
    assert s[2..] == PutU16(h.proto) + s[4..];
    assert s[4..] == PutU16(h.suite) + s[6..];
    assert s[6..] == PutU16(h.role) + s[8..];
    assert s[8..] == PutU32(h.flags) + s[12..];
    GetPutU32(h.flags, s[12..]);
    assert s[12..44] == h.ephPk && s[44..76] == h.idPk && s[76..140] == h.idSig;
  }

  lemma EncodeDecodeHello(s: bytes)
    requires DecodeHello(s).Some?
    ensures LegalHello(DecodeHello(s).value) && EncodeHello(DecodeHello(s).value) == s
  {
    PutGetU16(s);
    PutGetU16(s[2..]);
    PutGetU16(s[4..]);
    PutGetU16(s[6..]);
    PutGetU32(s[8..]);
    assert s == s[..2] + s[2..4] + s[4..6] + s[6..8] + s[8..12] + s[12..44] + s[44..76] + s[76..140];
  }
}
