/**
 * The encoding of every PDU and its inverse.  Encoding followed by decoding
 * is the identity on legal PDUs; decoding followed by encoding is the
 * identity on every byte string the decoder accepts.
 */
module WirePdu {
  import opened Base
  import opened Mux
  import opened Wire

  const T_OPEN: byte := 1
  const T_CONFIRM: byte := 2
  const T_OPEN_FAIL: byte := 3
  const T_WINDOW: byte := 4
  const T_DATA: byte := 5
  const T_EOF: byte := 6
  const T_CLOSE: byte := 7
  const T_PING: byte := 8
  const T_PONG: byte := 9
  const T_DISCONNECT: byte := 10
  const T_AUTH_DEVICE: byte := 20
  const T_AUTH_OK: byte := 21
  const T_AUTH_FAIL: byte := 22

  /** The bounds the encoders enforce and the decoders check. */
  predicate Legal(p: Pdu) {
    match p
    case Open(_, _, _, name) => |name| <= CHANNEL_NAME_MAX
    case OpenFail(_, _, msg) => |msg| <= 255
    case Data(_, data) => |data| <= U32 - 10
    case Disconnect(_, msg) => |msg| <= 255
    case AuthDevice(pk, sig, user, device) =>
      |pk| == 32 && |sig| == 64 && |user| <= USER_MAX && |device| <= DEVICE_ID_MAX
    case AuthOk(claims) => |claims| <= CLAIMS_MAX
    case AuthFail(_, note) => |note| <= 255
    case _ => true
  }

  function Encode(p: Pdu): (r: bytes)
    requires Legal(p)
    ensures |r| == PduLen(p)
  {
    match p
    case Open(s, w, m, name) => [T_OPEN] + PutU32(s) + PutU32(w) + PutU32(m) + [|name|] + name
    case Confirm(s, r, w, m) => [T_CONFIRM] + PutU32(s) + PutU32(r) + PutU32(w) + PutU32(m)
    case OpenFail(r, c, msg) => [T_OPEN_FAIL] + PutU32(r) + PutU32(c) + [|msg|] + msg
    case Window(r, a) => [T_WINDOW] + PutU32(r) + PutU32(a)
    case Data(r, data) => [T_DATA] + PutU32(r) + PutU32(|data|) + data
    case Eof(r) => [T_EOF] + PutU32(r)
    case Close(r) => [T_CLOSE] + PutU32(r)
    case Ping(x) => [T_PING] + PutU32(x)
    case Pong(x) => [T_PONG] + PutU32(x)
    case Disconnect(c, msg) => [T_DISCONNECT] + PutU32(c) + [|msg|] + msg
    case AuthDevice(pk, sig, user, device) => [T_AUTH_DEVICE] + pk + sig + [|user|] + user + [|device|] + device
    case AuthOk(claims) => [T_AUTH_OK] + PutU16(|claims|) + claims
    case AuthFail(c, note) => [T_AUTH_FAIL, c, |note|] + note
  }

  function DecodeOpen(s: bytes): Option<Pdu>
    requires s != [] && s[0] == T_OPEN
  {
    if |s| < 14 then None
    else if s[13] as int > CHANNEL_NAME_MAX || |s| != 14 + s[13] as int then None
    else Some(Open(GetU32(s[1..]), GetU32(s[5..]), GetU32(s[9..]), s[14..]))
  }

  function DecodeAuthDevice(s: bytes): Option<Pdu>
    requires s != [] && s[0] == T_AUTH_DEVICE
  {
    if |s| < 1 + 32 + 64 + 1 + 1 then None
    else
      var ulen: nat := s[97];
      if ulen > USER_MAX || 98 + ulen + 1 > |s| then None
      else
        var dlen: nat := s[98 + ulen];
        if dlen > DEVICE_ID_MAX || 99 + ulen + dlen != |s| then None
        else Some(AuthDevice(s[1..33], s[33..97], s[98..98 + ulen], s[99 + ulen..]))
  }

  /** The decoder the type byte selects, or None for an unknown type. */
  function Decode(s: bytes): Option<Pdu> {
    if s == [] then None
    else if s[0] == T_OPEN then DecodeOpen(s)
    else if s[0] == T_CONFIRM then
      if |s| != 17 then None else Some(Confirm(GetU32(s[1..]), GetU32(s[5..]), GetU32(s[9..]), GetU32(s[13..])))
    else if s[0] == T_OPEN_FAIL then
      if |s| < 10 || |s| != 10 + s[9] as int then None else Some(OpenFail(GetU32(s[1..]), GetU32(s[5..]), s[10..]))
    else if s[0] == T_WINDOW then
      if |s| != 9 then None else Some(Window(GetU32(s[1..]), GetU32(s[5..])))
    else if s[0] == T_DATA then
      if |s| < 9 || |s| != 9 + GetU32(s[5..]) then None else Some(Data(GetU32(s[1..]), s[9..]))
    else if s[0] == T_EOF then
      if |s| != 5 then None else Some(Eof(GetU32(s[1..])))
    else if s[0] == T_CLOSE then
      if |s| != 5 then None else Some(Close(GetU32(s[1..])))
    else if s[0] == T_PING then
      if |s| != 5 then None else Some(Ping(GetU32(s[1..])))
    else if s[0] == T_PONG then
      if |s| != 5 then None else Some(Pong(GetU32(s[1..])))
    else if s[0] == T_DISCONNECT then
      if |s| < 6 || |s| != 6 + s[5] as int then None else Some(Disconnect(GetU32(s[1..]), s[6..]))
    else if s[0] == T_AUTH_DEVICE then DecodeAuthDevice(s)
    else if s[0] == T_AUTH_OK then
      if |s| < 3 || GetU16(s[1..]) > CLAIMS_MAX || |s| != 3 + GetU16(s[1..]) then None else Some(AuthOk(s[3..]))
    else if s[0] == T_AUTH_FAIL then
      if |s| < 3 || |s| != 3 + s[2] as int then None else Some(AuthFail(s[1], s[3..]))
    else None
  }

  /** The type byte decides the kind of PDU. */
  lemma PongByType(s: bytes)
    requires Decode(s).Some?
    ensures Decode(s).value.Pong? <==> s[0] == T_PONG
  {
  }

  /** Reading back a type byte and one word. */
  lemma OneWord(t: byte, a: u32, rest: bytes)
    ensures var s := [t] + PutU32(a) + rest;
      |s| == 5 + |rest| && s[0] == t && GetU32(s[1..]) == a && s[5..] == rest
  {
    var s := [t] + PutU32(a) + rest;
    assert s[1..] == PutU32(a) + rest;
    GetPutU32(a, rest);
  }

  /** Reading back a type byte and two words. */
  lemma TwoWords(t: byte, a: u32, b: u32, rest: bytes)
    ensures var s := [t] + PutU32(a) + PutU32(b) + rest;
      |s| == 9 + |rest| && s[0] == t && GetU32(s[1..]) == a && GetU32(s[5..]) == b && s[9..] == rest
  {
    hide PutU32, GetU32;
    var s := [t] + PutU32(a) + PutU32(b) + rest;
    OneWord(t, a, PutU32(b) + rest);
    assert s == [t] + PutU32(a) + (PutU32(b) + rest);
    assert s[5..] == PutU32(b) + rest;
    GetPutU32(b, rest);
    assert s[9..] == s[5..][4..];
  }

  lemma DecodeEncodeOpen(p: Pdu)
    requires Legal(p) && p.Open?
    ensures Decode(Encode(p)) == Some(p)
  {
    hide PutU32, GetU32;
    var s, m, n := Encode(p), PutU32(p.maxPacket), [|p.name| as byte] + p.name;
    TwoWords(T_OPEN, p.sender, p.initWindow, m + n);
    assert s == [T_OPEN] + PutU32(p.sender) + PutU32(p.initWindow) + (m + n);
    GetPutU32(p.maxPacket, n);
    assert s[13] == |p.name| && s[14..] == p.name;
    assert Decode(s) == DecodeOpen(s);
  }

  lemma DecodeEncodeConfirm(p: Pdu)
    requires p.Confirm?
    ensures Decode(Encode(p)) == Some(p)
  {
    hide PutU32, GetU32;
    var s, w, m := Encode(p), PutU32(p.initWindow), PutU32(p.maxPacket);
    TwoWords(T_CONFIRM, p.sender, p.recipient, w + m);
    assert s == [T_CONFIRM] + PutU32(p.sender) + PutU32(p.recipient) + (w + m);
    GetPutU32(p.initWindow, m);
    assert s[13..] == m + [];
    GetPutU32(p.maxPacket, []);
  }

  /** The PDUs that are a type byte and one word, or that and a message. */
  lemma DecodeEncodeOne(p: Pdu)
    requires Legal(p) && (p.Eof? || p.Close? || p.Ping? || p.Pong? || p.Disconnect?)
    ensures Decode(Encode(p)) == Some(p)
  {
    hide PutU32, GetU32;
    var s := Encode(p);
    match p {
      case Eof(r) => OneWord(T_EOF, r, []); assert s == [T_EOF] + PutU32(r) + [];
      case Close(r) => OneWord(T_CLOSE, r, []); assert s == [T_CLOSE] + PutU32(r) + [];
      case Ping(x) => OneWord(T_PING, x, []); assert s == [T_PING] + PutU32(x) + [];
      case Pong(x) => OneWord(T_PONG, x, []); assert s == [T_PONG] + PutU32(x) + [];
      case Disconnect(c, msg) =>
        OneWord(T_DISCONNECT, c, [|msg|] + msg);
        assert s == [T_DISCONNECT] + PutU32(c) + ([|msg|] + msg);
    }
  }

  lemma DecodeEncodeTwo(p: Pdu)
    requires Legal(p) && (p.OpenFail? || p.Window? || p.Data?)
    ensures Decode(Encode(p)) == Some(p)
  {
    hide PutU32, GetU32;
    var s := Encode(p);
    match p {
      case OpenFail(r, c, msg) =>
        TwoWords(T_OPEN_FAIL, r, c, [|msg|] + msg);
        assert s == [T_OPEN_FAIL] + PutU32(r) + PutU32(c) + ([|msg|] + msg);
      case Window(r, a) =>
        TwoWords(T_WINDOW, r, a, []);
        assert s == [T_WINDOW] + PutU32(r) + PutU32(a) + [];
      case Data(r, data) => TwoWords(T_DATA, r, |data|, data);
    }
  }

  lemma DecodeEncodeAuth(p: Pdu)
    requires Legal(p) && (p.AuthOk? || p.AuthFail?)
    ensures Decode(Encode(p)) == Some(p)
  {
    hide PutU16, GetU16;
    if p.AuthOk? {
      assert Encode(p)[1..] == PutU16(|p.claims|) + p.claims;
      GetPutU16(|p.claims|, p.claims);
    }
  }

  lemma DecodeEncode(p: Pdu)
    requires Legal(p)
    ensures Decode(Encode(p)) == Some(p)
  {
    hide Decode, Encode;
    match p {
      case Open(_, _, _, _) => DecodeEncodeOpen(p);
      case Confirm(_, _, _, _) => DecodeEncodeConfirm(p);
      case AuthDevice(_, _, _, _) => DecodeEncodeDevice(p);
      case AuthOk(_) => DecodeEncodeAuth(p);
      case AuthFail(_, _) => DecodeEncodeAuth(p);
      case OpenFail(_, _, _) => DecodeEncodeTwo(p);
      case Window(_, _) => DecodeEncodeTwo(p);
      case Data(_, _) => DecodeEncodeTwo(p);
      case _ => DecodeEncodeOne(p);
    }
  }

  lemma DecodeEncodeDevice(p: Pdu)
    requires Legal(p) && p.AuthDevice?
    ensures Decode(Encode(p)) == Some(p)
  {
    var s := Encode(p);
    assert s[97] == |p.user| && s[98 + |p.user|] == |p.device|;
    assert s[1..33] == p.pk && s[33..97] == p.sig;
    assert s[98..98 + |p.user|] == p.user && s[99 + |p.user|..] == p.device;
    assert Decode(s) == DecodeAuthDevice(s);
  }

  lemma EncodeDecodeDevice(s: bytes)
    requires s != [] && s[0] == T_AUTH_DEVICE && DecodeAuthDevice(s).Some?
    ensures var p := DecodeAuthDevice(s).value; Legal(p) && Encode(p) == s
  {
    var p := DecodeAuthDevice(s).value;
    assert s == [T_AUTH_DEVICE] + p.pk + p.sig + [|p.user|] + p.user + [|p.device|] + p.device;
  }

  /**
   * What a decoder accepts is what an encoder writes, except that a DATA of
   * 2^32 bytes or more is accepted and no encoder writes it.
   */
  lemma EncodeDecode(s: bytes)
    requires Decode(s).Some?
    ensures var p := Decode(s).value; (Legal(p) <==> |s| < U32) && (Legal(p) ==> Encode(p) == s)
  {
    if |s| >= U32 { OnlyDataIsLong(s); } else { EncodeDecodeLegal(s); }
  }

  lemma OnlyDataIsLong(s: bytes)
    requires Decode(s).Some? && |s| >= U32
    ensures !Legal(Decode(s).value)
  {
    hide GetU32, GetU16;
  }

  lemma EncodeDecodeLegal(s: bytes)
    requires Decode(s).Some? && |s| < U32
    ensures Legal(Decode(s).value) && Encode(Decode(s).value) == s
  {
    if |s| >= 5 { PutGetU32(s[1..]); assert s[1..][..4] == s[1..5]; }
    if |s| >= 9 { PutGetU32(s[5..]); assert s[5..][..4] == s[5..9]; }
    if |s| >= 13 { PutGetU32(s[9..]); assert s[9..][..4] == s[9..13]; }
    if |s| >= 17 { PutGetU32(s[13..]); assert s[13..][..4] == s[13..17]; }
    if |s| >= 3 { PutGetU16(s[1..]); assert s[1..][..2] == s[1..3]; }
    EncodeDecodeParts(s);
  }

  lemma EncodeDecodeParts(s: bytes)
    requires Decode(s).Some? && |s| < U32
    requires |s| >= 5 ==> PutU32(GetU32(s[1..])) == s[1..5]
    requires |s| >= 9 ==> PutU32(GetU32(s[5..])) == s[5..9]
    requires |s| >= 13 ==> PutU32(GetU32(s[9..])) == s[9..13]
    requires |s| >= 17 ==> PutU32(GetU32(s[13..])) == s[13..17]
    requires |s| >= 3 ==> PutU16(GetU16(s[1..])) == s[1..3]
    ensures Legal(Decode(s).value) && Encode(Decode(s).value) == s
  {
    hide PutU32, PutU16, GetU32, GetU16;
    var p := Decode(s).value;
    if s[0] == T_AUTH_DEVICE { EncodeDecodeDevice(s); }
    else if s[0] == T_OPEN { assert s == [T_OPEN] + s[1..5] + s[5..9] + s[9..13] + [|p.name|] + p.name; }
    else if s[0] == T_CONFIRM { assert s == [T_CONFIRM] + s[1..5] + s[5..9] + s[9..13] + s[13..17]; }
    else { EncodeDecodeRest(s); }
  }

  lemma EncodeDecodeRest(s: bytes)
    requires Decode(s).Some? && |s| < U32 && s[0] != T_AUTH_DEVICE && s[0] != T_OPEN && s[0] != T_CONFIRM
    requires |s| >= 5 ==> PutU32(GetU32(s[1..])) == s[1..5]
    requires |s| >= 9 ==> PutU32(GetU32(s[5..])) == s[5..9]
    requires |s| >= 3 ==> PutU16(GetU16(s[1..])) == s[1..3]
    ensures Legal(Decode(s).value) && Encode(Decode(s).value) == s
  {
    hide PutU32, PutU16, GetU32, GetU16;
    match Decode(s).value {
      case OpenFail(_, _, msg) => assert s == [T_OPEN_FAIL] + s[1..5] + s[5..9] + [|msg|] + msg;
      case Window(_, _) => assert s == [T_WINDOW] + s[1..5] + s[5..9];
      case Data(_, data) => assert s == [T_DATA] + s[1..5] + s[5..9] + data;
      case Eof(_) => assert s == [T_EOF] + s[1..5];
      case Close(_) => assert s == [T_CLOSE] + s[1..5];
      case Ping(_) => assert s == [T_PING] + s[1..5];
      case Pong(_) => assert s == [T_PONG] + s[1..5];
      case Disconnect(_, msg) => assert s == [T_DISCONNECT] + s[1..5] + [|msg|] + msg;
      case AuthOk(claims) => assert s == [T_AUTH_OK] + s[1..3] + claims;
      case AuthFail(c, note) => assert s == [T_AUTH_FAIL, c, |note|] + note;
    }
  }

  /** Distinct legal PDUs never share an encoding. */
  lemma EncodeInjective(p: Pdu, q: Pdu)
    requires Legal(p) && Legal(q) && Encode(p) == Encode(q)
    ensures p == q
  {
    DecodeEncode(p);
    DecodeEncode(q);
  }
}
