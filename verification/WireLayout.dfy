/**
 * Where each field stands: the layouts of src/sodchan_wire.c read back at
 * their offsets, big-endian, whichever function wrote them.
 */
module WireLayout {
  import opened Base
  import opened Mux
  import opened Wire
  import opened WirePdu
  import opened Transcript

  /** The word at offset i is v. */
  predicate Word(s: bytes, i: nat, v: u32) {
    i + 4 <= |s| && GetU32(s[i..]) == v
  }

  predicate Half(s: bytes, i: nat, v: u16) {
    i + 2 <= |s| && GetU16(s[i..]) == v
  }

  /** The bytes at offset i are x. */
  predicate Bytes(s: bytes, i: nat, x: bytes) {
    i + |x| <= |s| && s[i..i + |x|] == x
  }

  lemma WordAt(s: bytes, i: nat, v: u32)
    requires Bytes(s, i, PutU32(v))
    ensures Word(s, i, v)
  {
    GetPutU32(v, s[i + 4..]);
    assert s[i..] == PutU32(v) + s[i + 4..];
  }

  lemma HalfAt(s: bytes, i: nat, v: u16)
    requires Bytes(s, i, PutU16(v))
    ensures Half(s, i, v)
  {
    GetPutU16(v, s[i + 2..]);
    assert s[i..] == PutU16(v) + s[i + 2..];
  }

  /** Big-endian: the first byte is the highest. */
  lemma BigEndian(s: bytes)
    requires |s| >= 4
    ensures var a: int, b: int, c: int, d: int := s[0], s[1], s[2], s[3];
      GetU32(s) == a * 0x100_0000 + b * 0x1_0000 + c * 0x100 + d && GetU16(s) == a * 0x100 + b
  {
  }

  /** s is p field by field: a type byte, words, and counted byte strings. */
  predicate LaidOut(p: Pdu, s: bytes)
    requires Legal(p) && |s| == PduLen(p)
  {
    match p
    case Open(x, w, m, name) => s[0] == 1 && Word(s, 1, x) && Word(s, 5, w) && Word(s, 9, m) && s[13] == |name| && Bytes(s, 14, name)
    case Confirm(x, r, w, m) => s[0] == 2 && Word(s, 1, x) && Word(s, 5, r) && Word(s, 9, w) && Word(s, 13, m)
    case OpenFail(r, why, msg) => s[0] == 3 && Word(s, 1, r) && Word(s, 5, why) && s[9] == |msg| && Bytes(s, 10, msg)
    case Window(r, add) => s[0] == 4 && Word(s, 1, r) && Word(s, 5, add)
    case Data(r, data) => s[0] == 5 && Word(s, 1, r) && Word(s, 5, |data|) && Bytes(s, 9, data)
    case Eof(r) => s[0] == 6 && Word(s, 1, r)
    case Close(r) => s[0] == 7 && Word(s, 1, r)
    case Ping(x) => s[0] == 8 && Word(s, 1, x)
    case Pong(x) => s[0] == 9 && Word(s, 1, x)
    case Disconnect(why, msg) => s[0] == 10 && Word(s, 1, why) && s[5] == |msg| && Bytes(s, 6, msg)
    case AuthDevice(pk, sig, user, device) =>
      && s[0] == 20 && Bytes(s, 1, pk) && Bytes(s, 33, sig) && s[97] == |user| && Bytes(s, 98, user)
      && s[98 + |user|] == |device| && Bytes(s, 99 + |user|, device)
    case AuthOk(claims) => s[0] == 21 && Half(s, 1, |claims|) && Bytes(s, 3, claims)
    case AuthFail(why, note) => s[0] == 22 && s[1] == why && s[2] == |note| && Bytes(s, 3, note)
  }

  /** Every legal PDU is laid out so. */
  lemma PduLayout(p: Pdu)
    requires Legal(p)
    ensures LaidOut(p, Encode(p))
  {
    hide Encode, LaidOut;
    if p.Open? || p.Confirm? { OpeningLayout(p); }
    else if p.OpenFail? || p.Window? || p.Data? { TwoWordLayout(p); }
    else if p.AuthDevice? || p.AuthOk? || p.AuthFail? { AuthLayout(p); }
    else { OneWordLayout(p); }
  }

  lemma OpeningLayout(p: Pdu)
    requires Legal(p) && (p.Open? || p.Confirm?)
    ensures LaidOut(p, Encode(p))
  {
    var s := Encode(p);
    var second, third := if p.Open? then p.initWindow else p.recipient, if p.Open? then p.maxPacket else p.initWindow;
    hide PutU32, GetU32, Word;
    assert Bytes(s, 1, PutU32(p.sender)) && Bytes(s, 5, PutU32(second)) && Bytes(s, 9, PutU32(third));
    WordAt(s, 1, p.sender);
    WordAt(s, 5, second);
    WordAt(s, 9, third);
    if p.Confirm? { assert Bytes(s, 13, PutU32(p.maxPacket)); WordAt(s, 13, p.maxPacket); } else { assert Bytes(s, 14, p.name); }
  }

  lemma TwoWordLayout(p: Pdu)
    requires Legal(p) && (p.OpenFail? || p.Window? || p.Data?)
    ensures LaidOut(p, Encode(p))
  {
    var s := Encode(p);
    var second: u32 := match p case OpenFail(_, why, _) => why case Window(_, add) => add case Data(_, data) => |data|;
    hide PutU32, GetU32, Word;
    assert Bytes(s, 1, PutU32(p.recipient)) && Bytes(s, 5, PutU32(second));
    WordAt(s, 1, p.recipient);
    WordAt(s, 5, second);
    if p.OpenFail? { assert Bytes(s, 10, p.msg); }
    if p.Data? { assert Bytes(s, 9, p.data); }
  }

  lemma OneWordLayout(p: Pdu)
    requires Legal(p) && (p.Eof? || p.Close? || p.Ping? || p.Pong? || p.Disconnect?)
    ensures LaidOut(p, Encode(p))
  {
    var s := Encode(p);
    hide PutU32, GetU32;
    match p {
      case Eof(r) => OneWord(T_EOF, r, []); assert s == [T_EOF] + PutU32(r) + [];
      case Close(r) => OneWord(T_CLOSE, r, []); assert s == [T_CLOSE] + PutU32(r) + [];
      case Ping(x) => OneWord(T_PING, x, []); assert s == [T_PING] + PutU32(x) + [];
      case Pong(x) => OneWord(T_PONG, x, []); assert s == [T_PONG] + PutU32(x) + [];
      case Disconnect(why, msg) =>
        OneWord(T_DISCONNECT, why, [|msg|] + msg);
        assert s == [T_DISCONNECT] + PutU32(why) + ([|msg|] + msg) && s[6..] == msg;
    }
  }

  lemma DeviceLayout(p: Pdu)
    requires Legal(p) && p.AuthDevice?
    ensures LaidOut(p, Encode(p))
  {
    var s := Encode(p);
    assert s[97] == |p.user| && s[98 + |p.user|] == |p.device|;
    assert s[1..33] == p.pk && s[33..97] == p.sig;
    assert s[98..98 + |p.user|] == p.user && s[99 + |p.user|..] == p.device;
  }

  lemma AuthLayout(p: Pdu)
    requires Legal(p) && (p.AuthDevice? || p.AuthOk? || p.AuthFail?)
    ensures LaidOut(p, Encode(p))
  {
    var s := Encode(p);
    hide PutU16, GetU16, Half;
    match p {
      case AuthOk(claims) =>
        assert Bytes(s, 1, PutU16(|claims|)) && s[3..] == claims;
        HalfAt(s, 1, |claims|);
      case AuthDevice(pk, sig, user, device) => DeviceLayout(p);
      case AuthFail(why, note) => assert s[3..] == note;
    }
  }

  /** The HELLO body: magic "SC", version, suite, role, flags, ephemeral, identity, signature. */
  lemma HelloLayout(h: HelloBody)
    requires LegalHello(h)
    ensures var s := EncodeHello(h);
      && |s| == 140 && Half(s, 0, 0x5343) && Half(s, 2, h.proto) && Half(s, 4, h.suite) && Half(s, 6, h.role) && Word(s, 8, h.flags)
      && Bytes(s, 12, h.ephPk) && Bytes(s, 44, h.idPk) && Bytes(s, 76, h.idSig)
  {
    var s := EncodeHello(h);
    hide PutU32, PutU16, GetU32, GetU16, Word, Half;
    assert Bytes(s, 0, PutU16(MAGIC)) && Bytes(s, 2, PutU16(h.proto)) && Bytes(s, 4, PutU16(h.suite)) && Bytes(s, 6, PutU16(h.role));
    assert Bytes(s, 8, PutU32(h.flags)) && Bytes(s, 12, h.ephPk) && Bytes(s, 44, h.idPk) && Bytes(s, 76, h.idSig);
    hide EncodeHello, Bytes;
    HalfAt(s, 0, MAGIC);
    HalfAt(s, 2, h.proto);
    HalfAt(s, 4, h.suite);
    HalfAt(s, 6, h.role);
    WordAt(s, 8, h.flags);
  }

  /** T_hello: its domain, version, suite, the client's ephemeral, the server's, and the server's identity. */
  lemma THelloLayout(proto: u16, suite: u16, clientEph: Key32, serverEph: Key32, serverId: Key32)
    ensures var t := BuildTHello(proto, suite, clientEph, serverEph, serverId);
      && |t| == 123 && Bytes(t, 0, DOM_SERVER_HELLO) && Half(t, 23, proto) && Half(t, 25, suite)
      && Bytes(t, 27, clientEph) && Bytes(t, 59, serverEph) && Bytes(t, 91, serverId)
  {
    var t := BuildTHello(proto, suite, clientEph, serverEph, serverId);
    hide PutU16, GetU16, Half;
    HalfAt(t, 23, proto);
    HalfAt(t, 25, suite);
  }

  /** T_auth: its domain, T_hello, the device key, and both names, counted. */
  lemma TAuthLayout(tHello: bytes, pk: Key32, user: bytes, device: bytes)
    requires |tHello| == 123 && LegalNames(user, device)
    ensures var t := BuildTAuth(tHello, pk, user, device);
      && Bytes(t, 0, DOM_CLIENT_AUTH) && Bytes(t, 22, tHello) && Bytes(t, 145, pk) && |t| == 179 + |user| + |device|
      && t[177] == |user| && Bytes(t, 178, user) && t[178 + |user|] == |device| && Bytes(t, 179 + |user|, device)
  {
  }

  /** A frame: the length of its body in four bytes, and the body. */
  lemma FrameLayout(body: bytes)
    requires |body| < U32
    ensures var s := Frame(body); |s| == 4 + |body| && Word(s, 0, |body|) && Bytes(s, 4, body)
  {
    hide PutU32, GetU32, Word;
    WordAt(Frame(body), 0, |body|);
  }

  /** A C string ends at the first zero byte, or with its buffer. */
  lemma {:induction false} CStringEnds(s: bytes)
    ensures var r := CString(s); r <= s && 0 !in r && (r == s || s[|r|] == 0)
  {
    if s != [] && s[0] != 0 {
      CStringEnds(s[1..]);
      assert s == [s[0]] + s[1..];
    }
  }
}
