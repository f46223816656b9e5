/**
 * The decoders and the frame parser of src/sodchan_wire.c, filling
 * out-parameters.  A decoder accepts exactly what `WirePdu.Decode` accepts
 * under its own type byte.
 */
module Decoder {
  import opened Base
  import opened Mux
  import opened Wire
  import opened WirePdu

  /** This is a PDU of the type, and the decoder of the type accepts it. */
  predicate Accepts(pdu: bytes, t: byte) {
    pdu != [] && pdu[0] == t && Decode(pdu).Some?
  }

  method Open(pdu: bytes) returns (rc: Rc, sender: u32, initWindow: u32, maxPacket: u32, name: bytes)
    ensures rc == if Accepts(pdu, T_OPEN) then Ok else ErrProtocol
    ensures rc == Ok ==> Decode(pdu) == Some(Pdu.Open(sender, initWindow, maxPacket, name))
  {
    rc, sender, initWindow, maxPacket, name := ErrProtocol, 0, 0, 0, [];
    if |pdu| < 14 || pdu[0] != T_OPEN {
      return;
    }
    sender, initWindow, maxPacket := GetU32(pdu[1..]), GetU32(pdu[5..]), GetU32(pdu[9..]);
    var nlen: nat := pdu[13];
    if nlen > CHANNEL_NAME_MAX || |pdu| != 14 + nlen {
      return;
    }
    name, rc := pdu[14..14 + nlen], Ok;
    assert name == pdu[14..];
  }

  method Confirm(pdu: bytes) returns (rc: Rc, sender: u32, recipient: u32, initWindow: u32, maxPacket: u32)
    ensures rc == if Accepts(pdu, T_CONFIRM) then Ok else ErrProtocol
    ensures rc == Ok ==> Decode(pdu) == Some(Pdu.Confirm(sender, recipient, initWindow, maxPacket))
  {
    rc, sender, recipient, initWindow, maxPacket := ErrProtocol, 0, 0, 0, 0;
    if |pdu| != 17 || pdu[0] != T_CONFIRM {
      return;
    }
    sender, recipient := GetU32(pdu[1..]), GetU32(pdu[5..]);
    initWindow, maxPacket := GetU32(pdu[9..]), GetU32(pdu[13..]);
    rc := Ok;
  }

  method OpenFail(pdu: bytes) returns (rc: Rc, recipient: u32, reason: u32, msg: bytes)
    ensures rc == if Accepts(pdu, T_OPEN_FAIL) then Ok else ErrProtocol
    ensures rc == Ok ==> Decode(pdu) == Some(Pdu.OpenFail(recipient, reason, msg))
  {
    rc, recipient, reason, msg := ErrProtocol, 0, 0, [];
    if |pdu| < 10 || pdu[0] != T_OPEN_FAIL {
      return;
    }
    recipient, reason := GetU32(pdu[1..]), GetU32(pdu[5..]);
    var mlen: nat := pdu[9];
    if |pdu| != 10 + mlen {
      return;
    }
    msg, rc := pdu[10..10 + mlen], Ok;
    assert msg == pdu[10..];
  }

  method Data(pdu: bytes) returns (rc: Rc, recipient: u32, data: bytes)
    ensures rc == if Accepts(pdu, T_DATA) then Ok else ErrProtocol
    ensures rc == Ok ==> Decode(pdu) == Some(Pdu.Data(recipient, data))
  {
    rc, recipient, data := ErrProtocol, 0, [];
    if |pdu| < 9 || pdu[0] != T_DATA {
      return;
    }
    recipient := GetU32(pdu[1..]);
    var dlen: int := GetU32(pdu[5..]);
    if |pdu| != 9 + dlen {
      return;
    }
    data, rc := pdu[9..9 + dlen], Ok;
    assert data == pdu[9..];
  }

  method Window(pdu: bytes) returns (rc: Rc, recipient: u32, add: u32)
    ensures rc == if Accepts(pdu, T_WINDOW) then Ok else ErrProtocol
    ensures rc == Ok ==> Decode(pdu) == Some(Pdu.Window(recipient, add))
  {
    rc, recipient, add := ErrProtocol, 0, 0;
    if |pdu| != 9 || pdu[0] != T_WINDOW {
      return;
    }
    recipient, add := GetU32(pdu[1..]), GetU32(pdu[5..]);
    rc := Ok;
  }

  /** EOF, CLOSE, PING and PONG: a type byte and one word. */
  method Short(pdu: bytes, t: byte) returns (rc: Rc, word: u32)
    requires t == T_EOF || t == T_CLOSE || t == T_PING || t == T_PONG
    ensures rc == if Accepts(pdu, t) then Ok else ErrProtocol
    ensures rc == Ok ==> Decode(pdu) == Some(
      if t == T_EOF then Eof(word) else if t == T_CLOSE then Close(word) else if t == T_PING then Ping(word) else Pong(word))
  {
    rc, word := ErrProtocol, 0;
    if |pdu| != 5 || pdu[0] != t {
      return;
    }
    word, rc := GetU32(pdu[1..]), Ok;
  }

  method Disconnect(pdu: bytes) returns (rc: Rc, reason: u32, msg: bytes)
    ensures rc == if Accepts(pdu, T_DISCONNECT) then Ok else ErrProtocol
    ensures rc == Ok ==> Decode(pdu) == Some(Pdu.Disconnect(reason, msg))
  {
    rc, reason, msg := ErrProtocol, 0, [];
    if |pdu| < 6 || pdu[0] != T_DISCONNECT {
      return;
    }
    reason := GetU32(pdu[1..]);
    var mlen: nat := pdu[5];
    if |pdu| != 6 + mlen {
      return;
    }
    msg, rc := pdu[6..6 + mlen], Ok;
    assert msg == pdu[6..];
  }

  /** sodchan_wire_auth_device_decode, at a moving offset; no trailing bytes. */
  method AuthDevice(pdu: bytes) returns (rc: Rc, pk: bytes, sig: bytes, user: bytes, device: bytes)
    ensures rc == if Accepts(pdu, T_AUTH_DEVICE) then Ok else ErrProtocol
    ensures rc == Ok ==> Decode(pdu) == Some(Pdu.AuthDevice(pk, sig, user, device))
  {
    rc, pk, sig, user, device := ErrProtocol, [], [], [], [];
    if |pdu| < 1 + 32 + 64 + 1 + 1 {
      return;
    }
    var off := 0;
    if pdu[off] != T_AUTH_DEVICE {
      return;
    }
    off := off + 1;
    pk, off := pdu[off..off + 32], off + 32;
    sig, off := pdu[off..off + 64], off + 64;
    var ulen: nat := pdu[off];
    off := off + 1;
    if ulen > USER_MAX || off + ulen + 1 > |pdu| {
      return;
    }
    user, off := pdu[off..off + ulen], off + ulen;
    var dlen: nat := pdu[off];
    off := off + 1;
    if dlen > DEVICE_ID_MAX || off + dlen > |pdu| {
      return;
    }
    if off + dlen != |pdu| {
      return;
    }
    device, rc := pdu[off..off + dlen], Ok;
    assert device == pdu[off..];
    assert Decode(pdu) == DecodeAuthDevice(pdu);
  }

  method AuthOk(pdu: bytes) returns (rc: Rc, claims: bytes)
    ensures rc == if Accepts(pdu, T_AUTH_OK) then Ok else ErrProtocol
    ensures rc == Ok ==> Decode(pdu) == Some(Pdu.AuthOk(claims))
  {
    rc, claims := ErrProtocol, [];
    if |pdu| < 3 || pdu[0] != T_AUTH_OK {
      return;
    }
    var len := GetU16(pdu[1..]);
    if len > CLAIMS_MAX || |pdu| != 3 + len {
      return;
    }
    claims, rc := pdu[3..], Ok;
  }

  method AuthFail(pdu: bytes) returns (rc: Rc, cause: byte, note: bytes)
    ensures rc == if Accepts(pdu, T_AUTH_FAIL) then Ok else ErrProtocol
    ensures rc == Ok ==> Decode(pdu) == Some(Pdu.AuthFail(cause, note))
  {
    rc, cause, note := ErrProtocol, 0, [];
    if |pdu| < 3 || pdu[0] != T_AUTH_FAIL {
      return;
    }
    var len: nat := pdu[2];
    cause := pdu[1];
    if |pdu| != 3 + len {
      return;
    }
    note, rc := pdu[3..], Ok;
  }

  method Hello(body: bytes) returns (rc: Rc, h: HelloBody)
    ensures rc == if DecodeHello(body).Some? then Ok else ErrProtocol
    ensures rc == Ok ==> DecodeHello(body) == Some(h)
  {
    rc, h := ErrProtocol, HelloBody(0, 0, 0, 0, [], [], []);
    if |body| != HELLO_BODY_LEN {
      return;
    }
    var magic := GetU16(body);
    if magic != MAGIC {
      return;
    }
    h := h.(proto := GetU16(body[2..]), suite := GetU16(body[4..]), role := GetU16(body[6..]), flags := GetU32(body[8..]));
    h := h.(ephPk := body[12..44], idPk := body[44..76], idSig := body[76..140]);
    if h.proto != PROTO_VERSION || h.suite != SUITE_V1 {
      return;
    }
    if h.role != 0 && h.role != 1 {
      return;
    }
    rc := Ok;
  }

  /** sodchan_wire_frame_parse_max over the front of a buffer: ErrFull means wait for more. */
  method FrameOf(data: array<byte>, len: nat, maxBody: nat) returns (rc: Rc, consumed: nat, bodyLen: nat)
    requires len <= data.Length
    ensures match Parse(data[..len], maxBody)
      case NeedMore => rc == ErrFull
      case BadFrame => rc == ErrProtocol
      case Framed(body, total) =>
        rc == Ok && consumed == total <= len && bodyLen == |body| && consumed == 4 + bodyLen && body == data[4..4 + bodyLen]
  {
    rc, consumed, bodyLen := ErrFull, 0, 0;
    if len < 4 {
      return;
    }
    var n := GetU32([data[0], data[1], data[2], data[3]]);
    assert data[..len][..4] == [data[0], data[1], data[2], data[3]];
    assert GetU32(data[..len]) == n;
    hide GetU32;
    if n == 0 || n > maxBody {
      rc := ErrProtocol;
      return;
    }
    if len < 4 + n {
      return;
    }
    assert data[..len][4..4 + n] == data[4..4 + n];
    rc, consumed, bodyLen := Ok, 4 + n, n;
  }
}
