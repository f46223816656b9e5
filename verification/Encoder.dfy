/**
 * The encoders of src/sodchan_wire.c: each writes the caller's buffer at a
 * moving offset, or refuses and leaves the buffer alone.
 */
module Encoder {
  import opened Base
  import opened Mux
  import opened Wire
  import opened WirePdu
  import opened Transcript

  /** out[off++] = b */
  method Byte(out: array<byte>, off: nat, b: byte) returns (next: nat)
    requires off < out.Length
    modifies out
    ensures next == off + 1 && out[..next] == old(out[..off]) + [b]
  {
    out[off] := b;
    return off + 1;
  }

  /** sodchan_wire_put_u16, and off += 2 */
  method U16(out: array<byte>, off: nat, v: u16) returns (next: nat)
    requires off + 2 <= out.Length
    modifies out
    ensures next == off + 2 && out[..next] == old(out[..off]) + PutU16(v)
  {
    out[off] := v / 256;
    out[off + 1] := v % 256;
    return off + 2;
  }

  /** sodchan_wire_put_u32, and off += 4 */
  method Word(out: array<byte>, off: nat, v: u32) returns (next: nat)
    requires off + 4 <= out.Length
    modifies out
    ensures next == off + 4 && out[..next] == old(out[..off]) + PutU32(v)
  {
    var hi, lo := v / 0x1_0000, v % 0x1_0000;
    next := U16(out, off, hi);
    next := U16(out, next, lo);
    assert PutU32(v) == PutU16(hi) + PutU16(lo);
  }

  /** memcpy(out + off, s, len), and off += len */
  method Copy(out: array<byte>, off: nat, s: bytes) returns (next: nat)
    requires off + |s| <= out.Length
    modifies out
    ensures next == off + |s| && out[..next] == old(out[..off]) + s
  {
    var i := 0;
    while i < |s|
      invariant i <= |s| && out[..off + i] == old(out[..off]) + s[..i]
    {
      out[off + i] := s[i];
      i := i + 1;
    }
    return off + |s|;
  }

  /** What every encoder promises: the legal PDU in the front of the buffer, or a reason and no change. */
  twostate predicate Encodes(out: array<byte>, rc: Rc, n: nat, p: Pdu)
    reads out
  {
    if !Legal(p) then rc == ErrParam && out[..] == old(out[..])
    else if out.Length < PduLen(p) then rc == ErrFull && out[..] == old(out[..])
    else rc == Ok && n == PduLen(p) <= out.Length && out[..n] == Encode(p)
  }

  method Open(sender: u32, initWindow: u32, maxPacket: u32, name: bytes, out: array<byte>) returns (rc: Rc, n: nat)
    modifies out
    ensures Encodes(out, rc, n, Pdu.Open(sender, initWindow, maxPacket, name))
  {
    if |name| > CHANNEL_NAME_MAX {
      return ErrParam, 0;
    }
    if out.Length < 14 + |name| {
      return ErrFull, 0;
    }
    hide PutU32;
    n := Byte(out, 0, T_OPEN);
    n := Word(out, n, sender);
    n := Word(out, n, initWindow);
    n := Word(out, n, maxPacket);
    n := Byte(out, n, |name|);
    n := Copy(out, n, name);
    return Ok, n;
  }

  method Confirm(sender: u32, recipient: u32, initWindow: u32, maxPacket: u32, out: array<byte>) returns (rc: Rc, n: nat)
    modifies out
    ensures Encodes(out, rc, n, Pdu.Confirm(sender, recipient, initWindow, maxPacket))
  {
    if out.Length < 17 {
      return ErrFull, 0;
    }
    hide PutU32;
    n := Byte(out, 0, T_CONFIRM);
    n := Word(out, n, sender);
    n := Word(out, n, recipient);
    n := Word(out, n, initWindow);
    n := Word(out, n, maxPacket);
    return Ok, n;
  }

  method OpenFail(recipient: u32, reason: u32, msg: bytes, out: array<byte>) returns (rc: Rc, n: nat)
    modifies out
    ensures Encodes(out, rc, n, Pdu.OpenFail(recipient, reason, msg))
  {
    if |msg| > 255 {
      return ErrParam, 0;
    }
    if out.Length < 10 + |msg| {
      return ErrFull, 0;
    }
    hide PutU32;
    n := Byte(out, 0, T_OPEN_FAIL);
    n := Word(out, n, recipient);
    n := Word(out, n, reason);
    n := Byte(out, n, |msg|);
    n := Copy(out, n, msg);
    return Ok, n;
  }

  method Data(recipient: u32, data: bytes, out: array<byte>) returns (rc: Rc, n: nat)
    modifies out
    ensures Encodes(out, rc, n, Pdu.Data(recipient, data))
  {
    if |data| > U32 - 10 {
      return ErrParam, 0;
    }
    if out.Length < 9 + |data| {
      return ErrFull, 0;
    }
    hide PutU32;
    n := Byte(out, 0, T_DATA);
    n := Word(out, n, recipient);
    n := Word(out, n, |data|);
    n := Copy(out, n, data);
    return Ok, n;
  }

  method Window(recipient: u32, add: u32, out: array<byte>) returns (rc: Rc, n: nat)
    modifies out
    ensures Encodes(out, rc, n, Pdu.Window(recipient, add))
  {
    if out.Length < 9 {
      return ErrFull, 0;
    }
    hide PutU32;
    n := Byte(out, 0, T_WINDOW);
    n := Word(out, n, recipient);
    n := Word(out, n, add);
    return Ok, n;
  }

  /** EOF, CLOSE, PING and PONG: a type byte and one word. */
  method Short(p: Pdu, out: array<byte>) returns (rc: Rc, n: nat)
    requires p.Eof? || p.Close? || p.Ping? || p.Pong?
    modifies out
    ensures Encodes(out, rc, n, p)
  {
    if out.Length < 5 {
      return ErrFull, 0;
    }
    hide PutU32;
    match p {
      case Eof(r) => n := Byte(out, 0, T_EOF); n := Word(out, n, r);
      case Close(r) => n := Byte(out, 0, T_CLOSE); n := Word(out, n, r);
      case Ping(x) => n := Byte(out, 0, T_PING); n := Word(out, n, x);
      case Pong(x) => n := Byte(out, 0, T_PONG); n := Word(out, n, x);
    }
    return Ok, n;
  }

  method Disconnect(reason: u32, msg: bytes, out: array<byte>) returns (rc: Rc, n: nat)
    modifies out
    ensures Encodes(out, rc, n, Pdu.Disconnect(reason, msg))
  {
    if |msg| > 255 {
      return ErrParam, 0;
    }
    if out.Length < 6 + |msg| {
      return ErrFull, 0;
    }
    hide PutU32;
    n := Byte(out, 0, T_DISCONNECT);
    n := Word(out, n, reason);
    n := Byte(out, n, |msg|);
    n := Copy(out, n, msg);
    return Ok, n;
  }

  method AuthDevice(pk: Key32, sig: Sig64, user: bytes, device: bytes, out: array<byte>) returns (rc: Rc, n: nat)
    modifies out
    ensures Encodes(out, rc, n, Pdu.AuthDevice(pk, sig, user, device))
  {
    if |user| > USER_MAX || |device| > DEVICE_ID_MAX {
      return ErrParam, 0;
    }
    if out.Length < 99 + |user| + |device| {
      return ErrFull, 0;
    }
    n := Byte(out, 0, T_AUTH_DEVICE);
    n := Copy(out, n, pk);
    n := Copy(out, n, sig);
    n := Byte(out, n, |user|);
    n := Copy(out, n, user);
    n := Byte(out, n, |device|);
    n := Copy(out, n, device);
    return Ok, n;
  }

  method AuthOk(claims: bytes, out: array<byte>) returns (rc: Rc, n: nat)
    modifies out
    ensures Encodes(out, rc, n, Pdu.AuthOk(claims))
  {
    if |claims| > CLAIMS_MAX {
      return ErrParam, 0;
    }
    if out.Length < 3 + |claims| {
      return ErrFull, 0;
    }
    hide PutU16;
    n := Byte(out, 0, T_AUTH_OK);
    n := U16(out, n, |claims|);
    n := Copy(out, n, claims);
    return Ok, n;
  }

  /** AUTH_FAIL carries no reason and no message on the wire. */
  method AuthFail(out: array<byte>) returns (rc: Rc, n: nat)
    modifies out
    ensures Encodes(out, rc, n, Pdu.AuthFail(0, []))
  {
    if out.Length < 3 {
      return ErrFull, 0;
    }
    n := Byte(out, 0, T_AUTH_FAIL);
    n := Byte(out, n, 0);
    n := Byte(out, n, 0);
    return Ok, n;
  }

  // ------------------------------------------------------------------
  // HELLO, frames and transcripts
  // ------------------------------------------------------------------

  method Hello(h: HelloBody, out: array<byte>) returns (rc: Rc, n: nat)
    requires |h.ephPk| == 32 && |h.idPk| == 32 && |h.idSig| == 64
    modifies out
    ensures if out.Length < HELLO_BODY_LEN then rc == ErrFull && out[..] == old(out[..])
      else rc == Ok && n == HELLO_BODY_LEN && out[..n] == EncodeHello(h)
  {
    if out.Length < HELLO_BODY_LEN {
      return ErrFull, 0;
    }
    hide PutU32, PutU16;
    n := U16(out, 0, MAGIC);
    n := U16(out, n, h.proto);
    n := U16(out, n, h.suite);
    n := U16(out, n, h.role);
    n := Word(out, n, h.flags);
    n := Copy(out, n, h.ephPk);
    n := Copy(out, n, h.idPk);
    n := Copy(out, n, h.idSig);
    return Ok, n;
  }

  /** sodchan_wire_frame_encode_max */
  method FrameBody(body: bytes, maxBody: u32, out: array<byte>) returns (rc: Rc, n: nat)
    modifies out
    ensures if body == [] then rc == ErrParam else if |body| > maxBody then rc == ErrProtocol
      else if out.Length < 4 + |body| then rc == ErrFull
      else rc == Ok && n == 4 + |body| && out[..n] == Frame(body)
    ensures rc != Ok ==> out[..] == old(out[..])
  {
    if body == [] {
      return ErrParam, 0;
    }
    if |body| > maxBody {
      return ErrProtocol, 0;
    }
    if out.Length < 4 + |body| {
      return ErrFull, 0;
    }
    n := Word(out, 0, |body|);
    n := Copy(out, n, body);
    return Ok, n;
  }

  /** sodchan_wire_build_t_hello into a buffer of exactly its length. */
  method THello(proto: u16, suite: u16, clientEph: Key32, serverEph: Key32, serverId: Key32, out: array<byte>)
    requires out.Length == T_HELLO_LEN
    modifies out
    ensures out[..] == BuildTHello(proto, suite, clientEph, serverEph, serverId)
  {
    assert |DOM_SERVER_HELLO| == 23;
    hide DOM_SERVER_HELLO, PutU16;
    var off := Copy(out, 0, DOM_SERVER_HELLO);
    off := U16(out, off, proto);
    off := U16(out, off, suite);
    off := Copy(out, off, clientEph);
    off := Copy(out, off, serverEph);
    off := Copy(out, off, serverId);
    assert out[..off] == out[..];
  }

  /** sodchan_wire_build_t_auth */
  method TAuth(tHello: bytes, pk: Key32, user: bytes, device: bytes, out: array<byte>) returns (rc: Rc, n: nat)
    requires |tHello| == T_HELLO_LEN
    modifies out
    ensures if !LegalNames(user, device) then rc == ErrParam
      else if out.Length < |BuildTAuth(tHello, pk, user, device)| then rc == ErrFull
      else rc == Ok && n <= out.Length && out[..n] == BuildTAuth(tHello, pk, user, device)
    ensures rc != Ok ==> out[..] == old(out[..])
  {
    if |user| > USER_MAX || |device| > DEVICE_ID_MAX {
      return ErrParam, 0;
    }
    TAuthNeed(tHello, pk, user, device);
    var need := 22 + T_HELLO_LEN + 32 + 1 + |user| + 1 + |device|;
    if out.Length < need {
      return ErrFull, 0;
    }
    hide DOM_CLIENT_AUTH;
    n := Copy(out, 0, DOM_CLIENT_AUTH);
    assert out[..n] == DOM_CLIENT_AUTH;
    n := Copy(out, n, tHello);
    n := Copy(out, n, pk);
    n := Byte(out, n, |user|);
    n := Copy(out, n, user);
    n := Byte(out, n, |device|);
    n := Copy(out, n, device);
    return Ok, n;
  }

  lemma TAuthNeed(tHello: bytes, pk: Key32, user: bytes, device: bytes)
    requires |tHello| == T_HELLO_LEN && LegalNames(user, device)
    ensures |DOM_CLIENT_AUTH| == 22
    ensures |BuildTAuth(tHello, pk, user, device)| == 22 + T_HELLO_LEN + 32 + 1 + |user| + 1 + |device|
  {
  }
}
