/**
 * The two fixed-size byte buffers of a session, updated in place: output with
 * a read offset and lazy compaction, input with a front that is moved down.
 */
module Buffers {
  import opened Base
  import opened Wire
  import Encoder

  /** memcpy of a string into a buffer at an offset. */
  method Write(buf: array<byte>, at: nat, s: bytes)
    requires at + |s| <= buf.Length
    modifies buf
    ensures buf[..] == old(buf[..at]) + s + old(buf[at + |s|..])
  {
    var i := 0;
    while i < |s|
      invariant i <= |s|
      invariant forall k :: 0 <= k < i ==> buf[at + k] == s[k]
      invariant forall k :: 0 <= k < buf.Length && !(at <= k < at + i) ==> buf[k] == old(buf[k])
    {
      buf[at + i] := s[i];
      i := i + 1;
    }
  }

  /** memmove of buf[from..to] down to the front. */
  method MoveDown(buf: array<byte>, from: nat, to: nat)
    requires from <= to <= buf.Length
    modifies buf
    ensures buf[..to - from] == old(buf[from..to])
  {
    var i := 0;
    while i < to - from
      invariant i <= to - from
      invariant forall k :: 0 <= k < i ==> buf[k] == old(buf[from + k])
      invariant forall k :: i <= k < buf.Length ==> buf[k] == old(buf[k])
    {
      buf[i] := buf[from + i];
      i := i + 1;
    }
  }

  class OutBuffer {
    const buf: array<byte>
    var off: nat
    var len: nat

    predicate Valid()
      reads this
    {
      off <= len <= buf.Length == OUT_BUF_SIZE
    }

    function Pending(): (r: bytes)
      requires Valid()
      reads this, buf
    {
      buf[off..len]
    }

    constructor ()
      ensures Valid() && fresh(buf) && Pending() == []
    {
      buf := new byte[OUT_BUF_SIZE](_ => 0);
      off, len := 0, 0;
    }

    method Clear()
      requires Valid()
      modifies this
      ensures Valid() && Pending() == []
    {
      off, len := 0, 0;
    }

    /** out_compact: the same bytes, from the front. */
    method Compact()
      requires Valid()
      modifies this, buf
      ensures Valid() && Pending() == old(Pending()) && off == 0
    {
      if off == 0 {
        return;
      }
      if off >= len {
        off, len := 0, 0;
        return;
      }
      MoveDown(buf, off, len);
      len := len - off;
      off := 0;
    }

    /** out_append: all of p, or nothing. */
    method Append(p: bytes) returns (rc: Rc)
      requires Valid()
      modifies this, buf
      ensures Valid()
      ensures rc == if |p| <= OUT_BUF_SIZE - |old(Pending())| then Ok else ErrFull
      ensures Pending() == if rc == Ok then old(Pending()) + p else old(Pending())
    {
      Compact();
      if |p| > buf.Length - len {
        return ErrFull;
      }
      Write(buf, len, p);
      len := len + |p|;
      return Ok;
    }

    /** The tail of ss_send_pdu: a length slot and the ciphertext behind it, straight into the buffer. */
    method AppendRecord(ct: bytes)
      requires Valid() && off == 0 && len + 4 + |ct| <= buf.Length
      modifies this, buf
      ensures Valid() && Pending() == old(Pending()) + PutU32(|ct|) + ct
    {
      var n := Encoder.Word(buf, len, |ct|);
      n := Encoder.Copy(buf, n, ct);
      len := n;
    }

    /** sodchan_get_output: the oldest bytes, at most max of them. */
    method Take(dst: array<byte>, max: nat) returns (n: nat)
      requires Valid() && max <= dst.Length && dst != buf
      modifies this, dst
      ensures Valid() && n == Min(max, |old(Pending())|)
      ensures dst[..n] == old(Pending())[..n] && dst[n..] == old(dst[n..])
      ensures Pending() == old(Pending())[n..]
    {
      if max == 0 || off >= len {
        return 0;
      }
      n := len - off;
      if n > max {
        n := max;
      }
      Write(dst, 0, buf[off..off + n]);
      off := off + n;
      if off >= len {
        off, len := 0, 0;
      }
    }
  }

  class InBuffer {
    const buf: array<byte>
    var len: nat

    predicate Valid()
      reads this
    {
      len <= buf.Length == IN_BUF_SIZE
    }

    function Held(): (r: bytes)
      requires Valid()
      reads this, buf
    {
      buf[..len]
    }

    constructor ()
      ensures Valid() && fresh(buf) && Held() == []
    {
      buf := new byte[IN_BUF_SIZE](_ => 0);
      len := 0;
    }

    method Clear()
      requires Valid()
      modifies this
      ensures Valid() && Held() == []
    {
      len := 0;
    }

    /** The copy in sodchan_feed_input: as much as there is room for. */
    method Fill(data: bytes) returns (take: nat)
      requires Valid()
      modifies this, buf
      ensures Valid() && take == Min(|data|, IN_BUF_SIZE - |old(Held())|)
      ensures Held() == old(Held()) + data[..take]
    {
      take := |data|;
      if take > buf.Length - len {
        take := buf.Length - len;
      }
      Write(buf, len, data[..take]);
      len := len + take;
    }

    /** Drop the first k bytes. */
    method Consume(k: nat)
      requires Valid() && k <= len
      modifies this, buf
      ensures Valid() && Held() == old(Held())[k..]
    {
      MoveDown(buf, k, len);
      len := len - k;
    }
  }
}
