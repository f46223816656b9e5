/**
 * The two signed transcripts, src/sodchan_wire.c: T_hello, which the server
 * signs, and T_auth, which the device signs.  Each determines its inputs, and
 * neither can be taken for the other.
 */
module Transcript {
  import opened Base
  import opened Wire

  type Key32 = s: bytes | |s| == 32 witness seq(32, _ => 0)
  type Sig64 = s: bytes | |s| == 64 witness seq(64, _ => 0)

  const T_HELLO_LEN: nat := 123

  /** "sodchan-v1-server-hello" */
  const DOM_SERVER_HELLO: bytes :=
    [115, 111, 100, 99, 104, 97, 110, 45, 118, 49, 45, 115, 101, 114, 118, 101, 114, 45, 104, 101, 108, 108, 111]
  /** "sodchan-v1-client-auth" */
  const DOM_CLIENT_AUTH: bytes :=
    [115, 111, 100, 99, 104, 97, 110, 45, 118, 49, 45, 99, 108, 105, 101, 110, 116, 45, 97, 117, 116, 104]

  function BuildTHello(proto: u16, suite: u16, clientEph: Key32, serverEph: Key32, serverId: Key32): (r: bytes)
    ensures |r| == T_HELLO_LEN
  {
    assert |DOM_SERVER_HELLO| == 23;
    DOM_SERVER_HELLO + PutU16(proto) + PutU16(suite) + clientEph + serverEph + serverId
  }

  predicate LegalNames(user: bytes, device: bytes) {
    |user| <= USER_MAX && |device| <= DEVICE_ID_MAX
  }

  function BuildTAuth(tHello: bytes, pk: Key32, user: bytes, device: bytes): bytes
    requires LegalNames(user, device)
  {
    DOM_CLIENT_AUTH + tHello + pk + [|user|] + user + [|device|] + device
  }

  /** T_hello fixes version, suite, both ephemerals and the server's identity. */
  lemma THelloBinds(p1: u16, s1: u16, c1: Key32, e1: Key32, i1: Key32, p2: u16, s2: u16, c2: Key32, e2: Key32, i2: Key32)
    requires BuildTHello(p1, s1, c1, e1, i1) == BuildTHello(p2, s2, c2, e2, i2)
    ensures p1 == p2 && s1 == s2 && c1 == c2 && e1 == e2 && i1 == i2
  {
    var t := BuildTHello(p1, s1, c1, e1, i1);
    assert |DOM_SERVER_HELLO| == 23;
    assert t[23..25] == PutU16(p1) && t[25..27] == PutU16(s1);
    assert t[23..25] == PutU16(p2) && t[25..27] == PutU16(s2);
    GetPutU16(p1, []); GetPutU16(p2, []); GetPutU16(s1, []); GetPutU16(s2, []);
    assert PutU16(p1) + [] == PutU16(p1) && PutU16(p2) + [] == PutU16(p2);
    assert PutU16(s1) + [] == PutU16(s1) && PutU16(s2) + [] == PutU16(s2);
    assert t[27..59] == c1 && t[59..91] == e1 && t[91..123] == i1;
    assert t[27..59] == c2 && t[59..91] == e2 && t[91..123] == i2;
  }

  /** T_auth fixes the session, the key and both names, although the names vary in length. */
  lemma TAuthBinds(h1: bytes, k1: Key32, u1: bytes, d1: bytes, h2: bytes, k2: Key32, u2: bytes, d2: bytes)
    requires |h1| == |h2| == T_HELLO_LEN && LegalNames(u1, d1) && LegalNames(u2, d2)
    requires BuildTAuth(h1, k1, u1, d1) == BuildTAuth(h2, k2, u2, d2)
    ensures h1 == h2 && k1 == k2 && u1 == u2 && d1 == d2
  {
    var t := BuildTAuth(h1, k1, u1, d1);
    assert |DOM_CLIENT_AUTH| == 22;
    assert t[22..145] == h1 && t[22..145] == h2;
    assert t[145..177] == k1 && t[145..177] == k2;
    assert t[177] == |u1| && t[177] == |u2|;
    assert t[178..178 + |u1|] == u1 && t[178..178 + |u1|] == u2;
    assert t[179 + |u1|..] == d1 && t[179 + |u1|..] == d2;
  }

  /** The domain strings keep the two signatures apart. */
  lemma TranscriptsDiffer(proto: u16, suite: u16, c: Key32, e: Key32, i: Key32, h: bytes, k: Key32, u: bytes, d: bytes)
    requires LegalNames(u, d)
    ensures BuildTHello(proto, suite, c, e, i) != BuildTAuth(h, k, u, d)
  {
    assert BuildTHello(proto, suite, c, e, i)[11] == 115;
    assert BuildTAuth(h, k, u, d)[11] == 99;
  }
}
