/**
 * The cryptographic primitives as ideal functions, with the few laws the
 * protocol relies on.  Nothing is claimed about their strength.
 */
module Crypto {
  import opened Base
  import opened Transcript

  type Header24 = s: bytes | |s| == 24 witness seq(24, _ => 0)

  /** One direction of a secretstream: keyed by key and header, n messages in. */
  datatype Stream = Stream(key: Key32, header: Header24, n: nat)

  const TAG_MESSAGE: byte := 0
  const TAG_REKEY: byte := 2
  const TAG_FINAL: byte := 3

  datatype SessionKeys = SessionKeys(rx: Key32, tx: Key32)

  datatype Suite = Suite(
    signPk: Sig64 -> Key32,                            // public half of a signing key
    sign: (bytes, Sig64) -> Sig64,                     // message, secret key
    verify: (Sig64, bytes, Key32) -> bool,             // signature, message, public key
    kxPk: Key32 -> Key32,                              // public half of an ephemeral
    kxClient: (Key32, Key32, Key32) -> Option<SessionKeys>,  // own pk, own sk, peer pk
    kxServer: (Key32, Key32, Key32) -> Option<SessionKeys>,
    kdf: (Key32, bytes) -> Key32,                      // direction key, domain
    seal: (Stream, byte, bytes) -> bytes,              // stream, tag, plaintext
    unseal: (Stream, bytes) -> Option<(byte, bytes)>)

  ghost predicate SignLaw(cr: Suite) {
    forall m: bytes, sk: Sig64 :: cr.verify(cr.sign(m, sk), m, cr.signPk(sk))
  }

  /** Client and server derive the same two keys, crossed. */
  ghost predicate KxLaw(cr: Suite) {
    forall a: Key32, b: Key32 ::
      && cr.kxClient(cr.kxPk(a), a, cr.kxPk(b)).Some?
      && cr.kxServer(cr.kxPk(b), b, cr.kxPk(a)) ==
         Some(SessionKeys(cr.kxClient(cr.kxPk(a), a, cr.kxPk(b)).value.tx, cr.kxClient(cr.kxPk(a), a, cr.kxPk(b)).value.rx))
  }

  /** A message opens in place, and costs 17 bytes. */
  ghost predicate StreamLaw(cr: Suite) {
    forall s: Stream, t: byte, p: bytes :: |cr.seal(s, t, p)| == |p| + SS_ABYTES && cr.unseal(s, cr.seal(s, t, p)) == Some((t, p))
  }

  ghost predicate Ideal(cr: Suite) {
    SignLaw(cr) && KxLaw(cr) && StreamLaw(cr)
  }

  /** The laws can be met together. */
  lemma IdealExists()
    ensures exists cr: Suite :: Ideal(cr)
  {
    var zeros: Key32 := seq(32, _ => 0);
    var pad := seq(SS_ABYTES - 1, _ => 0 as byte);
    var cr := Suite(
      (sk: Sig64) => zeros,
      (m: bytes, sk: Sig64) => seq(64, _ => 0 as byte),
      (s: Sig64, m: bytes, pk: Key32) => true,
      (sk: Key32) => sk,
      (pk: Key32, sk: Key32, peer: Key32) => Some(SessionKeys(pk, peer)),
      (pk: Key32, sk: Key32, peer: Key32) => Some(SessionKeys(pk, peer)),
      (k: Key32, dom: bytes) => k,
      (s: Stream, t: byte, p: bytes) => p + [t] + pad,
      (s: Stream, c: bytes) => if |c| < SS_ABYTES then None else Some((c[|c| - SS_ABYTES], c[..|c| - SS_ABYTES])));
    assert KxLaw(cr);
    forall s: Stream, t: byte, p: bytes ensures |cr.seal(s, t, p)| == |p| + SS_ABYTES && cr.unseal(s, cr.seal(s, t, p)) == Some((t, p)) {
      var c := cr.seal(s, t, p);
      assert c == p + [t] + pad;
      assert c[|c| - SS_ABYTES] == t && c[..|c| - SS_ABYTES] == p;
    }
    assert Ideal(cr);
  }
}
