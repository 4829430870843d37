/**
 * The foreign calls the receipt code makes — CBOR output, SHA-256, Ed25519,
 * base64 and UTF-8 — as a record of functions that every operation takes as
 * a parameter. `Sound` states the facts about them that the proofs rely on;
 * the model never assumes it, lemmas require it.
 */
module Primitives {
  import opened Wrappers
  import opened Values
  import Canonical

  type Byte = b: int | 0 <= b < 256
  type Bytes = seq<Byte>

  /** Size in bytes of an Ed25519 public key (`ed25519.PublicKeySize`). */
  const PUBLIC_KEY_SIZE := 32

  datatype Primitives = Primitives(
    /** `cbor2.dumps(obj, canonical=True)` on a Python object. */
    cbor: Value -> Bytes,
    /** fxamacker `CanonicalEncOptions().EncMode()` then `Marshal` on a Go value. */
    cborGo: Tree -> Bytes,
    sha256: Bytes -> Bytes,
    /** The Ed25519 public key that belongs to a private key. */
    publicKeyOf: Bytes -> Bytes,
    /** Ed25519 signature of a message under a private key. */
    sign: (Bytes, Bytes) -> Bytes,
    /** Ed25519 verification of (public key, message, signature). */
    verify: (Bytes, Bytes, Bytes) -> bool,
    /** Standard base64 encoding. */
    b64encode: Bytes -> string,
    /** Python `base64.b64decode` on ASCII text (fails on bad padding). */
    b64decode: string -> Option<Bytes>,
    /** Go `base64.StdEncoding.DecodeString` (strict). */
    b64decodeStrict: string -> Option<Bytes>,
    /** `str.encode('utf-8')`. */
    utf8: string -> Bytes
  )

  ghost predicate Sound(p: Primitives) {
    // Ed25519: a signature made with a private key verifies under its public key.
    && (forall sk: Bytes, m: Bytes :: p.verify(p.publicKeyOf(sk), m, p.sign(sk, m)))
    && (forall sk: Bytes :: |p.publicKeyOf(sk)| == PUBLIC_KEY_SIZE)
    // base64 decoding inverts encoding, in both libraries.
    && (forall b: Bytes :: p.b64decode(p.b64encode(b)) == Some(b))
    && (forall b: Bytes :: p.b64decodeStrict(p.b64encode(b)) == Some(b))
    && (forall b: Bytes :: IsAscii(p.b64encode(b)))
    // The CBOR encoder is injective on recursively sorted values. Its
    // canonical mode orders map keys itself, so it cannot tell insertion
    // orders apart, but sorted values with different content give different bytes.
    && (forall a: Value, b: Value | WellFormed(a) && WellFormed(b) ::
          p.cbor(Canonical.SortRecursively(a)) == p.cbor(Canonical.SortRecursively(b))
          ==> Canonical.SortRecursively(a) == Canonical.SortRecursively(b))
  }

  predicate IsAscii(s: string) {
    forall i :: 0 <= i < |s| ==> s[i] as int < 128
  }

  /**
   * Python `base64.b64decode(x)` on a dynamic value: text must be ASCII,
   * anything that is not text raises (`TypeError`), and a decoding failure
   * raises (`binascii.Error`); each failure is `None`.
   */
  function PyB64Decode(p: Primitives, v: Value): (r: Option<Bytes>)
    ensures r.Some? ==> v.Str? && IsAscii(v.s)
  {
    if v.Str? && IsAscii(v.s) then p.b64decode(v.s) else None
  }

  /**
   * The bytes that get signed: the CBOR encoding of the recursively
   * key-sorted tree. Canonicalising is stable: a well-formed value that was
   * already sorted yields the same bytes.
   */
  function CanonicalBytes(p: Primitives, v: Value): (r: Bytes)
    ensures WellFormed(v) ==> r == p.cbor(Canonical.SortRecursively(Canonical.SortRecursively(v)))
  {
    Canonical.SortRecursivelyIdempotent(v);
    p.cbor(Canonical.SortRecursively(v))
  }

  /**
   * Encoding determinism: the same logical map, whatever its insertion order,
   * yields the same bytes, and maps with different content yield different bytes.
   */
  lemma CanonicalBytesDeterministic(p: Primitives, a: Value, b: Value)
    requires Sound(p) && WellFormed(a) && WellFormed(b)
    ensures CanonicalBytes(p, a) == CanonicalBytes(p, b) <==> Abstract(a) == Abstract(b)
  {
    Canonical.SortRecursivelyCanonical(a, b);
  }

  lemma PyB64RoundTrip(p: Primitives, b: Bytes)
    requires Sound(p)
    ensures PyB64Decode(p, Str(p.b64encode(b))) == Some(b)
  {
  }
}
