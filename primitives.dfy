/**
 * The foreign primitives the client relies on, kept abstract.
 *
 * X25519-over-Ristretto keys, Diffie-Hellman, signatures, HKDF-SHA-256,
 * AES-256-GCM (NIST SP 800-38D), SHA-256, base64 (section 4 of RFC 4648) and
 * UTF-8 are library calls.  They are the fields of a `Primitives` value; every
 * operation of the model takes that value as a parameter, and the laws the code
 * depends on are ghost predicates that a member states as a precondition.
 * Only sizes and the pure byte layouts of the code are concrete.
 */
module Primitives {
  import opened Wrappers

  /** An unsigned 8-bit integer, `u8`. */
  newtype byte = x: int | 0 <= x < 256

  type Bytes = seq<byte>

  /** `<<SecretKey as DiffieHellman>::PK as Len>::LEN`: a public key is 32 bytes. */
  const PK_LEN: nat := 32
  /** An x25519-ristretto secret key is 32 bytes. */
  const SK_LEN: nat := 32
  /** `<<SecretKey as DiffieHellman>::SSK as Len>::LEN`: a DH shared secret is 32 bytes. */
  const SSK_LEN: nat := 32
  /** A signature is 64 bytes. */
  const SIG_LEN: nat := 64
  /** `Aes256Gcm::NONCE_LEN`, 96 bits. */
  const NONCE_LEN: nat := 12
  /** A SHA-256 digest is 32 bytes. */
  const DIGEST_LEN: nat := 32
  /** Longest plaintext AES-GCM accepts: 2^39 - 256 bits (section 5.2.1.1 of NIST SP 800-38D). */
  const GCM_MAX_PLAINTEXT: nat := 0xF_FFFF_FFE0
  /** Longest output HKDF-SHA-256 can expand to: 255 hash lengths (section 2.3 of RFC 5869). */
  const HKDF_MAX_OUTPUT: nat := 255 * 32

  type PublicKey = b: Bytes | |b| == PK_LEN witness seq(32, _ => 0 as byte)
  type SecretKey = b: Bytes | |b| == SK_LEN witness seq(32, _ => 0 as byte)
  type SharedSecret = b: Bytes | |b| == SSK_LEN witness seq(32, _ => 0 as byte)
  type Signature = b: Bytes | |b| == SIG_LEN witness seq(64, _ => 0 as byte)
  type Nonce = b: Bytes | |b| == NONCE_LEN witness seq(12, _ => 0 as byte)
  type Digest = b: Bytes | |b| == DIGEST_LEN witness seq(32, _ => 0 as byte)

  /** A key pair as the crypto crate holds it: the secret half and the public half. */
  datatype KeyPair = KeyPair(secret: SecretKey, public: PublicKey)

  datatype Primitives = Primitives(
    toPublic: SecretKey -> PublicKey,                  // public half of a generated key pair
    dh: (SecretKey, PublicKey) -> SharedSecret,        // `sk.diffie_hellman(pk).to_vec()`
    sign: (SecretKey, Bytes) -> Signature,
    verify: (PublicKey, Bytes, Signature) -> bool,
    hkdf: (Bytes, Bytes, Bytes, nat) -> Option<Bytes>, // salt, input key material, info, length
    seal: (Bytes, Bytes, Bytes) -> Option<Bytes>,      // AES-256-GCM encrypt: key, nonce, plaintext
    open: (Bytes, Bytes, Bytes) -> Option<Bytes>,      // AES-256-GCM decrypt: key, nonce, ciphertext
    sha256: Bytes -> Digest,
    b64Encode: Bytes -> string,
    b64Decode: string -> Option<Bytes>,
    utf8Encode: string -> Bytes,                       // `String::into_bytes`
    utf8Decode: Bytes -> Option<string>                // `str::from_utf8`
  )

  /** A key pair whose public half belongs to its secret half, as `generate_with` makes them. */
  ghost predicate Generated(p: Primitives, kp: KeyPair) {
    kp.public == p.toPublic(kp.secret)
  }

  /** DH(a, Pub(b)) == DH(b, Pub(a)). */
  ghost predicate DhCommutes(p: Primitives) {
    forall a: SecretKey, b: SecretKey :: p.dh(a, p.toPublic(b)) == p.dh(b, p.toPublic(a))
  }

  /** A signature made with a secret key verifies under its public key. */
  ghost predicate SignaturesVerify(p: Primitives) {
    forall s: SecretKey, m: Bytes :: p.verify(p.toPublic(s), m, p.sign(s, m))
  }

  /** HKDF expansion succeeds, with the requested length, up to its limit. */
  ghost predicate KdfExpands(p: Primitives) {
    forall salt: Bytes, ikm: Bytes, info: Bytes, n: nat {:trigger p.hkdf(salt, ikm, info, n)} ::
      n <= HKDF_MAX_OUTPUT ==> p.hkdf(salt, ikm, info, n).Some? && |p.hkdf(salt, ikm, info, n).value| == n
  }

  /** AES-GCM encryption fails only for a plaintext over the standard's length limit. */
  ghost predicate SealAccepts(p: Primitives) {
    forall k: Bytes, n: Bytes, m: Bytes {:trigger p.seal(k, n, m)} ::
      |m| <= GCM_MAX_PLAINTEXT ==> p.seal(k, n, m).Some?
  }

  /** Dec(k, n, Enc(k, n, m)) == Some(m). */
  ghost predicate OpenInvertsSeal(p: Primitives) {
    forall k: Bytes, n: Bytes, m: Bytes {:trigger p.seal(k, n, m)} ::
      p.seal(k, n, m).Some? ==> p.open(k, n, p.seal(k, n, m).value) == Some(m)
  }

  /** Base64 decoding inverts encoding, and the empty input encodes to "" (section 10 of RFC 4648). */
  ghost predicate Base64RoundTrips(p: Primitives) {
    && (forall b: Bytes :: p.b64Decode(p.b64Encode(b)) == Some(b))
    && p.b64Encode([]) == ""
  }

  /** Decoding the UTF-8 bytes of a string gives the string back. */
  ghost predicate Utf8RoundTrips(p: Primitives) {
    forall s: string :: p.utf8Decode(p.utf8Encode(s)) == Some(s)
  }

  /** UTF-8 spends at most four bytes on a character. */
  ghost predicate Utf8Width(p: Primitives) {
    forall s: string :: |p.utf8Encode(s)| <= 4 * |s|
  }

  function Zeros(n: nat): (z: Bytes)
    ensures |z| == n && forall i :: 0 <= i < n ==> z[i] == 0
  {
    seq(n, _ => 0 as byte)
  }

  /** `PublicKey::from_bytes`: only the length is checked in this model. */
  function PublicFromBytes(b: Bytes): Option<PublicKey> {
    if |b| == PK_LEN then Some(b) else None
  }

  /** `SecretKey::from_bytes`: only the length is checked in this model. */
  function SecretFromBytes(b: Bytes): Option<SecretKey> {
    if |b| == SK_LEN then Some(b) else None
  }

  /** `Signature::from_bytes`: only the length is checked in this model. */
  function SignatureFromBytes(b: Bytes): Option<Signature> {
    if |b| == SIG_LEN then Some(b) else None
  }

  /** `KeyPair::from_bytes`: the secret half followed by the public half. */
  function KeyPairFromBytes(b: Bytes): Option<KeyPair> {
    if |b| == SK_LEN + PK_LEN then Some(KeyPair(b[..SK_LEN], b[SK_LEN..])) else None
  }

  /** The bytes of an ASCII string, one per character (its UTF-8 encoding). */
  function Ascii(s: string): (b: Bytes)
    requires forall i :: 0 <= i < |s| ==> s[i] as int < 128
    ensures |b| == |s| && forall i :: 0 <= i < |s| ==> b[i] as int == s[i] as int
  {
    seq(|s|, i requires 0 <= i < |s| => (s[i] as int) as byte)
  }

  predicate IsLowerHexChar(c: char) {
    '0' <= c <= '9' || 'a' <= c <= 'f'
  }

  function HexDigit(n: byte): (c: char)
    requires n < 16
    ensures IsLowerHexChar(c)
  {
    if n < 10 then (48 + n as int) as char else (87 + n as int) as char
  }

  /** Lower-case hexadecimal, two characters per byte, most significant nibble first. */
  function HexLower(b: Bytes): (s: string)
    ensures |s| == 2 * |b|
    ensures forall i :: 0 <= i < |s| ==> IsLowerHexChar(s[i])
  {
    if b == [] then "" else [HexDigit(b[0] / 16), HexDigit(b[0] % 16)] + HexLower(b[1..])
  }

  /** The first 2k hex characters encode exactly the first k bytes. */
  lemma {:induction false} HexLowerPrefix(b: Bytes, k: nat)
    requires k <= |b|
    ensures HexLower(b)[..2 * k] == HexLower(b[..k])
  {
    if k > 0 {
      HexLowerPrefix(b[1..], k - 1);
      assert b[..k][1..] == b[1..][..k - 1];
    }
  }
}
