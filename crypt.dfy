/**
 * Password-based AES-256-GCM framing (src-tauri/src/crypt.rs).
 *
 * The key is the first 32 characters of the lower-case hex SHA-256 digest of
 * the password, taken as ASCII bytes.  An encrypted text is the base64 of the
 * AEAD output followed by the 12-byte nonce.  The nonce `generate_nonce`
 * draws is a parameter.
 */
module Crypt {
  import opened Wrappers
  import opened Primitives
  import opened Util

  /** AES-256 keys are 32 bytes. */
  const AES_KEY_LEN: nat := 32

  /** `digest(key)`: the SHA-256 of the password's UTF-8 bytes, as lower-case hex text. */
  function HexDigest(p: Primitives, password: string): (s: string)
    ensures |s| == 2 * DIGEST_LEN
    ensures forall i :: 0 <= i < |s| ==> IsLowerHexChar(s[i])
  {
    HexLower(p.sha256(p.utf8Encode(password)))
  }

  /** `&digest(key).into_bytes()[..32]`: the AES key. */
  function PasswordKey(p: Primitives, password: string): (k: Bytes)
    ensures |k| == AES_KEY_LEN
  {
    Ascii(HexDigest(p, password))[..AES_KEY_LEN]
  }

  /**
   * The key is the ASCII hex text of only the first 16 digest bytes: two
   * passwords whose digests agree there get the same AES key.
   */
  lemma PasswordKeyIsHalfDigest(p: Primitives, password: string)
    ensures PasswordKey(p, password) == Ascii(HexLower(p.sha256(p.utf8Encode(password))[..16]))
    ensures forall i :: 0 <= i < AES_KEY_LEN ==> IsLowerHexChar(PasswordKey(p, password)[i] as char)
  {
    var d := p.sha256(p.utf8Encode(password));
    HexLowerPrefix(d, 16);
    assert HexLower(d)[..32] == HexLower(d[..16]);
    assert Ascii(HexLower(d))[..32] == Ascii(HexLower(d)[..32]);
  }

  /** Two passwords whose digests share their first 16 bytes share their key. */
  lemma SameKeyFromHalfDigest(p: Primitives, a: string, b: string)
    requires p.sha256(p.utf8Encode(a))[..16] == p.sha256(p.utf8Encode(b))[..16]
    ensures PasswordKey(p, a) == PasswordKey(p, b)
  {
    PasswordKeyIsHalfDigest(p, a);
    PasswordKeyIsHalfDigest(p, b);
  }

  /** The framed bytes: AEAD output with the nonce appended. */
  function Frame(sealed: Bytes, nonce: Nonce): (b: Bytes)
    ensures |b| == |sealed| + NONCE_LEN
    ensures b[..|sealed|] == sealed && b[|sealed|..] == nonce
  {
    sealed + nonce
  }

  /** What `encrypt` returns for a given password, plaintext and drawn nonce. */
  function Encryption(p: Primitives, password: string, plaintext: string, nonce: Nonce): (r: Result<string, Error>)
    ensures r.Err? <==> p.seal(PasswordKey(p, password), nonce, p.utf8Encode(plaintext)).None?
    ensures r.Err? ==> r.error == Aes
  {
    match p.seal(PasswordKey(p, password), nonce, p.utf8Encode(plaintext))
    case None => Err(Aes)
    case Some(sealed) => Ok(p.b64Encode(Frame(sealed, nonce)))
  }

  /** `decrypt` panics on `len() - 12` when the decoded text is shorter than a nonce. */
  predicate LongEnough(p: Primitives, text: string) {
    match p.b64Decode(text)
    case None => true
    case Some(b) => |b| >= NONCE_LEN
  }

  /** What `decrypt` returns: the last 12 decoded bytes are the nonce, the rest the AEAD output. */
  function Decryption(p: Primitives, password: string, text: string): (r: Result<string, Error>)
    requires LongEnough(p, text)
    ensures p.b64Decode(text).None? ==> r == Err(Decode)
    ensures p.b64Decode(text).Some? ==>
              var b := p.b64Decode(text).value;
              var unsealed := p.open(PasswordKey(p, password), b[|b| - NONCE_LEN..], b[..|b| - NONCE_LEN]);
              && (unsealed.None? ==> r == Err(Aes))
              && (unsealed.Some? && p.utf8Decode(unsealed.value).None? ==> r == Err(Utf8))
              && (unsealed.Some? && p.utf8Decode(unsealed.value).Some? ==> r == Ok(p.utf8Decode(unsealed.value).value))
  {
    match p.b64Decode(text)
    case None => Err(Decode)
    case Some(b) =>
      match p.open(PasswordKey(p, password), b[|b| - NONCE_LEN..], b[..|b| - NONCE_LEN])
      case None => Err(Aes)
      case Some(plain) =>
        match p.utf8Decode(plain)
        case None => Err(Utf8)
        case Some(s) => Ok(s)
  }

  /** `encrypt`: seal, append the nonce to the ciphertext buffer, encode. */
  method Encrypt(p: Primitives, password: string, plaintext: string, nonce: Nonce) returns (r: Result<string, Error>)
    ensures r == Encryption(p, password, plaintext, nonce)
  {
    var cryptKey := PasswordKey(p, password);
    var plaintextBytes := p.utf8Encode(plaintext);
    var sealed := p.seal(cryptKey, nonce, plaintextBytes);
    if sealed.None? {
      return Err(Aes);
    }
    var ciphertext := sealed.value;
    var nonceCp := nonce;
    ciphertext := ciphertext + nonceCp;
    r := Ok(p.b64Encode(ciphertext));
  }

  /** `decrypt`: decode, copy the last 12 bytes into the nonce buffer, truncate them off, open, check UTF-8. */
  method Decrypt(p: Primitives, password: string, text: string) returns (r: Result<string, Error>)
    requires LongEnough(p, text)
    ensures r == Decryption(p, password, text)
  {
    var cryptKey := PasswordKey(p, password);
    var decoded := p.b64Decode(text);
    if decoded.None? {
      return Err(Decode);
    }
    var ciphertextBytes := decoded.value;
    var buf := new byte[NONCE_LEN](_ => 0);
    var start := |ciphertextBytes| - NONCE_LEN;
    for i := 0 to NONCE_LEN
      invariant forall j :: 0 <= j < i ==> buf[j] == ciphertextBytes[start + j]
    {
      buf[i] := ciphertextBytes[start + i];
    }
    assert buf[..] == ciphertextBytes[start..];
    ciphertextBytes := ciphertextBytes[..start];
    var unsealed := p.open(cryptKey, buf[..], ciphertextBytes);
    if unsealed.None? {
      return Err(Aes);
    }
    var plaintext := p.utf8Decode(unsealed.value);
    if plaintext.None? {
      return Err(Utf8);
    }
    r := Ok(plaintext.value);
  }

  /** The base64 text `encrypt` returns decodes to the sealed bytes with the nonce as its last 12 bytes. */
  lemma EncryptionFraming(p: Primitives, password: string, plaintext: string, nonce: Nonce)
    requires Base64RoundTrips(p)
    requires Encryption(p, password, plaintext, nonce).Ok?
    ensures var b := p.b64Decode(Encryption(p, password, plaintext, nonce).value);
            && b.Some? && |b.value| >= NONCE_LEN
            && b.value[|b.value| - NONCE_LEN..] == nonce
            && Some(b.value[..|b.value| - NONCE_LEN]) == p.seal(PasswordKey(p, password), nonce, p.utf8Encode(plaintext))
  {
    var sealed := p.seal(PasswordKey(p, password), nonce, p.utf8Encode(plaintext)).value;
    assert Encryption(p, password, plaintext, nonce).value == p.b64Encode(Frame(sealed, nonce));
  }

  /** AES-GCM accepts every plaintext within the standard's limit, so `encrypt` fails for none of them. */
  lemma EncryptionSucceeds(p: Primitives, password: string, plaintext: string, nonce: Nonce)
    requires SealAccepts(p)
    requires |p.utf8Encode(plaintext)| <= GCM_MAX_PLAINTEXT
    ensures Encryption(p, password, plaintext, nonce).Ok?
  {
    assert p.seal(PasswordKey(p, password), nonce, p.utf8Encode(plaintext)).Some?;
  }

  /** `decrypt(key, encrypt(key, m)) == m`, and decryption does not hit the short-input panic. */
  lemma DecryptEncrypt(p: Primitives, password: string, plaintext: string, nonce: Nonce)
    requires Base64RoundTrips(p) && OpenInvertsSeal(p) && Utf8RoundTrips(p)
    requires Encryption(p, password, plaintext, nonce).Ok?
    ensures LongEnough(p, Encryption(p, password, plaintext, nonce).value)
    ensures Decryption(p, password, Encryption(p, password, plaintext, nonce).value) == Ok(plaintext)
  {
    EncryptionFraming(p, password, plaintext, nonce);
  }

  /** The `check_symmetry` test: the fixed password and text survive a round trip. */
  method CheckSymmetry(p: Primitives, nonce: Nonce) returns (plaintext: string)
    requires SealAccepts(p) && OpenInvertsSeal(p) && Base64RoundTrips(p) && Utf8RoundTrips(p) && Utf8Width(p)
    ensures plaintext == "The cake was a lie!"
  {
    var key := "VerySecureyPassword123LmaoKek";
    var ogTxt := "The cake was a lie!";
    assert |p.utf8Encode(ogTxt)| <= 4 * |ogTxt|;
    EncryptionSucceeds(p, key, ogTxt, nonce);
    var ciphertext := Encrypt(p, key, ogTxt, nonce);
    DecryptEncrypt(p, key, ogTxt, nonce);
    var decrypted := Decrypt(p, key, ciphertext.value);
    plaintext := decrypted.value;
  }
}
