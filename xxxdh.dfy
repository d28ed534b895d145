/**
 * The X3DH key agreement of src-tauri/src/xxxdh.rs: the sender's side
 * (section 3.3 of Signal's "The X3DH Key Agreement Protocol"), the receiver's
 * side (section 3.4) and the key derivation both use.
 *
 * The derivation prefixes the DH outputs with PK_LEN ZERO bytes, where section
 * 2.2 of the protocol prescribes 0xFF bytes; the model follows the code.
 */
module Xxxdh {
  import opened Wrappers
  import opened Primitives

  /** `PROTOCOL_INFO`, used as the HKDF info string. */
  const PROTOCOL_INFO: string := "X3DH"

  function InfoBytes(): (b: Bytes)
    ensures b == [0x58, 0x33, 0x44, 0x48]
  {
    Ascii(PROTOCOL_INFO)
  }

  /** `XxxDhError`; the wrapped library errors are reduced to their kind. */
  datatype XxxDhError =
    | EmptyPrekeyList
    | UnknownPrekey
    | KdfError
    | KeypairError
    | AeadError
    | SignatureError
    | StorageError

  /**
   * `Protocol`, as `Protocol::new` builds it: identity key pair, signed prekey
   * pair, prekey signature and the optional one-time key pairs.  No method of
   * the source updates these fields, so it is a value.
   */
  datatype Protocol = Protocol(
    identity: KeyPair,
    prekey: KeyPair,
    prekeySignature: Signature,
    oneTimeKeys: Option<seq<KeyPair>>)

  /** One DH input of `_derive_sk`: a secret key and the public key it meets. */
  datatype DhPair = DhPair(secret: SecretKey, public: PublicKey)

  /** What `prepare_init_msg` returns, in the order of its tuple. */
  datatype InitMessage = InitMessage(
    senderIdentity: PublicKey,
    ephemeralKey: PublicKey,
    receiverOneTimeKey: PublicKey,
    sk: Bytes,
    nonce: Bytes,
    ciphertext: Bytes)

  /** The DH outputs of `pairs`, concatenated in argument order. */
  function DhOutputs(p: Primitives, pairs: seq<DhPair>): (out: Bytes)
    ensures |out| == SSK_LEN * |pairs|
  {
    if pairs == [] then []
    else DhOutputs(p, pairs[..|pairs| - 1]) + p.dh(pairs[|pairs| - 1].secret, pairs[|pairs| - 1].public)
  }

  /** The HKDF input key material: PK_LEN zero bytes, then the DH outputs. */
  function KeyMaterial(p: Primitives, pairs: seq<DhPair>): Bytes {
    Zeros(PK_LEN) + DhOutputs(p, pairs)
  }

  /**
   * The key `_derive_sk` returns: HKDF-SHA-256 with SSK_LEN zero bytes as salt,
   * "X3DH" as info and SSK_LEN bytes of output; a failed expansion is `KdfError`.
   */
  function SessionKey(p: Primitives, pairs: seq<DhPair>): Result<Bytes, XxxDhError> {
    match p.hkdf(Zeros(SSK_LEN), KeyMaterial(p, pairs), InfoBytes(), SSK_LEN)
    case None => Err(KdfError)
    case Some(k) => Ok(k)
  }

  /** The i-th DH output sits at bytes PK_LEN + 32i .. PK_LEN + 32(i+1) of the key material, after the zero prefix. */
  lemma {:induction false} KeyMaterialLayout(p: Primitives, pairs: seq<DhPair>, i: nat)
    requires i < |pairs|
    ensures |KeyMaterial(p, pairs)| == PK_LEN + SSK_LEN * |pairs|
    ensures KeyMaterial(p, pairs)[..PK_LEN] == Zeros(PK_LEN)
    ensures KeyMaterial(p, pairs)[PK_LEN + SSK_LEN * i .. PK_LEN + SSK_LEN * (i + 1)]
            == p.dh(pairs[i].secret, pairs[i].public)
  {
    var n := |pairs|;
    var front := DhOutputs(p, pairs[..n - 1]);
    assert DhOutputs(p, pairs) == front + p.dh(pairs[n - 1].secret, pairs[n - 1].public);
    if i < n - 1 {
      KeyMaterialLayout(p, pairs[..n - 1], i);
      assert KeyMaterial(p, pairs) == KeyMaterial(p, pairs[..n - 1]) + p.dh(pairs[n - 1].secret, pairs[n - 1].public);
    }
  }

  /**
   * `_derive_sk`: the key material is grown in a loop over the four pairs,
   * then expanded.
   */
  method DeriveSk(p: Primitives, pairs: seq<DhPair>) returns (r: Result<Bytes, XxxDhError>)
    requires |pairs| == 4
    ensures r == SessionKey(p, pairs)
  {
    var data := Zeros(PK_LEN);
    for i := 0 to 4
      invariant data == Zeros(PK_LEN) + DhOutputs(p, pairs[..i])
    {
      assert pairs[..i + 1][..i] == pairs[..i];
      data := data + p.dh(pairs[i].secret, pairs[i].public);
    }
    assert pairs[..4] == pairs;
    var h := p.hkdf(Zeros(SSK_LEN), data, InfoBytes(), SSK_LEN);
    if h.None? {
      return Err(KdfError);
    }
    r := Ok(h.value);
  }

  /** The sender's DH pairs: (IK_A, SPK_B), (EK_A, IK_B), (EK_A, SPK_B), (EK_A, OPK_B). */
  function SenderPairs(sender: Protocol, identityB: PublicKey, prekeyB: PublicKey, oneTimeB: PublicKey,
                       ephemeral: SecretKey): seq<DhPair>
  {
    [DhPair(sender.identity.secret, prekeyB),
     DhPair(ephemeral, identityB),
     DhPair(ephemeral, prekeyB),
     DhPair(ephemeral, oneTimeB)]
  }

  /** The receiver's DH pairs: (SPK_B, IK_A), (IK_B, EK_A), (SPK_B, EK_A), (OTK_B[0], EK_A). */
  function ReceiverPairs(receiver: Protocol, identityA: PublicKey, ephemeralA: PublicKey): seq<DhPair>
    requires receiver.oneTimeKeys.Some? && |receiver.oneTimeKeys.value| > 0
  {
    [DhPair(receiver.prekey.secret, identityA),
     DhPair(receiver.identity.secret, ephemeralA),
     DhPair(receiver.prekey.secret, ephemeralA),
     DhPair(receiver.oneTimeKeys.value[0].secret, ephemeralA)]
  }

  /** The sender's plaintext: its own identity public key, then the receiver's. */
  function InitPlaintext(sender: Protocol, identityB: PublicKey): (data: Bytes)
    ensures |data| == 2 * PK_LEN
    ensures data[..PK_LEN] == sender.identity.public && data[PK_LEN..] == identityB
  {
    sender.identity.public + identityB
  }

  /**
   * The result of `prepare_init_msg` for a receiver bundle whose prekey
   * signature verifies, given the ephemeral secret and nonce it draws.
   */
  function InitMsg(p: Primitives, sender: Protocol, identityB: PublicKey, prekeyB: PublicKey,
                   oneTimeB: PublicKey, ephemeral: SecretKey, nonce: Nonce): (r: Result<InitMessage, XxxDhError>)
    requires SealAccepts(p)
    ensures r.Ok? <==> SessionKey(p, SenderPairs(sender, identityB, prekeyB, oneTimeB, ephemeral)).Ok?
    ensures r.Ok? ==> && r.value.senderIdentity == sender.identity.public
                      && r.value.ephemeralKey == p.toPublic(ephemeral)
                      && r.value.receiverOneTimeKey == oneTimeB
                      && r.value.nonce == nonce
                      && Ok(r.value.sk) == SessionKey(p, SenderPairs(sender, identityB, prekeyB, oneTimeB, ephemeral))
                      && p.seal(r.value.sk, nonce, sender.identity.public + identityB) == Some(r.value.ciphertext)
  {
    match SessionKey(p, SenderPairs(sender, identityB, prekeyB, oneTimeB, ephemeral))
    case Err(e) => Err(e)
    case Ok(sk) =>
      var sealed := p.seal(sk, nonce, InitPlaintext(sender, identityB));
      Ok(InitMessage(sender.identity.public, p.toPublic(ephemeral), oneTimeB, sk, nonce, sealed.value))
  }

  /**
   * `prepare_init_msg`.  The signature check is `unwrap`ped, so a bad prekey
   * signature is a panic, not an error: it is a precondition here, as is the
   * law that encrypting the 64-byte plaintext cannot fail (also `unwrap`ped).
   */
  method PrepareInitMsg(p: Primitives, sender: Protocol, identityB: PublicKey, prekeyB: PublicKey,
                        signatureB: Signature, oneTimeB: PublicKey, ephemeral: SecretKey, nonce: Nonce)
    returns (r: Result<InitMessage, XxxDhError>)
    requires p.verify(identityB, prekeyB, signatureB)
    requires SealAccepts(p)
    ensures r == InitMsg(p, sender, identityB, prekeyB, oneTimeB, ephemeral, nonce)
    ensures r.Ok? ==> && r.value.senderIdentity == sender.identity.public
                      && r.value.ephemeralKey == p.toPublic(ephemeral)
                      && r.value.receiverOneTimeKey == oneTimeB
                      && r.value.nonce == nonce
                      && Ok(r.value.sk) == SessionKey(p, SenderPairs(sender, identityB, prekeyB, oneTimeB, ephemeral))
                      && p.seal(r.value.sk, nonce, sender.identity.public + identityB) == Some(r.value.ciphertext)
  {
    var derived := DeriveSk(p, [DhPair(sender.identity.secret, prekeyB), DhPair(ephemeral, identityB),
                                DhPair(ephemeral, prekeyB), DhPair(ephemeral, oneTimeB)]);
    if derived.Err? {
      return Err(derived.error);
    }
    var sk := derived.value;
    var data := sender.identity.public;
    data := data + identityB;
    var sealed := p.seal(sk, nonce, data);
    r := Ok(InitMessage(sender.identity.public, p.toPublic(ephemeral), oneTimeB, sk, nonce, sealed.value));
  }

  /**
   * The result of `derive_shared_secret`: the key from the receiver's pairs,
   * once the ciphertext authenticates under it.
   */
  function SharedSecret(p: Primitives, receiver: Protocol, identityA: PublicKey, ephemeralA: PublicKey,
                        nonce: Bytes, ciphertext: Bytes): Result<Bytes, XxxDhError>
    requires receiver.oneTimeKeys.Some? && |receiver.oneTimeKeys.value| > 0
  {
    match SessionKey(p, ReceiverPairs(receiver, identityA, ephemeralA))
    case Err(e) => Err(e)
    case Ok(sk) => if p.open(sk, nonce, ciphertext).None? then Err(AeadError) else Ok(sk)
  }

  /**
   * `derive_shared_secret`.  It always uses the first stored one-time key pair,
   * whatever `receiverOneTime` says (the result does not depend on it); with
   * no stored list or an empty one the `unwrap`s panic, hence the precondition.
   */
  method DeriveSharedSecret(p: Primitives, receiver: Protocol, identityA: PublicKey, ephemeralA: PublicKey,
                            receiverOneTime: PublicKey, nonce: Bytes, ciphertext: Bytes)
    returns (r: Result<Bytes, XxxDhError>)
    requires receiver.oneTimeKeys.Some? && |receiver.oneTimeKeys.value| > 0
    ensures r == SharedSecret(p, receiver, identityA, ephemeralA, nonce, ciphertext)
    ensures r.Err? <==> (SessionKey(p, ReceiverPairs(receiver, identityA, ephemeralA)).Err?
                         || p.open(SessionKey(p, ReceiverPairs(receiver, identityA, ephemeralA)).value,
                                   nonce, ciphertext).None?)
  {
    var identitySecret := receiver.identity.secret;
    var prekeySecret := receiver.prekey.secret;
    var storage := receiver.oneTimeKeys.value;
    var oneTime := storage[0];
    var derived := DeriveSk(p, [DhPair(prekeySecret, identityA), DhPair(identitySecret, ephemeralA),
                                DhPair(prekeySecret, ephemeralA), DhPair(oneTime.secret, ephemeralA)]);
    if derived.Err? {
      return Err(derived.error);
    }
    var sk := derived.value;
    if p.open(sk, nonce, ciphertext).None? {
      return Err(AeadError);
    }
    r := Ok(sk);
  }

  /** With a working KDF the sender's side never fails: it yields a 32-byte key. */
  lemma InitMsgSucceeds(p: Primitives, sender: Protocol, identityB: PublicKey, prekeyB: PublicKey,
                        oneTimeB: PublicKey, ephemeral: SecretKey, nonce: Nonce)
    requires SealAccepts(p) && KdfExpands(p)
    ensures InitMsg(p, sender, identityB, prekeyB, oneTimeB, ephemeral, nonce).Ok?
    ensures |InitMsg(p, sender, identityB, prekeyB, oneTimeB, ephemeral, nonce).value.sk| == SSK_LEN
  {
    var pairs := SenderPairs(sender, identityB, prekeyB, oneTimeB, ephemeral);
    assert p.hkdf(Zeros(SSK_LEN), KeyMaterial(p, pairs), InfoBytes(), SSK_LEN).Some?;
  }

  /** Both sides concatenate the same DH outputs when every key pair is a generated one. */
  lemma {:induction false} SameKeyMaterial(p: Primitives, sender: Protocol, receiver: Protocol, ephemeral: SecretKey)
    requires DhCommutes(p)
    requires Generated(p, sender.identity) && Generated(p, receiver.identity) && Generated(p, receiver.prekey)
    requires receiver.oneTimeKeys.Some? && |receiver.oneTimeKeys.value| > 0
    requires Generated(p, receiver.oneTimeKeys.value[0])
    ensures KeyMaterial(p, SenderPairs(sender, receiver.identity.public, receiver.prekey.public,
                                       receiver.oneTimeKeys.value[0].public, ephemeral))
         == KeyMaterial(p, ReceiverPairs(receiver, sender.identity.public, p.toPublic(ephemeral)))
  {
    var s := SenderPairs(sender, receiver.identity.public, receiver.prekey.public,
                         receiver.oneTimeKeys.value[0].public, ephemeral);
    var r := ReceiverPairs(receiver, sender.identity.public, p.toPublic(ephemeral));
    forall i | 0 <= i < 4
      ensures p.dh(s[i].secret, s[i].public) == p.dh(r[i].secret, r[i].public)
    {
    }
    SameOutputs(p, s, r);
  }

  /** Pairs that produce the same DH output one by one produce the same concatenation. */
  lemma {:induction false} SameOutputs(p: Primitives, s: seq<DhPair>, r: seq<DhPair>)
    requires |s| == |r|
    requires forall i :: 0 <= i < |s| ==> p.dh(s[i].secret, s[i].public) == p.dh(r[i].secret, r[i].public)
    ensures DhOutputs(p, s) == DhOutputs(p, r)
  {
    if s != [] {
      SameOutputs(p, s[..|s| - 1], r[..|r| - 1]);
    }
  }

  /**
   * Alice and Bob agree: when Alice's `prepare_init_msg` used Bob's identity,
   * prekey and first one-time public key, Bob's `derive_shared_secret` on her
   * message succeeds and returns her key.
   */
  lemma SecretsAgree(p: Primitives, alice: Protocol, bob: Protocol, ephemeral: SecretKey, nonce: Nonce)
    requires DhCommutes(p) && SealAccepts(p) && OpenInvertsSeal(p)
    requires Generated(p, alice.identity) && Generated(p, bob.identity) && Generated(p, bob.prekey)
    requires bob.oneTimeKeys.Some? && |bob.oneTimeKeys.value| > 0 && Generated(p, bob.oneTimeKeys.value[0])
    ensures var sent := InitMsg(p, alice, bob.identity.public, bob.prekey.public,
                                bob.oneTimeKeys.value[0].public, ephemeral, nonce);
            sent.Ok? ==> SharedSecret(p, bob, sent.value.senderIdentity, sent.value.ephemeralKey,
                                      sent.value.nonce, sent.value.ciphertext) == Ok(sent.value.sk)
  {
    SameKeyMaterial(p, alice, bob, ephemeral);
  }
}
