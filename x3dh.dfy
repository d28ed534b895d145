/**
 * Key-bundle generation (`get_keybundle` in src-tauri/src/x3dh.rs) and the
 * secret-sharing test of that file.
 *
 * The random draws of `generate_with(OsRng)` are parameters: the identity
 * secret, the prekey secret and the ten one-time secrets, in drawing order.
 */
module X3dh {
  import opened Wrappers
  import opened Primitives
  import opened Util
  import opened Store
  import opened Xxxdh

  /** `for _i in 0..10`: the number of one-time key pairs in a new bundle. */
  const ONE_TIME_KEY_COUNT: nat := 10

  /** A generated key pair as base64 text, private half included. */
  function EncodedPair(p: Primitives, secret: SecretKey): (kp: KeyPairB64)
    ensures kp.private.Some?
  {
    KeyPairB64(p.b64Encode(p.toPublic(secret)), Some(p.b64Encode(secret)))
  }

  /** The prekey signature: the identity key's signature over the prekey's public bytes. */
  function PrekeySignature(p: Primitives, identity: SecretKey, prekey: SecretKey): Signature {
    p.sign(identity, p.toPublic(prekey))
  }

  /** The bundle `get_keybundle` builds and stores, before stripping. */
  function GeneratedBundle(p: Primitives, identity: SecretKey, prekey: SecretKey,
                           oneTime: seq<SecretKey>): (kb: KeyBundle)
    ensures kb.identity.private.Some? && kb.prekey.private.Some? && kb.signature.private.None?
    ensures kb.signature.public == p.b64Encode(PrekeySignature(p, identity, prekey))
    ensures |kb.oneTimeKeys| == |oneTime|
    ensures forall i :: 0 <= i < |oneTime| ==> kb.oneTimeKeys[i] == EncodedPair(p, oneTime[i])
    ensures kb.ephemeralKey == None
  {
    KeyBundle(EncodedPair(p, identity), EncodedPair(p, prekey),
              KeyPairB64(p.b64Encode(PrekeySignature(p, identity, prekey)), None),
              seq(|oneTime|, i requires 0 <= i < |oneTime| => EncodedPair(p, oneTime[i])),
              None)
  }

  /**
   * `get_keybundle`: ten one-time pairs are pushed in drawing order, the full
   * bundle is stored under the registering user's name and saved, and the
   * stripped copy is returned.  `auth.auth` must be present (it is
   * `unwrap`ped).
   */
  method GetKeyBundle(p: Primitives, store: CredentialStore, auth: MsgPayload,
                      identity: SecretKey, prekey: SecretKey, oneTime: seq<SecretKey>)
    returns (kb: KeyBundle)
    requires auth.auth.Some?
    requires |oneTime| == ONE_TIME_KEY_COUNT
    modifies store
    ensures store.entries == old(store.entries)[auth.auth.value.user := GeneratedBundle(p, identity, prekey, oneTime)]
    ensures store.persisted == store.entries
    ensures kb == GeneratedBundle(p, identity, prekey, oneTime).Stripped()
    ensures NoPrivateHalves(kb) && kb.ephemeralKey == None
    ensures SamePublicHalves(kb, store.entries[auth.auth.value.user])
  {
    var signature := p.sign(identity, p.toPublic(prekey));
    var otKp: seq<KeyPairB64> := [];
    for i := 0 to ONE_TIME_KEY_COUNT
      invariant |otKp| == i
      invariant forall j :: 0 <= j < i ==> otKp[j] == EncodedPair(p, oneTime[j])
    {
      var kp := KeyPairB64(p.b64Encode(p.toPublic(oneTime[i])), Some(p.b64Encode(oneTime[i])));
      otKp := otKp + [kp];
    }
    var publicKb := KeyBundle(
      KeyPairB64(p.b64Encode(p.toPublic(identity)), Some(p.b64Encode(identity))),
      KeyPairB64(p.b64Encode(p.toPublic(prekey)), Some(p.b64Encode(prekey))),
      KeyPairB64(p.b64Encode(signature), None),
      otKp,
      None);
    assert publicKb == GeneratedBundle(p, identity, prekey, oneTime);
    store.Set(auth.auth.value.user, publicKb);
    store.Save();
    kb := publicKb.Strip();
  }

  /** A new bundle has exactly ten one-time pairs, each with its private half, in drawing order. */
  lemma GeneratedOneTimeKeys(p: Primitives, identity: SecretKey, prekey: SecretKey, oneTime: seq<SecretKey>)
    requires |oneTime| == ONE_TIME_KEY_COUNT
    ensures var kb := GeneratedBundle(p, identity, prekey, oneTime);
            && |kb.oneTimeKeys| == 10
            && (forall i :: 0 <= i < 10 ==> kb.oneTimeKeys[i].private == Some(p.b64Encode(oneTime[i])))
            && (forall i :: 0 <= i < 10 ==> kb.oneTimeKeys[i].public == p.b64Encode(p.toPublic(oneTime[i])))
  {
  }

  /**
   * The secret-sharing test: Alice runs `prepare_init_msg` against Bob's
   * identity, prekey, prekey signature and one-time key; Bob runs
   * `derive_shared_secret` on her message; neither `unwrap` panics and the two
   * keys are equal.
   */
  method CheckSecretSharing(p: Primitives, aliceIdentity: SecretKey, alicePrekey: SecretKey,
                            oneTime: SecretKey, bobIdentity: SecretKey, bobPrekey: SecretKey,
                            ephemeral: SecretKey, nonce: Nonce)
    returns (aliceSk: Bytes, bobSk: Bytes)
    requires DhCommutes(p) && SignaturesVerify(p) && KdfExpands(p) && SealAccepts(p) && OpenInvertsSeal(p)
    ensures aliceSk == bobSk && |aliceSk| == SSK_LEN
  {
    var aliceId := KeyPair(aliceIdentity, p.toPublic(aliceIdentity));
    var alicePre := KeyPair(alicePrekey, p.toPublic(alicePrekey));
    var alice := Protocol(aliceId, alicePre, p.sign(aliceId.secret, alicePre.public), None);

    var oneTimePair := KeyPair(oneTime, p.toPublic(oneTime));
    var bobId := KeyPair(bobIdentity, p.toPublic(bobIdentity));
    var bobPre := KeyPair(bobPrekey, p.toPublic(bobPrekey));
    var bobSignature := p.sign(bobId.secret, bobPre.public);
    var bob := Protocol(bobId, bobPre, bobSignature, Some([oneTimePair]));

    var sent := PrepareInitMsg(p, alice, bobId.public, bobPre.public, bobSignature, oneTimePair.public,
                               ephemeral, nonce);
    InitMsgSucceeds(p, alice, bobId.public, bobPre.public, oneTimePair.public, ephemeral, nonce);
    var m := sent.value;

    var received := DeriveSharedSecret(p, bob, m.senderIdentity, m.ephemeralKey, m.receiverOneTimeKey,
                                       m.nonce, m.ciphertext);
    SecretsAgree(p, alice, bob, ephemeral, nonce);
    aliceSk, bobSk := m.sk, received.value;
  }
}
