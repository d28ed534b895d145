/**
 * The records exchanged between the Tauri back end, the server and the web view
 * (src-tauri/src/util.rs), and the `strip` operations that drop private key halves.
 *
 * The files come from several iterations that disagree on these records; the
 * model takes the superset that the call sites use: `KeyBundle` has the
 * `ephemeral_key` field set in x3dh.rs and socket.rs, `OpAuthPayload` has the
 * `message` field set in socket.rs, and `MsgPayload.content` is the sum of the
 * shapes in use (see `Content`).
 */
module Util {
  import opened Wrappers
  import opened Primitives

  /** A key pair as base64 text; `private` is absent once stripped. */
  datatype KeyPairB64 = KeyPairB64(public: string, private: Option<string>) {

    /** `KeyPairB64::strip`: only the private half is dropped. */
    function Stripped(): (r: KeyPairB64)
      ensures r.private == None && r.public == public
    {
      this.(private := None)
    }
  }

  /** A key bundle: identity key, signed prekey, prekey signature, one-time keys, optional ephemeral key. */
  datatype KeyBundle = KeyBundle(
    identity: KeyPairB64,
    prekey: KeyPairB64,
    signature: KeyPairB64,
    oneTimeKeys: seq<KeyPairB64>,
    ephemeralKey: Option<KeyPairB64>)
  {
    /** The bundle `KeyBundle::strip` leaves behind (it does not know the ephemeral key, so that stays as it is). */
    function Stripped(): (r: KeyBundle)
      ensures NoPrivateHalves(r) && SamePublicHalves(this, r)
      ensures r.ephemeralKey == ephemeralKey
    {
      KeyBundle(identity.Stripped(), prekey.Stripped(), signature.Stripped(),
                seq(|oneTimeKeys|, i requires 0 <= i < |oneTimeKeys| => oneTimeKeys[i].Stripped()),
                ephemeralKey)
    }

    /**
     * `KeyBundle::strip(&mut self)`: the three named pairs, then every one-time
     * key in place.  The bundle is a value here, so the method returns it.
     */
    method Strip() returns (r: KeyBundle)
      ensures NoPrivateHalves(r) && SamePublicHalves(this, r)
      ensures r.ephemeralKey == ephemeralKey
      ensures r == Stripped()
    {
      r := this.(identity := identity.Stripped());
      r := r.(prekey := prekey.Stripped());
      r := r.(signature := signature.Stripped());
      var keys := r.oneTimeKeys;
      var i := 0;
      while i < |keys|
        invariant 0 <= i <= |keys| == |oneTimeKeys|
        invariant forall j :: 0 <= j < i ==> keys[j] == oneTimeKeys[j].Stripped()
        invariant forall j :: i <= j < |keys| ==> keys[j] == oneTimeKeys[j]
      {
        keys := keys[i := keys[i].Stripped()];
        i := i + 1;
      }
      r := r.(oneTimeKeys := keys);
    }
  }

  /** None of the pairs `strip` touches holds a private half. */
  ghost predicate NoPrivateHalves(kb: KeyBundle) {
    && kb.identity.private.None?
    && kb.prekey.private.None?
    && kb.signature.private.None?
    && forall i :: 0 <= i < |kb.oneTimeKeys| ==> kb.oneTimeKeys[i].private.None?
  }

  /** Same public halves, and the same one-time keys in the same order. */
  ghost predicate SamePublicHalves(a: KeyBundle, b: KeyBundle) {
    && a.identity.public == b.identity.public
    && a.prekey.public == b.prekey.public
    && a.signature.public == b.signature.public
    && |a.oneTimeKeys| == |b.oneTimeKeys|
    && forall i :: 0 <= i < |a.oneTimeKeys| ==> a.oneTimeKeys[i].public == b.oneTimeKeys[i].public
  }

  /** Stripping twice is stripping once. */
  lemma StripIdempotent(kb: KeyBundle)
    ensures kb.Stripped().Stripped() == kb.Stripped()
  {
    var once := kb.Stripped();
    assert once.Stripped().oneTimeKeys == once.oneTimeKeys;
  }

  /** A stripped bundle is a fixed point: stripping a bundle without private halves changes nothing. */
  lemma StripKeepsPublicBundle(kb: KeyBundle)
    requires NoPrivateHalves(kb)
    ensures kb.Stripped() == kb
  {
    assert kb.Stripped().oneTimeKeys == kb.oneTimeKeys;
  }

  /** `MsgContent`: an end-to-end message body as base64 fields, with an optional cleartext. */
  datatype MsgContent = MsgContent(ciphertext: string, nonce: string, cleartext: Option<string>)

  /**
   * The `content` field.  util.rs:31 declares a `String` (`Plain`, the shape
   * `send_enc_msg` in lib.rs relies on); socket.rs and the web view use an
   * optional `MsgContent` (`Absent` or `Structured`; `Absent` is also JSON
   * `null` or a missing property).
   */
  datatype Content = Absent | Plain(text: string) | Structured(fields: MsgContent)

  /** The authentication part of a payload: login, register, fetch_bundle, or empty on a crafted reply. */
  datatype OpAuthPayload = OpAuthPayload(
    action: string,
    user: string,
    password: string,
    keybundle: Option<KeyBundle>,
    message: string)

  /** `timestamp: u64`. */
  type U64 = x: int | 0 <= x < 0x1_0000_0000_0000_0000

  datatype MsgPayload = MsgPayload(
    content: Content,
    timestamp: U64,
    auth: Option<OpAuthPayload>,
    token: string,
    author: string,
    recipient: string)

  /** What `connect_via_url` returns to the web view. */
  datatype ConnectionInfo = ConnectionInfo(host: string, streamType: string)

  /** The kinds of `util::Error`; their payloads are not modelled. */
  datatype Error = Io | Utf8 | Decode | Aes | Join | Tung | Serde | CustomError(message: string)
}
