/**
 * The WebSocket client of the back end (src-tauri/src/socket.rs): the
 * request builders, the receive task that routes incoming frames, the reply
 * it crafts for a `fetch_bundle` answer, and `get_key_pair`.
 *
 * The connection itself is abstract: a socket's outgoing side is the list of
 * payloads it sent, its incoming side the list of items the stream will
 * yield.  The window that receives events and the shared message queue are
 * objects of their own, as the `ctx` clone and the `Arc` are in the code.
 * JSON parsing (`serde_json::from_str`) is the parameter `parse`.
 */
module Sockets {
  import opened Wrappers
  import opened Primitives
  import opened Util
  import opened Store
  import opened Xxxdh
  import opened X3dh

  /** What `MaybeTlsStream` the handshake produced. */
  datatype StreamKind = PlainStream | RustlsStream | OtherStream

  /** The `stream_type` text of a socket; the three kinds get three different texts. */
  function StreamType(k: StreamKind): (s: string)
    ensures s == "unencrypted" <==> k == PlainStream
    ensures s == "TLS" <==> k == RustlsStream
    ensures s == "not available" <==> k == OtherStream
  {
    match k
    case PlainStream => "unencrypted"
    case RustlsStream => "TLS"
    case OtherStream => "not available"
  }

  /** An event emitted to the web view. */
  datatype Event = MsgEvent(payload: MsgPayload) | RegisterTokenEvent(payload: MsgPayload) | ConnectionClosedEvent

  /** The event names the web view listens for. */
  function EventName(e: Event): (name: string)
    ensures name == "msg" <==> e.MsgEvent?
    ensures name == "register_token" <==> e.RegisterTokenEvent?
    ensures name == "connection_closed" <==> e.ConnectionClosedEvent?
  {
    match e
    case MsgEvent(_) => "msg"
    case RegisterTokenEvent(_) => "register_token"
    case ConnectionClosedEvent => "connection_closed"
  }

  /** A WebSocket message. `RawFrame` is `Message::Frame`. */
  datatype Frame = Text(txt: string) | Binary | Ping | Pong | Close | RawFrame

  /** The random draws `prepare_init_msg` makes while a frame is handled: ephemeral secret and nonce. */
  datatype Draw = Draw(ephemeral: SecretKey, nonce: Nonce)

  /** One item of the incoming stream: `Some(Ok(frame))` or `Some(Err(_))`; the end of the list is `None`. */
  datatype Incoming = Received(frame: Frame, draw: Draw) | StreamError

  /** What handling one frame does. */
  datatype Outcome = Emit(event: Event) | Queue(reply: MsgPayload) | Nothing | Panic

  /** `fetch_bundle`: the request for a user's bundle. */
  function FetchBundleRequest(user: string, token: string): (m: MsgPayload)
    ensures m.content == Absent && m.timestamp == 0
    ensures m.auth == Some(OpAuthPayload("fetch_bundle", user, "", None, ""))
    ensures m.token == token && m.author == "me" && m.recipient == ""
  {
    MsgPayload(Absent, 0, Some(OpAuthPayload("fetch_bundle", user, "", None, "")), token, "me", "")
  }

  /** `register`: the bundle goes into `auth.keybundle`; nothing else changes. */
  function RegisterPayload(auth: MsgPayload, kb: KeyBundle): (m: MsgPayload)
    ensures auth.auth.Some? ==> m.auth.Some? && m.auth.value.keybundle == Some(kb)
    ensures auth.auth.Some? ==> && m.auth.value.action == auth.auth.value.action
                                && m.auth.value.user == auth.auth.value.user
                                && m.auth.value.password == auth.auth.value.password
                                && m.auth.value.message == auth.auth.value.message
    ensures auth.auth.None? ==> m == auth
    ensures m.content == auth.content && m.timestamp == auth.timestamp && m.token == auth.token
    ensures m.author == auth.author && m.recipient == auth.recipient
  {
    match auth.auth
    case None => auth
    case Some(a) => auth.(auth := Some(a.(keybundle := Some(kb))))
  }

  /** A base64 public key, decoded and length-checked; `None` is a panicking `unwrap`. */
  function DecodePublic(p: Primitives, s: string): (r: Option<PublicKey>)
    ensures r.Some? <==> p.b64Decode(s).Some? && |p.b64Decode(s).value| == PK_LEN
    ensures r.Some? ==> r.value == p.b64Decode(s).value
  {
    match p.b64Decode(s)
    case None => None
    case Some(b) => PublicFromBytes(b)
  }

  /** A base64 signature, decoded and length-checked; `None` is a panicking `unwrap`. */
  function DecodeSignature(p: Primitives, s: string): (r: Option<Signature>)
    ensures r.Some? <==> p.b64Decode(s).Some? && |p.b64Decode(s).value| == SIG_LEN
    ensures r.Some? ==> r.value == p.b64Decode(s).value
  {
    match p.b64Decode(s)
    case None => None
    case Some(b) => SignatureFromBytes(b)
  }

  /** A base64 secret key (the empty text when absent), decoded and length-checked. */
  function DecodeSecret(p: Primitives, s: Option<string>): (r: Option<SecretKey>)
    ensures var text := if s.Some? then s.value else "";
            && (r.Some? <==> p.b64Decode(text).Some? && |p.b64Decode(text).value| == SK_LEN)
            && (r.Some? ==> r.value == p.b64Decode(text).value)
  {
    var text := match s case Some(v) => v case None => "";
    match p.b64Decode(text)
    case None => None
    case Some(b) => SecretFromBytes(b)
  }

  /**
   * The key pair `get_key_pair` returns: the decoded secret and public halves.
   * `None` is a panic: a half that does not decode to a key of the right length.
   */
  function KeyPairOf(p: Primitives, kp: KeyPairB64): (r: Option<KeyPair>)
    ensures r.Some? <==> DecodePublic(p, kp.public).Some? && DecodeSecret(p, kp.private).Some?
    ensures r.Some? ==> r.value == KeyPair(DecodeSecret(p, kp.private).value, DecodePublic(p, kp.public).value)
  {
    match (DecodePublic(p, kp.public), DecodeSecret(p, kp.private))
    case (Some(pub), Some(sec)) => KeyPairFromBytes(sec + pub)
    case _ => None
  }

  /** `get_key_pair`: the secret bytes with the public bytes appended, read back as a key pair. */
  method GetKeyPair(p: Primitives, kp: KeyPairB64) returns (r: Option<KeyPair>)
    ensures r == KeyPairOf(p, kp)
  {
    var alicePub := DecodePublic(p, kp.public);
    if alicePub.None? {
      return None;
    }
    var alicePriv := DecodeSecret(p, kp.private);
    if alicePriv.None? {
      return None;
    }
    var x := alicePub.value;
    var y: Bytes := alicePriv.value;
    y := y + x;
    assert y[..SK_LEN] == alicePriv.value && y[SK_LEN..] == alicePub.value;
    r := KeyPairFromBytes(y);
  }

  /** A pair as `get_keybundle` stores it reads back as the generated key pair. */
  lemma KeyPairOfEncoded(p: Primitives, secret: SecretKey)
    requires Base64RoundTrips(p)
    ensures KeyPairOf(p, EncodedPair(p, secret)) == Some(KeyPair(secret, p.toPublic(secret)))
  {
  }

  /** A stripped pair has no secret half to read: `get_key_pair` panics on it. */
  lemma KeyPairOfStripped(p: Primitives, kp: KeyPairB64)
    requires Base64RoundTrips(p)
    requires kp.private.None?
    ensures KeyPairOf(p, kp) == None
  {
    assert p.b64Decode(p.b64Encode([])) == Some([]);
  }

  /** The shape of the payload the receive task queues for a `fetch_bundle` answer. */
  ghost predicate ReplyShape(x: MsgPayload) {
    && x.content.Structured? && x.content.fields.cleartext == None
    && x.timestamp == 0
    && x.auth.Some?
    && x.auth.value.action == "" && x.auth.value.user == "" && x.auth.value.password == ""
    && x.auth.value.message == ""
    && x.auth.value.keybundle.Some?
    && NoPrivateHalves(x.auth.value.keybundle.value)
    && |x.auth.value.keybundle.value.oneTimeKeys| == 1
    && x.auth.value.keybundle.value.ephemeralKey.Some?
    && x.auth.value.keybundle.value.ephemeralKey.value.private == None
    && x.token == "" && x.author == "" && x.recipient == ""
  }

  /**
   * The crafted payload: Alice's public identity, prekey and signature, the
   * echoed one-time key of the receiver, the ephemeral key, and the ciphertext
   * and nonce of the initial message, all as base64.
   */
  function CraftedReply(p: Primitives, prekey: KeyPair, signature: Signature, m: InitMessage): (x: MsgPayload)
    ensures ReplyShape(x)
    ensures x.content.fields.ciphertext == p.b64Encode(m.ciphertext)
    ensures x.content.fields.nonce == p.b64Encode(m.nonce)
    ensures var kb := x.auth.value.keybundle.value;
            && kb.identity.public == p.b64Encode(m.senderIdentity)
            && kb.prekey.public == p.b64Encode(prekey.public)
            && kb.signature.public == p.b64Encode(signature)
            && kb.oneTimeKeys[0].public == p.b64Encode(m.receiverOneTimeKey)
            && kb.ephemeralKey.value.public == p.b64Encode(m.ephemeralKey)
  {
    var kb := KeyBundle(
      KeyPairB64(p.b64Encode(m.senderIdentity), None),
      KeyPairB64(p.b64Encode(prekey.public), None),
      KeyPairB64(p.b64Encode(signature), None),
      [KeyPairB64(p.b64Encode(m.receiverOneTimeKey), None)],
      Some(KeyPairB64(p.b64Encode(m.ephemeralKey), None)));
    MsgPayload(Structured(MsgContent(p.b64Encode(m.ciphertext), p.b64Encode(m.nonce), None)), 0,
               Some(OpAuthPayload("", "", "", Some(kb), "")), "", "", "")
  }

  /**
   * Handling a `fetch_bundle` answer: the receiver's bundle comes with the
   * answer, the sender's own bundle is the store entry under `recipient`.
   * Every `unwrap` that fails is `Panic`.
   */
  function FetchBundleOutcome(p: Primitives, entries: map<string, KeyBundle>, msg: MsgPayload, draw: Draw): (o: Outcome)
    requires SealAccepts(p)
    requires msg.auth.Some?
    ensures o.Queue? || o.Panic?
    ensures o.Queue? ==> ReplyShape(o.reply)
    ensures msg.auth.value.keybundle.None? || msg.recipient !in entries ==> o.Panic?
    ensures o.Queue? ==>
              && msg.auth.value.keybundle.Some? && msg.recipient in entries
              && var rcvr := msg.auth.value.keybundle.value;
                 var sndr := entries[msg.recipient];
                 var kb := o.reply.auth.value.keybundle.value;
                 && KeyPairOf(p, sndr.identity).Some? && KeyPairOf(p, sndr.prekey).Some?
                 && DecodeSignature(p, sndr.signature.public).Some?
                 && DecodePublic(p, rcvr.identity.public).Some? && DecodePublic(p, rcvr.prekey.public).Some?
                 && DecodeSignature(p, rcvr.signature.public).Some?
                 && p.verify(DecodePublic(p, rcvr.identity.public).value, DecodePublic(p, rcvr.prekey.public).value,
                             DecodeSignature(p, rcvr.signature.public).value)
                 && |rcvr.oneTimeKeys| > 0 && DecodePublic(p, rcvr.oneTimeKeys[0].public).Some?
                 && kb.identity.public == p.b64Encode(KeyPairOf(p, sndr.identity).value.public)
                 && kb.prekey.public == p.b64Encode(KeyPairOf(p, sndr.prekey).value.public)
                 && kb.signature.public == p.b64Encode(DecodeSignature(p, sndr.signature.public).value)
                 && kb.oneTimeKeys[0].public == p.b64Encode(DecodePublic(p, rcvr.oneTimeKeys[0].public).value)
                 && kb.ephemeralKey.value.public == p.b64Encode(p.toPublic(draw.ephemeral))
                 && o.reply.content.fields.nonce == p.b64Encode(draw.nonce)
  {
    match msg.auth.value.keybundle
    case None => Panic
    case Some(rcvr) =>
      if msg.recipient !in entries then Panic
      else
        var sndr := entries[msg.recipient];
        match (KeyPairOf(p, sndr.identity), KeyPairOf(p, sndr.prekey), DecodeSignature(p, sndr.signature.public),
               DecodePublic(p, rcvr.identity.public), DecodePublic(p, rcvr.prekey.public),
               DecodeSignature(p, rcvr.signature.public))
        case (Some(aliceIdentity), Some(alicePrekey), Some(aliceSignature), Some(bobIdentity), Some(bobPrekey),
              Some(bobSignature)) =>
          if |rcvr.oneTimeKeys| == 0 then Panic
          else
            (match DecodePublic(p, rcvr.oneTimeKeys[0].public)
             case None => Panic
             case Some(bobOneTime) =>
               if !p.verify(bobIdentity, bobPrekey, bobSignature) then Panic
               else
                 var alice := Protocol(aliceIdentity, alicePrekey, aliceSignature, None);
                 match InitMsg(p, alice, bobIdentity, bobPrekey, bobOneTime, draw.ephemeral, draw.nonce)
                 case Err(_) => Panic
                 case Ok(m) => Queue(CraftedReply(p, alicePrekey, aliceSignature, m)))
        case _ => Panic
  }

  /** The payload a frame parses to, if it is a text frame that parses. */
  function Parsed(parse: string -> Option<MsgPayload>, frame: Frame): Option<MsgPayload> {
    if frame.Text? then parse(frame.txt) else None
  }

  /** A parsed text frame whose `auth` has the given action. */
  predicate HasAction(parse: string -> Option<MsgPayload>, frame: Frame, action: string) {
    Parsed(parse, frame).Some? && Parsed(parse, frame).value.auth.Some?
    && Parsed(parse, frame).value.auth.value.action == action
  }

  /** The frames whose handler is `todo!()`. */
  predicate Unhandled(frame: Frame) {
    frame.Binary? || frame.Ping? || frame.Pong? || frame.RawFrame?
  }

  /** One turn of the receive loop. */
  function Route(p: Primitives, parse: string -> Option<MsgPayload>, entries: map<string, KeyBundle>,
                 frame: Frame, draw: Draw): (o: Outcome)
    requires SealAccepts(p)
    ensures frame.Close? ==> o == Nothing
    ensures Unhandled(frame) ==> o == Panic
    ensures frame.Text? && parse(frame.txt).None? ==> o == Nothing
    ensures Parsed(parse, frame).Some? && Parsed(parse, frame).value.auth.None? ==>
              o == Emit(MsgEvent(Parsed(parse, frame).value))
    ensures HasAction(parse, frame, "register") || HasAction(parse, frame, "login") ==>
              o == (if Parsed(parse, frame).value.token != "" then Emit(RegisterTokenEvent(Parsed(parse, frame).value))
                    else Nothing)
    ensures HasAction(parse, frame, "fetch_bundle") ==>
              o == FetchBundleOutcome(p, entries, Parsed(parse, frame).value, draw)
    ensures (&& Parsed(parse, frame).Some? && Parsed(parse, frame).value.auth.Some?
             && !HasAction(parse, frame, "register") && !HasAction(parse, frame, "login")
             && !HasAction(parse, frame, "fetch_bundle")) ==> o == Nothing
    ensures o.Emit? ==> o.event != ConnectionClosedEvent
    ensures o.Queue? ==> ReplyShape(o.reply)
  {
    match frame
    case Text(txt) =>
      (match parse(txt)
       case None => Nothing
       case Some(msg) =>
         match msg.auth
         case None => Emit(MsgEvent(msg))
         case Some(v) =>
           if v.action == "register" || v.action == "login" then
             if msg.token != "" then Emit(RegisterTokenEvent(msg)) else Nothing
           else if v.action == "fetch_bundle" then FetchBundleOutcome(p, entries, msg, draw)
           else Nothing)
    case Close => Nothing
    case _ => Panic
  }

  /** How the receive task ends: the stream ended, or a handler panicked. */
  datatype TaskEnd = Closed | Panicked

  /** Everything the receive task does with a stream, in order. */
  datatype Trace = Trace(events: seq<Event>, queued: seq<MsgPayload>, end: TaskEnd)

  /**
   * The receive task run over the whole stream, with the store as it is.
   * Each frame gives at most one event or one reply; the end of the stream
   * gives the one `connection_closed`.
   */
  function Drain(p: Primitives, parse: string -> Option<MsgPayload>, entries: map<string, KeyBundle>,
                 items: seq<Incoming>): (t: Trace)
    requires SealAccepts(p)
    ensures |t.events| + |t.queued| <= |items| + 1
    ensures t.end == Panicked ==> |t.events| + |t.queued| < |items|
    decreases |items|
  {
    if items == [] || items[0].StreamError? then Trace([ConnectionClosedEvent], [], Closed)
    else
      var rest := Drain(p, parse, entries, items[1..]);
      match Route(p, parse, entries, items[0].frame, items[0].draw)
      case Emit(e) => rest.(events := [e] + rest.events)
      case Queue(x) => rest.(queued := [x] + rest.queued)
      case Nothing => rest
      case Panic => Trace([], [], Panicked)
  }

  /**
   * A task that reaches the end of its stream emits `connection_closed`
   * exactly once, as its last event; one that panics never emits it.
   */
  lemma {:induction false} DrainClosesOnce(p: Primitives, parse: string -> Option<MsgPayload>,
                                           entries: map<string, KeyBundle>, items: seq<Incoming>)
    requires SealAccepts(p)
    ensures var t := Drain(p, parse, entries, items);
            && (t.end == Closed ==> |t.events| > 0 && t.events[|t.events| - 1] == ConnectionClosedEvent)
            && (t.end == Closed ==> forall i :: 0 <= i < |t.events| - 1 ==> t.events[i] != ConnectionClosedEvent)
            && (t.end == Panicked ==> forall i :: 0 <= i < |t.events| ==> t.events[i] != ConnectionClosedEvent)
    decreases |items|
  {
    if items != [] && items[0].Received? {
      DrainClosesOnce(p, parse, entries, items[1..]);
      DrainStep(p, parse, entries, items);
      var o := Route(p, parse, entries, items[0].frame, items[0].draw);
      var u := Drain(p, parse, entries, items[1..]);
      if o.Emit? {
        var ev := [o.event] + u.events;
        assert forall i :: 0 < i < |ev| ==> ev[i] == u.events[i - 1];
      }
    }
  }

  /** Everything the task queues is a crafted `fetch_bundle` reply. */
  lemma {:induction false} DrainQueuesReplies(p: Primitives, parse: string -> Option<MsgPayload>,
                                              entries: map<string, KeyBundle>, items: seq<Incoming>)
    requires SealAccepts(p)
    ensures var t := Drain(p, parse, entries, items);
            forall i :: 0 <= i < |t.queued| ==> ReplyShape(t.queued[i])
    decreases |items|
  {
    if items != [] && items[0].Received? {
      DrainQueuesReplies(p, parse, entries, items[1..]);
      DrainStep(p, parse, entries, items);
      var o := Route(p, parse, entries, items[0].frame, items[0].draw);
      var q := Drain(p, parse, entries, items[1..]).queued;
      if o.Queue? {
        forall i | 0 <= i < |[o.reply] + q|
          ensures ReplyShape(([o.reply] + q)[i])
        {
          if i > 0 {
            assert ([o.reply] + q)[i] == q[i - 1];
          }
        }
      }
    }
  }

  /** One frame of the stream: its outcome comes first, then the rest of the stream, unless it panics. */
  lemma DrainStep(p: Primitives, parse: string -> Option<MsgPayload>, entries: map<string, KeyBundle>,
                  items: seq<Incoming>)
    requires SealAccepts(p)
    requires items != [] && items[0].Received?
    ensures var o := Route(p, parse, entries, items[0].frame, items[0].draw);
            var u := Drain(p, parse, entries, items[1..]);
            Drain(p, parse, entries, items)
              == if o.Panic? then Trace([], [], Panicked)
                 else Trace((if o.Emit? then [o.event] else []) + u.events,
                            (if o.Queue? then [o.reply] else []) + u.queued, u.end)
  {
    var u := Drain(p, parse, entries, items[1..]);
    assert [] + u.events == u.events;
    assert [] + u.queued == u.queued;
  }

  /** A stream with no `todo!()` frame and no `fetch_bundle` answer never panics the task. */
  lemma {:induction false} DrainWithoutPanic(p: Primitives, parse: string -> Option<MsgPayload>,
                                             entries: map<string, KeyBundle>, items: seq<Incoming>)
    requires SealAccepts(p)
    requires forall i :: 0 <= i < |items| && items[i].Received? ==>
               !Unhandled(items[i].frame) && !HasAction(parse, items[i].frame, "fetch_bundle")
    ensures Drain(p, parse, entries, items).end == Closed
    ensures Drain(p, parse, entries, items).queued == []
    decreases |items|
  {
    if items != [] && items[0].Received? {
      DrainWithoutPanic(p, parse, entries, items[1..]);
    }
  }

  /** A stream of chat messages (text frames without `auth`) is emitted as `msg` events in arrival order. */
  lemma {:induction false} DrainMessagesInOrder(p: Primitives, parse: string -> Option<MsgPayload>,
                                                entries: map<string, KeyBundle>, items: seq<Incoming>)
    requires SealAccepts(p)
    requires forall i :: 0 <= i < |items| ==> items[i].Received? && Parsed(parse, items[i].frame).Some?
                                              && Parsed(parse, items[i].frame).value.auth.None?
    ensures Drain(p, parse, entries, items).events
         == seq(|items|, i requires 0 <= i < |items| => MsgEvent(Parsed(parse, items[i].frame).value))
            + [ConnectionClosedEvent]
    decreases |items|
  {
    if items != [] {
      DrainMessagesInOrder(p, parse, entries, items[1..]);
    }
  }

  /**
   * A `fetch_bundle` answer carrying Bob's published bundle, handled by a
   * client whose store holds Alice's bundle as `get_keybundle` wrote it, is
   * queued as a reply; no `unwrap` panics.
   */
  lemma FetchBundleSucceeds(p: Primitives, entries: map<string, KeyBundle>, msg: MsgPayload, draw: Draw,
                            aliceIdentity: SecretKey, alicePrekey: SecretKey, aliceOneTime: seq<SecretKey>,
                            bobIdentity: SecretKey, bobPrekey: SecretKey, bobOneTime: seq<SecretKey>)
    requires SealAccepts(p) && KdfExpands(p) && SignaturesVerify(p) && Base64RoundTrips(p)
    requires msg.auth.Some? && |bobOneTime| > 0
    requires msg.auth.value.keybundle == Some(GeneratedBundle(p, bobIdentity, bobPrekey, bobOneTime).Stripped())
    requires msg.recipient in entries
    requires entries[msg.recipient] == GeneratedBundle(p, aliceIdentity, alicePrekey, aliceOneTime)
    ensures var o := FetchBundleOutcome(p, entries, msg, draw);
            var alice := Protocol(KeyPair(aliceIdentity, p.toPublic(aliceIdentity)),
                                  KeyPair(alicePrekey, p.toPublic(alicePrekey)),
                                  PrekeySignature(p, aliceIdentity, alicePrekey), None);
            var m := InitMsg(p, alice, p.toPublic(bobIdentity), p.toPublic(bobPrekey), p.toPublic(bobOneTime[0]),
                             draw.ephemeral, draw.nonce);
            && o.Queue? && m.Ok?
            && var kb := o.reply.auth.value.keybundle.value;
               && kb.identity.public == p.b64Encode(p.toPublic(aliceIdentity))
               && kb.prekey.public == p.b64Encode(p.toPublic(alicePrekey))
               && kb.signature.public == p.b64Encode(PrekeySignature(p, aliceIdentity, alicePrekey))
               && kb.oneTimeKeys[0].public == p.b64Encode(p.toPublic(bobOneTime[0]))
               && kb.ephemeralKey.value.public == p.b64Encode(p.toPublic(draw.ephemeral))
               && o.reply.content.fields.ciphertext == p.b64Encode(m.value.ciphertext)
               && o.reply.content.fields.nonce == p.b64Encode(draw.nonce)
  {
    var rcvr := msg.auth.value.keybundle.value;
    var sndr := entries[msg.recipient];
    KeyPairOfEncoded(p, aliceIdentity);
    KeyPairOfEncoded(p, alicePrekey);
    var bobSig := PrekeySignature(p, bobIdentity, bobPrekey);
    assert DecodeSignature(p, sndr.signature.public).Some?;
    assert DecodePublic(p, rcvr.identity.public) == Some(p.toPublic(bobIdentity));
    assert DecodePublic(p, rcvr.prekey.public) == Some(p.toPublic(bobPrekey));
    assert DecodeSignature(p, rcvr.signature.public) == Some(bobSig);
    assert rcvr.oneTimeKeys[0].public == p.b64Encode(p.toPublic(bobOneTime[0]));
    assert DecodePublic(p, rcvr.oneTimeKeys[0].public) == Some(p.toPublic(bobOneTime[0]));
    assert p.verify(p.toPublic(bobIdentity), p.toPublic(bobPrekey), bobSig);
    assert DecodeSignature(p, sndr.signature.public) == Some(PrekeySignature(p, aliceIdentity, alicePrekey));
    var alice := Protocol(KeyPair(aliceIdentity, p.toPublic(aliceIdentity)),
                          KeyPair(alicePrekey, p.toPublic(alicePrekey)),
                          PrekeySignature(p, aliceIdentity, alicePrekey), None);
    InitMsgSucceeds(p, alice, p.toPublic(bobIdentity), p.toPublic(bobPrekey), p.toPublic(bobOneTime[0]),
                    draw.ephemeral, draw.nonce);
  }

  /** One `Step` keeps the receive task on the course `Drain` sets for the whole stream. */
  lemma StepKeepsTrace(p: Primitives, parse: string -> Option<MsgPayload>, entries: map<string, KeyBundle>,
                       before: seq<Incoming>, after: seq<Incoming>,
                       eventsBefore: seq<Event>, eventsAfter: seq<Event>,
                       itemsBefore: seq<MsgPayload>, itemsAfter: seq<MsgPayload>,
                       status: TaskStatus, events0: seq<Event>, items0: seq<MsgPayload>, t: Trace)
    requires SealAccepts(p)
    requires var u := Drain(p, parse, entries, before);
             && eventsBefore + u.events == events0 + t.events
             && itemsBefore + u.queued == items0 + t.queued
             && u.end == t.end
    requires before == [] || before[0].StreamError? ==>
               && status == Finished
               && eventsAfter == eventsBefore + [ConnectionClosedEvent]
               && itemsAfter == itemsBefore
    requires before != [] && before[0].Received? ==>
               var o := Route(p, parse, entries, before[0].frame, before[0].draw);
               && after == before[1..]
               && status == (if o.Panic? then TaskPanicked else Running)
               && eventsAfter == eventsBefore + (if o.Emit? then [o.event] else [])
               && itemsAfter == itemsBefore + (if o.Queue? then [o.reply] else [])
    ensures status == Running ==>
              var u := Drain(p, parse, entries, after);
              && eventsAfter + u.events == events0 + t.events
              && itemsAfter + u.queued == items0 + t.queued
              && u.end == t.end
    ensures status != Running ==>
              && eventsAfter == events0 + t.events
              && itemsAfter == items0 + t.queued
              && status == (if t.end == Closed then Finished else TaskPanicked)
  {
    if before != [] && before[0].Received? {
      DrainStep(p, parse, entries, before);
      ApplyOutcome(Route(p, parse, entries, before[0].frame, before[0].draw),
                   Drain(p, parse, entries, before), Drain(p, parse, entries, after),
                   eventsBefore, eventsAfter, itemsBefore, itemsAfter, status, events0, items0, t);
    }
  }

  /** The bookkeeping of `StepKeepsTrace` for one outcome, with the traces as plain values. */
  lemma ApplyOutcome(o: Outcome, whole: Trace, u: Trace,
                     eventsBefore: seq<Event>, eventsAfter: seq<Event>,
                     itemsBefore: seq<MsgPayload>, itemsAfter: seq<MsgPayload>,
                     status: TaskStatus, events0: seq<Event>, items0: seq<MsgPayload>, t: Trace)
    requires whole == if o.Panic? then Trace([], [], Panicked)
                      else Trace((if o.Emit? then [o.event] else []) + u.events,
                                 (if o.Queue? then [o.reply] else []) + u.queued, u.end)
    requires eventsBefore + whole.events == events0 + t.events
    requires itemsBefore + whole.queued == items0 + t.queued
    requires whole.end == t.end
    requires status == (if o.Panic? then TaskPanicked else Running)
    requires eventsAfter == eventsBefore + (if o.Emit? then [o.event] else [])
    requires itemsAfter == itemsBefore + (if o.Queue? then [o.reply] else [])
    ensures status == Running ==>
              && eventsAfter + u.events == events0 + t.events
              && itemsAfter + u.queued == items0 + t.queued
              && u.end == t.end
    ensures status != Running ==>
              && eventsAfter == events0 + t.events
              && itemsAfter == items0 + t.queued
              && status == (if t.end == Closed then Finished else TaskPanicked)
  {
    if !o.Panic? {
      assert eventsAfter + u.events == eventsBefore + ((if o.Emit? then [o.event] else []) + u.events);
      assert itemsAfter + u.queued == itemsBefore + ((if o.Queue? then [o.reply] else []) + u.queued);
    } else {
      assert eventsBefore + [] == eventsBefore;
      assert itemsBefore + [] == itemsBefore;
    }
  }

  /** The shared message queue (`Arc<Mutex<Vec<MsgPayload>>>`). */
  class MsgQueue {
    var items: seq<MsgPayload>

    constructor ()
      ensures items == []
    {
      items := [];
    }
  }

  /** The web view: the events emitted to it, in order. */
  class Window {
    var events: seq<Event>

    constructor ()
      ensures events == []
    {
      events := [];
    }
  }

  datatype TaskStatus = Running | Finished | TaskPanicked

  /** The task `recv_msg` spawns, with the part of the stream it has not read yet. */
  class ReceiveTask {
    const window: Window
    const queue: MsgQueue
    var rest: seq<Incoming>
    var status: TaskStatus

    constructor (window: Window, queue: MsgQueue, items: seq<Incoming>)
      ensures this.window == window && this.queue == queue && rest == items && status == Running
    {
      this.window := window;
      this.queue := queue;
      rest := items;
      status := Running;
    }

    /** One turn of `while let Some(Ok(msg)) = ws_rcvr.next().await`, with the store as it is now. */
    method Step(p: Primitives, parse: string -> Option<MsgPayload>, store: CredentialStore)
      requires SealAccepts(p) && status == Running
      modifies this, window, queue
      ensures old(rest) == [] || old(rest)[0].StreamError? ==>
                && status == Finished && rest == old(rest)
                && window.events == old(window.events) + [ConnectionClosedEvent]
                && queue.items == old(queue.items)
      ensures old(rest) != [] && old(rest)[0].Received? ==>
                var o := Route(p, parse, store.entries, old(rest)[0].frame, old(rest)[0].draw);
                && rest == old(rest)[1..]
                && status == (if o.Panic? then TaskPanicked else Running)
                && window.events == old(window.events) + (if o.Emit? then [o.event] else [])
                && queue.items == old(queue.items) + (if o.Queue? then [o.reply] else [])
    {
      if rest == [] || rest[0].StreamError? {
        window.events := window.events + [ConnectionClosedEvent];
        status := Finished;
        return;
      }
      var item := rest[0];
      rest := rest[1..];
      var o := Route(p, parse, store.entries, item.frame, item.draw);
      match o {
        case Emit(e) => window.events := window.events + [e];
        case Queue(x) => queue.items := queue.items + [x];
        case Nothing =>
        case Panic => status := TaskPanicked;
      }
    }

    /** The task run to its end while the store does not change: exactly what `Drain` says. */
    method Run(p: Primitives, parse: string -> Option<MsgPayload>, store: CredentialStore)
      requires SealAccepts(p) && status == Running
      modifies this, window, queue
      ensures var t := Drain(p, parse, store.entries, old(rest));
              && window.events == old(window.events) + t.events
              && queue.items == old(queue.items) + t.queued
              && status == (if t.end == Closed then Finished else TaskPanicked)
    {
      ghost var t := Drain(p, parse, store.entries, rest);
      ghost var events0 := window.events;
      ghost var items0 := queue.items;
      while status == Running
        invariant status == Running ==>
                    var u := Drain(p, parse, store.entries, rest);
                    && window.events + u.events == events0 + t.events
                    && queue.items + u.queued == items0 + t.queued
                    && u.end == t.end
        invariant status != Running ==>
                    && window.events == events0 + t.events
                    && queue.items == items0 + t.queued
                    && status == (if t.end == Closed then Finished else TaskPanicked)
        decreases |rest|, if status == Running then 1 else 0
      {
        ghost var before := rest;
        ghost var eventsBefore := window.events;
        ghost var itemsBefore := queue.items;
        Step(p, parse, store);
        StepKeepsTrace(p, parse, store.entries, before, rest, eventsBefore, window.events, itemsBefore, queue.items,
                       status, events0, items0, t);
      }
    }
  }

  /** A connected socket: the sending half, the not yet taken receiving half, and the queue. */
  class Socket {
    const ctx: Window
    const streamType: string
    const msgQueue: MsgQueue
    var wsRcvr: Option<seq<Incoming>>
    /** Payloads sent so far, in order. */
    var sent: seq<MsgPayload>
    var open: bool

    /** `Socket::new` after a successful handshake of the given kind. */
    constructor (ctx: Window, kind: StreamKind, items: seq<Incoming>)
      ensures this.ctx == ctx && streamType == StreamType(kind) && wsRcvr == Some(items)
      ensures fresh(msgQueue) && msgQueue.items == [] && sent == [] && open
    {
      this.ctx := ctx;
      streamType := StreamType(kind);
      msgQueue := new MsgQueue();
      wsRcvr := Some(items);
      sent := [];
      open := true;
    }

    /** `send_msg`; `delivered` is whether the WebSocket send succeeded. */
    method SendMsg(msg: MsgPayload, delivered: bool) returns (r: Result<(), Error>)
      modifies this
      ensures delivered ==> r == Ok(()) && sent == old(sent) + [msg]
      ensures !delivered ==> r == Err(Tung) && sent == old(sent)
      ensures wsRcvr == old(wsRcvr) && open == old(open)
    {
      if !delivered {
        return Err(Tung);
      }
      sent := sent + [msg];
      r := Ok(());
    }

    /** `fetch_bundle`. */
    method FetchBundle(user: string, token: string, delivered: bool) returns (r: Result<(), Error>)
      modifies this
      ensures delivered ==> r == Ok(()) && sent == old(sent) + [FetchBundleRequest(user, token)]
      ensures !delivered ==> r == Err(Tung) && sent == old(sent)
      ensures wsRcvr == old(wsRcvr) && open == old(open)
    {
      r := SendMsg(FetchBundleRequest(user, token), delivered);
    }

    /** `login`: the payload is sent as it is; its `auth` is `unwrap`ped for the log line. */
    method Login(auth: MsgPayload, delivered: bool) returns (r: Result<(), Error>)
      requires auth.auth.Some?
      modifies this
      ensures delivered ==> r == Ok(()) && sent == old(sent) + [auth]
      ensures !delivered ==> r == Err(Tung) && sent == old(sent)
      ensures wsRcvr == old(wsRcvr) && open == old(open)
    {
      r := SendMsg(auth, delivered);
    }

    /** `register`: the bundle is put into `auth.keybundle` in place, then the payload is sent. */
    method Register(auth: MsgPayload, kb: KeyBundle, delivered: bool) returns (r: Result<(), Error>)
      requires auth.auth.Some?
      modifies this
      ensures delivered ==> r == Ok(()) && sent == old(sent) + [RegisterPayload(auth, kb)]
      ensures !delivered ==> r == Err(Tung) && sent == old(sent)
      ensures wsRcvr == old(wsRcvr) && open == old(open)
    {
      var a := auth;
      if a.auth.Some? {
        var authData := a.auth.value;
        authData := authData.(keybundle := Some(kb));
        a := a.(auth := Some(authData));
      }
      r := SendMsg(a, delivered);
    }

    /** `recv_msg`: takes the receiving half (a second call panics) and spawns the task over it. */
    method RecvMsg() returns (task: ReceiveTask)
      requires wsRcvr.Some?
      modifies this
      ensures fresh(task) && task.window == ctx && task.queue == msgQueue
      ensures task.rest == old(wsRcvr.value) && task.status == Running
      ensures wsRcvr == None && sent == old(sent) && open == old(open)
    {
      var items := wsRcvr.value;
      wsRcvr := None;
      task := new ReceiveTask(ctx, msgQueue, items);
    }

    /** `close`; `ok` is whether closing the sending half succeeded. */
    method Close(ok: bool) returns (r: Result<(), Error>)
      modifies this
      ensures ok ==> r == Ok(()) && !open
      ensures !ok ==> r == Err(Tung) && open == old(open)
      ensures sent == old(sent) && wsRcvr == old(wsRcvr)
    {
      if !ok {
        return Err(Tung);
      }
      open := false;
      r := Ok(());
    }
  }
}
