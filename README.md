# CipherChat client core in Dafny

This project models the core of the CipherChat desktop client in Dafny and proves properties of that model. The client is a Tauri application: a Rust back end talks to a chat home server over a WebSocket, and a React web view sits on top.

The model covers:

- **X3DH key agreement** (`xxxdh.dfy`). This follows the sender's side (section 3.3 of Signal's "The X3DH Key Agreement Protocol"), the receiver's side (section 3.4) and the key derivation both sides share. The headline result is `Xxxdh.SecretsAgree`: when Alice uses Bob's identity key, signed prekey and first one-time key, Bob derives the key Alice derived.
- **Key bundles** (`x3dh.dfy`, `util.dfy`, `store.dfy`). A bundle is generated, stored with its private halves in the `credentials.bin` store, saved, and stripped before it is sent.
- **Password-based AES-256-GCM framing** (`crypt.dfy`). The key is cut from the hex SHA-256 digest of the password. The nonce is appended to the ciphertext and the result is base64-encoded. `Crypt.DecryptEncrypt` proves the round trip.
- **The WebSocket client** (`socket.dfy`):
  - the request builders
  - the receive task, which routes every incoming frame to a `msg` event, a `register_token` event, a queued reply, nothing, or a panic
  - the reply crafted for a `fetch_bundle` answer
  - the byte layout of `get_key_pair`

  `Sockets.Drain` describes a whole run of the task. `Sockets.ReceiveTask.Run` is proved to follow it step by step.
- **The Tauri commands** (`lib.dfy`). These form a state machine over the global `SOCKET` and `MAIN_WINDOW`.
- **The web view**:
  - `invocations.dfy`: the objects passed to `invoke`
  - `auth.dfy`: sign-in
  - `chat.dfy`: the chat list
  - `connection.dfy`: the connect dialog
  - `contact_dialog.dfy`: the contact dialog
  - `message.dfy`: message layout

Cryptography, encodings and JSON parsing are kept abstract:

- X25519-over-Ristretto DH, signatures, HKDF-SHA-256, AES-256-GCM, SHA-256, base64 (section 4 of RFC 4648) and UTF-8 are fields of a `Primitives.Primitives` value.
- The laws the code relies on are stated as ghost predicates, and members that need them require them:
  - `DhCommutes`
  - `SignaturesVerify`
  - `KdfExpands`
  - `SealAccepts`
  - `OpenInvertsSeal`
  - `Base64RoundTrips`
  - `Utf8RoundTrips`
  - `Utf8Width`

Anything the network, the random generator or the clock decides is a parameter:

- whether a send or a close succeeds
- what a handshake yields and which frames then arrive
- the generated secrets and nonces
- `Date.now()`

A panic (a failing `unwrap`, `todo!()`, an index underflow) is handled in one of two ways:

- in a top-level operation, it is a precondition;
- inside the spawned receive task, it is the `Panic` outcome, which stops the task.

Notes on the source that the model follows as written:

- **IKM prefix.** The key derivation puts 32 zero bytes in front of the DH outputs. Section 2.2 of the X3DH specification prescribes 0xFF bytes. The model uses zeros (`Xxxdh.KeyMaterialLayout`).
- **Receiver's one-time key.** `derive_shared_secret` ignores its `receiver_onetime_key` argument and always uses the first stored one-time key pair. It checks that the ciphertext authenticates, but never compares the plaintext with the expected identity keys.
- **Half the digest.** The AES key is the first 32 hex characters of the digest, so it depends on only the first 16 digest bytes (`Crypt.PasswordKeyIsHalfDigest`, `Crypt.SameKeyFromHalfDigest`).
- **Chat send has no token.** The object `sendMessage` in src/Chat.jsx passes to `send_msg` has no `token` property. `MsgPayload.token` is a required `String`, so the command cannot read its argument, and nothing is sent (`ChatView.SendStructRejected`). The message still shows in the local list.
- **Stripping.** `KeyBundle::strip` does not touch `ephemeral_key`, which the bundle carries in the iterations that have it.
- **Failed verify.** A signature in `fetch_bundle` that does not verify panics the receive task. The task then stops without emitting `connection_closed`. The same holds for every other failing `unwrap` there, and for `Binary`, `Ping`, `Pong` and raw frames.
- **Socket replacement.** `init_conn` replaces `SOCKET` without closing the previous socket. The previous receive task keeps running (`Lib.Backend.InitConn`).
- **No main window.** Without a main window, `connect_via_url` succeeds. It reports the stream type of whatever socket was already there, or "not defined".
- **Inherited names.** The contact dialog tests `username in newChat` on a plain object copy. `in` also finds the names every object inherits from `Object.prototype`, so a contact named `toString` or `constructor` never gets a thread (`ContactDialogView.InheritedNameGetsNoThread`).
- **Missing props.** `Chat` reads `connection` and `setConnection` props, but src/App.jsx:61 renders it with `token`, `setToken` and `user` only. The model gives the view those two as fields of its own.

The files come from several iterations of the client that disagree on the records in src-tauri/src/util.rs. The model takes the superset that the call sites use:

- `KeyBundle` has the optional `ephemeral_key`.
- `OpAuthPayload` has `message`.
- `MsgPayload.content` is absent, a string (`Plain`, as util.rs:31 and `send_enc_msg` use it), or a `MsgContent` object (`Structured`, as socket.rs and the web view use it).

## Model

| member | source | states |
|---|---|---|
| Primitives.HexLower | src-tauri/src/crypt.rs:58 | the hex digest text has two lower-case hex characters per byte |
| Primitives.HexLowerPrefix | src-tauri/src/crypt.rs:58-59 | the first 2k hex characters encode exactly the first k bytes |
| Util.KeyPairB64.Stripped | src-tauri/src/util.rs:64-68 | stripping a pair drops the private half and keeps the public half |
| Util.KeyBundle.Stripped | src-tauri/src/util.rs:47-56 | a stripped bundle has no private halves, the same public halves and one-time keys in the same order, and the ephemeral key as it was |
| Util.KeyBundle.Strip | src-tauri/src/util.rs:47-56 | the in-place strip, a loop over the one-time keys, yields the stripped bundle |
| Util.StripIdempotent | src-tauri/src/util.rs:47-68 | stripping twice is stripping once |
| Util.StripKeepsPublicBundle | src-tauri/src/util.rs:47-68 | a bundle without private halves is unchanged by stripping |
| Store.CredentialStore.constructor | src-tauri/src/x3dh.rs:60 | opening the store loads what is on disk |
| Store.CredentialStore.Set | src-tauri/src/x3dh.rs:61 | set updates only the in-memory map |
| Store.CredentialStore.Save | src-tauri/src/x3dh.rs:63 | after save the persisted map equals the in-memory map |
| Xxxdh.InfoBytes | src-tauri/src/xxxdh.rs:87 | the HKDF info is the four ASCII bytes of "X3DH" |
| Xxxdh.DhOutputs | src-tauri/src/xxxdh.rs:186-188 | the concatenated DH outputs are 32 bytes per pair |
| Xxxdh.KeyMaterialLayout | src-tauri/src/xxxdh.rs:183-193 | the key material is 32 zero bytes followed by the DH outputs; the i-th output sits at bytes 32+32i .. 32+32(i+1) |
| Xxxdh.DeriveSk | src-tauri/src/xxxdh.rs:183-199 | the loop builds the key material, then HKDF with zero salt, "X3DH" info and 32 output bytes gives the key; a failed expansion is KdfError |
| Xxxdh.InitPlaintext | src-tauri/src/xxxdh.rs:136-137 | the sender's plaintext is 64 bytes: the sender's identity public key first, then the receiver's |
| Xxxdh.InitMsg | src-tauri/src/xxxdh.rs:124-150 | the initial message exists exactly when the session key derives; it carries the sender's identity, the ephemeral public key, the receiver's one-time key unchanged, the nonce, and the identity keys sealed under the derived key |
| Xxxdh.PrepareInitMsg | src-tauri/src/xxxdh.rs:113-151 | with a verifying prekey signature (its panic as a precondition), the result is the sender's identity, the ephemeral public key, the receiver's one-time key unchanged, the key from the pairs (IK_A,SPK_B),(EK_A,IK_B),(EK_A,SPK_B),(EK_A,OPK_B), the nonce, and the sealed identity keys |
| Xxxdh.DeriveSharedSecret | src-tauri/src/xxxdh.rs:154-180 | the receiver derives from (SPK_B,IK_A),(IK_B,EK_A),(SPK_B,EK_A),(OTK_B[0],EK_A), whatever one-time key is passed; it fails exactly when derivation or AEAD opening fails, and an absent or empty key list is a precondition |
| Xxxdh.InitMsgSucceeds | src-tauri/src/xxxdh.rs:126-150 | with a working KDF the sender's side yields a 32-byte key |
| Xxxdh.SameKeyMaterial | src-tauri/src/xxxdh.rs:169-174 | with DH commutative and generated key pairs, sender and receiver build the same key material |
| Xxxdh.SameOutputs | src-tauri/src/xxxdh.rs:186-188 | pairs with equal DH outputs one by one give equal concatenations |
| Xxxdh.SecretsAgree | src-tauri/src/x3dh.rs:99-116 | Bob's derive_shared_secret on Alice's message succeeds and returns Alice's key |
| X3dh.EncodedPair | src-tauri/src/x3dh.rs:33-38 | a generated pair is stored with its private half |
| X3dh.GeneratedBundle | src-tauri/src/x3dh.rs:43-58 | identity and prekey keep private halves, the signature is the identity's signature over the prekey's public bytes with no private half, the one-time keys are the drawn ones in order, and there is no ephemeral key |
| X3dh.GetKeyBundle | src-tauri/src/x3dh.rs:24-68 | the full bundle is stored under auth.user and saved; the returned bundle is its stripped copy, with no private halves and the same public keys; a missing auth is a precondition |
| X3dh.GeneratedOneTimeKeys | src-tauri/src/x3dh.rs:30-41 | exactly ten one-time pairs, each with its private half, in drawing order |
| X3dh.CheckSecretSharing | src-tauri/src/x3dh.rs:70-117 | the test scenario yields equal 32-byte keys for Alice and Bob, with no panic |
| Crypt.HexDigest | src-tauri/src/crypt.rs:58 | the digest text is 64 lower-case hex characters |
| Crypt.PasswordKey | src-tauri/src/crypt.rs:58-59 | the AES key is 32 bytes |
| Crypt.PasswordKeyIsHalfDigest | src-tauri/src/crypt.rs:79-80 | the key is the ASCII hex of the first 16 digest bytes, all lower-case hex characters |
| Crypt.SameKeyFromHalfDigest | src-tauri/src/crypt.rs:58-59 | passwords whose digests share their first 16 bytes share the AES key |
| Crypt.Frame | src-tauri/src/crypt.rs:70-71 | the framed bytes are the sealed bytes followed by the 12-byte nonce |
| Crypt.Encryption | src-tauri/src/crypt.rs:57-76 | encryption fails, with an Aes error, exactly when AES-GCM refuses the plaintext |
| Crypt.Decryption | src-tauri/src/crypt.rs:78-99 | bad base64 is a Decode error, failed authentication an Aes error, invalid UTF-8 a Utf8 error; otherwise the text; the last 12 decoded bytes are the nonce |
| Crypt.Encrypt | src-tauri/src/crypt.rs:57-76 | encrypt with its appended nonce buffer computes Encryption |
| Crypt.Decrypt | src-tauri/src/crypt.rs:78-99 | decrypt, copying the last 12 bytes into the nonce buffer and truncating them, computes Decryption; a decoded input under 12 bytes is a precondition |
| Crypt.EncryptionFraming | src-tauri/src/crypt.rs:64-75 | the output decodes to the sealed bytes with the nonce as its last 12 bytes |
| Crypt.EncryptionSucceeds | src-tauri/src/crypt.rs:65-68 | every plaintext within the AES-GCM limit encrypts |
| Crypt.DecryptEncrypt | src-tauri/src/crypt.rs:43-55 | decrypting what encrypt returns, with the same password, gives the plaintext back, and does not underflow |
| Crypt.CheckSymmetry | src-tauri/src/crypt.rs:43-55 | the test's text survives the round trip |
| Sockets.StreamType | src-tauri/src/socket.rs:98-102 | Plain is "unencrypted", Rustls is "TLS", anything else "not available", each exactly |
| Sockets.EventName | src-tauri/src/socket.rs:205 | the three events have the names "msg", "register_token" and "connection_closed", each exactly |
| Sockets.FetchBundleRequest | src-tauri/src/socket.rs:124-138 | no content, timestamp 0, action fetch_bundle with the user, empty password, no bundle, the token, author "me", empty recipient |
| Sockets.RegisterPayload | src-tauri/src/socket.rs:168-170 | register sets auth.keybundle and changes nothing else |
| Sockets.DecodePublic | src-tauri/src/socket.rs:241-246 | a public key decodes exactly when the base64 is valid and 32 bytes long |
| Sockets.DecodeSignature | src-tauri/src/socket.rs:226-232 | a signature decodes exactly when the base64 is valid and 64 bytes long |
| Sockets.DecodeSecret | src-tauri/src/socket.rs:384-392 | an absent private half is read as the empty text; a secret decodes exactly when that base64 is valid and 32 bytes long |
| Sockets.KeyPairOf | src-tauri/src/socket.rs:378-401 | the key pair is the decoded secret and public halves, present exactly when both decode |
| Sockets.GetKeyPair | src-tauri/src/socket.rs:393-398 | get_key_pair, appending the public bytes to the secret bytes, computes KeyPairOf |
| Sockets.KeyPairOfEncoded | src-tauri/src/socket.rs:222-225 | a pair as get_keybundle stores it reads back as the generated pair |
| Sockets.KeyPairOfStripped | src-tauri/src/socket.rs:386-390 | a stripped pair cannot be read back: the empty secret does not decode to a key |
| Sockets.CraftedReply | src-tauri/src/socket.rs:297-342 | the reply has base64 ciphertext and nonce, no cleartext, timestamp 0, empty fields, and a public-only bundle with one echoed one-time key and the ephemeral key |
| Sockets.FetchBundleOutcome | src-tauri/src/socket.rs:207-344 | a fetch_bundle answer queues a reply of that shape or panics; a missing bundle or a recipient not in the store panics; a queued reply means every key decoded and the receiver's prekey signature verified, and it carries the public identity, prekey and signature of the bundle stored under `recipient`, the receiver's first one-time key echoed, the ephemeral public key and the nonce |
| Sockets.Route | src-tauri/src/socket.rs:194-364 | no auth emits msg; register/login emit register_token only with a non-empty token; fetch_bundle queues or panics; other actions, unparseable text and Close do nothing; todo!() frames panic |
| Sockets.Drain | src-tauri/src/socket.rs:192-369 | a whole run of the receive task gives at most one event or reply per frame plus the final connection_closed; a panicking run gives fewer than one per frame read |
| Sockets.DrainClosesOnce | src-tauri/src/socket.rs:367-368 | a task that reaches the end emits connection_closed exactly once, as its last event; a panicking task never does |
| Sockets.DrainQueuesReplies | src-tauri/src/socket.rs:344 | everything a task queues is a crafted fetch_bundle reply |
| Sockets.DrainStep | src-tauri/src/socket.rs:193-365 | the first frame's outcome comes before the rest of the stream's, unless it panics |
| Sockets.DrainWithoutPanic | src-tauri/src/socket.rs:357-363 | a stream with no todo!() frame and no fetch_bundle answer ends the task normally and queues nothing |
| Sockets.DrainMessagesInOrder | src-tauri/src/socket.rs:347-349 | chat messages are emitted as msg events in arrival order, then connection_closed |
| Sockets.FetchBundleSucceeds | src-tauri/src/socket.rs:210-344 | with the sender's stored bundle and the receiver's published bundle, no unwrap panics and a reply is queued that carries the sender's public identity and prekey, its prekey signature, the receiver's first one-time public key, the ephemeral key, and the ciphertext and nonce of the sender's initial message |
| Sockets.ApplyOutcome | src-tauri/src/socket.rs:193-365 | after one frame's outcome is applied, the events and replies so far plus what the rest of the stream gives are still the whole run's |
| Sockets.StepKeepsTrace | src-tauri/src/socket.rs:193-365 | one step keeps the task on the course Drain sets for the whole stream |
| Sockets.MsgQueue.constructor | src-tauri/src/socket.rs:111 | a new queue is empty |
| Sockets.Window.constructor | src-tauri/src/socket.rs:40 | the web view starts with no event emitted to it |
| Sockets.ReceiveTask.constructor | src-tauri/src/socket.rs:186-192 | the spawned task starts on the whole receiving half |
| Sockets.ReceiveTask.Step | src-tauri/src/socket.rs:193-365 | one turn: the end of the stream or an error emits connection_closed and finishes; a frame applies its routed outcome |
| Sockets.ReceiveTask.Run | src-tauri/src/socket.rs:192-369 | the events emitted and the replies queued are exactly those of Drain, and the task ends as Drain says |
| Sockets.Socket.constructor | src-tauri/src/socket.rs:104-113 | a new socket has the handshake's stream type, its receiving half, an empty queue and nothing sent |
| Sockets.Socket.SendMsg | src-tauri/src/socket.rs:116-122 | the payload is sent, or a Tung error is returned and nothing is sent |
| Sockets.Socket.FetchBundle | src-tauri/src/socket.rs:124-148 | the fetch_bundle request is sent |
| Sockets.Socket.Login | src-tauri/src/socket.rs:150-156 | the payload is sent unchanged; a missing auth is a precondition |
| Sockets.Socket.Register | src-tauri/src/socket.rs:158-175 | the payload with the bundle set in auth.keybundle is sent |
| Sockets.Socket.RecvMsg | src-tauri/src/socket.rs:185-192 | the receiving half is taken (a second call is a precondition failure) and a task over it is spawned |
| Sockets.Socket.Close | src-tauri/src/socket.rs:372-375 | close closes the socket or returns Tung and leaves it as it was |
| Lib.EncryptedPayload | src-tauri/src/lib.rs:81-82 | the payload with content replaced by its encryption, or an Aes error exactly when encryption fails |
| Lib.EncryptedPayloadDecrypts | src-tauri/src/lib.rs:81-85 | the receiver of an encrypted payload gets the original content back with the same key |
| Lib.Backend.constructor | src-tauri/src/lib.rs:24-27 | SOCKET and MAIN_WINDOW start empty |
| Lib.Backend.SetMainWindow | src-tauri/src/lib.rs:152-155 | setup stores the main window |
| Lib.Backend.SendMsg | src-tauri/src/lib.rs:43-53 | without a socket nothing is sent and the result is Ok; with one the payload is sent or the error propagates |
| Lib.Backend.Login | src-tauri/src/lib.rs:55-65 | without a socket nothing is sent and the result is Ok; with one the payload is sent or the error propagates |
| Lib.Backend.Register | src-tauri/src/lib.rs:67-78 | a bundle is generated and stored only with a socket, then sent with the payload; without one the store is untouched, nothing is sent and the result is Ok |
| Lib.Backend.SendEncMsg | src-tauri/src/lib.rs:80-85 | the encrypted payload is sent; a failed encryption is an Aes error and sends nothing |
| Lib.Backend.InitConn | src-tauri/src/lib.rs:101-116 | without a main window, Ok and no change; a failed handshake, Tung and no change; otherwise a task is spawned on the new socket, which replaces the old one |
| Lib.Backend.ConnectViaUrl | src-tauri/src/lib.rs:87-99 | host is the URL verbatim; stream_type is the current socket's, or "not defined" without one |
| Lib.Backend.CloseConn | src-tauri/src/lib.rs:118-130 | without a socket, Ok and no change; with one, closed and dropped, or on failure the error and the socket stays |
| Invocations.Seconds | src/Auth.jsx:33 | whole seconds, the floor of milliseconds over 1000 |
| Invocations.ReadPayload | src-tauri/src/util.rs:28-37 | a command reads an invoke argument exactly when it has a token and a u64 timestamp, field by field; otherwise a Serde error |
| AuthView.LoginRequest | src/Auth.jsx:31-44 | action login, the user and password, empty message, token, author and recipient, the timestamp in seconds |
| AuthView.RegisterRequest | src/Auth.jsx:47-60 | the action is register |
| AuthView.RegisterIsLoginWithAction | src/Auth.jsx:47-61 | the register request is the login request with the action changed and nothing else |
| AuthView.RequestsReachBackend | src/Auth.jsx:31-61 | both requests are read by the back end with their auth intact |
| AuthView.Auth.constructor | src/Auth.jsx:26-28 | the view starts with the app's token and user and an empty password |
| AuthView.Auth.Login | src/Auth.jsx:31-45 | login invokes the login command with the login request |
| AuthView.Auth.Register | src/Auth.jsx:47-61 | register invokes the register command with the register request |
| AuthView.Auth.CloseConnection | src/Auth.jsx:74-78 | the button invokes close_conn |
| AuthView.Auth.OnRegisterToken | src/Auth.jsx:88-92 | a register_token event sets the token to the payload's token |
| ChatView.SendStruct | src/Chat.jsx:30-41 | the sent object has the message as cleartext, empty ciphertext, nonce and message_id, null auth, the user as author and the typed recipient, and no token |
| ChatView.SendStructRejected | src/Chat.jsx:30-43 | the back end cannot read that object: a Serde error |
| ChatView.Chat.constructor | src/Chat.jsx:22-26 | the view starts with the app's token and connection and an empty list |
| ChatView.Chat.SendMessage | src/Chat.jsx:29-46 | send_msg is invoked with that object; the copy with author "You" is appended and earlier entries are unchanged |
| ChatView.Chat.CloseChat | src/Chat.jsx:48-51 | the token is cleared and the list is untouched |
| ChatView.Chat.OnMsg | src/Chat.jsx:66-73 | a payload with null or missing content leaves the list unchanged; one with content is appended |
| ChatView.Chat.OnConnectionClosed | src/Chat.jsx:84-87 | the token becomes "" and the connection {} |
| ChatView.Arrivals | src/Chat.jsx:66-73 | a run of msg events adds only shown payloads, at most one entry per event |
| ChatView.ArrivalsAppend | src/Chat.jsx:70 | the list grows in arrival order: two runs add their entries one after the other |
| ChatView.NoDeduplication | src/Chat.jsx:70 | a payload delivered twice is shown twice |
| ConnectionView.ConnectUrl | src/Connection.jsx:22-27 | the URL is "wss://", the typed text, then ":9999" |
| ConnectionView.InfoObject | src/Connection.jsx:28 | the connection object has exactly host and stream_type |
| ConnectionView.DialogFollowsConnection | src/Connection.jsx:72 | the dialog is closed after a successful connect and open on {} |
| ConnectionView.Connection.constructor | src/Connection.jsx:19-20 | the dialog starts with the app's connection and an empty URL |
| ConnectionView.Connection.ConnectToUrl | src/Connection.jsx:24-39 | connect_via_url is invoked with the built URL; success makes the answer the connection and closes the dialog; failure only shows an error |
| ConnectionView.Connection.OnConnectionClosed | src/Connection.jsx:56-60 | the connection becomes {}, so the dialog opens, and an error is shown |
| ContactDialogView.WithThread | src/ContactDialog.jsx:37-46 | the name gets an empty thread exactly when the copied object has no property of that name, neither an own thread nor a name inherited from Object.prototype; otherwise the threads are unchanged, and every other thread is unchanged in both cases |
| ContactDialogView.InheritedNameGetsNoThread | src/ContactDialog.jsx:41 | a name such as "toString" gets no thread, even when there are no threads yet |
| ContactDialogView.WithThreadIdempotent | src/ContactDialog.jsx:41 | pressing Ok twice with the same name is pressing it once |
| ContactDialogView.ContactDialog.constructor | src/ContactDialog.jsx:13 | the dialog starts closed with the given threads and contact |
| ContactDialogView.ContactDialog.Ok | src/ContactDialog.jsx:37-49 | the threads become WithThread of the old threads and the typed name, the contact becomes the name and the dialog closes |
| ContactDialogView.ContactDialog.Close | src/ContactDialog.jsx:50 | the dialog closes; threads and contact are unchanged |
| MessageView.Layout | src/Message.jsx:8-9 | flex-end alignment and the sender bubble exactly for the author "You"; flex-start and the recipient bubble for everyone else |
| MessageView.KindOf | src/Message.jsx:18-38 | image exactly for an image type, video for a video type that is not an image type, text otherwise |
| MessageView.KindClass | src/Message.jsx:11-37 | image and video share message__image; text has message__text |

## Left out

- TLS and root-certificate setup, the WebSocket handshake, split, send and close: network I/O. Their outcomes are parameters (`Handshake`, `delivered`, `ok`). What a send puts on the wire is the list `Socket.sent`.
- `tokio::spawn`, the `Mutex` and `lazy_static` globals, and the Tauri builder: concurrency and framework plumbing. Commands run one after the other. A spawned task is a `ReceiveTask` object that any caller may `Step`, so interleavings can be written out, but none is proved about.
- The cryptographic primitives and encodings themselves: foreign library calls, abstracted as the `Primitives` value and its laws. `from_bytes` of keys and signatures checks only lengths here. `KeyPair::from_bytes` takes the secret half first.
- JSON (de)serialisation of frames: the parameter `parse`. The Tauri store keeps bundles, not JSON values, so reading one back cannot fail.
- The file I/O of `credentials.bin`: the store is a map. `save` copies it to `persisted`, and `store.save().unwrap()` is assumed to succeed.
- The `emit(...).unwrap()` calls and the `info!` log lines. Emitting is assumed to succeed. The `info!` that unwraps `auth` in `login` and `register` is a precondition.
- `Socket::x3dh`: its body is empty.
- The `encrypt` and `decrypt` Tauri commands in src-tauri/src/lib.rs: they forward to `Crypt.Encrypt` and `Crypt.Decrypt`.
- `MsgPayload.content_type` from src-tauri/src/util.rs:30: no call site sets or reads it.
- The error types' payloads and `Serialize` impls: only the error kind is kept.
- The `Binary`, `Ping`, `Pong` and raw frames panic (`todo!()`): the model includes the panic as an outcome, not the missing handlers.
- Toasts, notifications, theming, layout and the Quit button. The only exception is the error count in `ConnectionView.Connection`.
- Text-field `onChange` handlers: plain assignments of the typed text, which in the model are writes to the public fields.
- src/aesDash.jsx, src/ContactDrawer.jsx, src/ChatComponent.jsx and src/App.jsx: demo and rendering code, not part of this model.
- `Xxxdh.SessionKey` and the DH pair lists `Xxxdh.SenderPairs` and `Xxxdh.ReceiverPairs` are definitions without contracts of their own. The methods and lemmas above state their use.
- Sockets.Socket.SendMsg: the model keeps sending after `close`, as long as `delivered` says the sink accepted; the library's refusal on a closed sink is one of the failures `delivered` stands for.
- ChatView.Chat.OnConnectionClosed: states the listener as src/Chat.jsx:84-87 writes it, with `setConnection` present. In the app as src/App.jsx:61 mounts it, `setConnection` is undefined: `setToken("")` runs and the call after it throws, so the connection is never reset there.
