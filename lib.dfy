/**
 * The Tauri commands of the back end (src-tauri/src/lib.rs) over the global
 * `SOCKET: Option<Socket>`, here the field `socket` (null for `None`).
 *
 * Commands run one after the other.  What the network, the random generator
 * and the clock would decide is a parameter: whether a send or close
 * succeeds, what a handshake produces, the drawn keys and nonces.
 */
module Lib {
  import opened Wrappers
  import opened Primitives
  import opened Util
  import opened Store
  import opened Crypt
  import opened X3dh
  import opened Sockets

  /** What `Socket::new` yields for a URL: the handshake's stream kind and the stream that follows. */
  datatype Handshake = Handshake(kind: StreamKind, items: seq<Incoming>)

  /** `send_enc_msg`'s payload: `content` replaced by its encryption under `key`. */
  function EncryptedPayload(p: Primitives, key: string, msg: MsgPayload, nonce: Nonce): (r: Result<MsgPayload, Error>)
    requires msg.content.Plain?
    ensures r.Err? <==> Encryption(p, key, msg.content.text, nonce).Err?
    ensures r.Ok? ==> r.value == msg.(content := Plain(Encryption(p, key, msg.content.text, nonce).value))
  {
    match Encryption(p, key, msg.content.text, nonce)
    case Err(e) => Err(e)
    case Ok(c) => Ok(msg.(content := Plain(c)))
  }

  /** The receiver of an encrypted payload gets the original content back with the same key. */
  lemma EncryptedPayloadDecrypts(p: Primitives, key: string, msg: MsgPayload, nonce: Nonce)
    requires Base64RoundTrips(p) && OpenInvertsSeal(p) && Utf8RoundTrips(p)
    requires msg.content.Plain?
    requires EncryptedPayload(p, key, msg, nonce).Ok?
    ensures var sent := EncryptedPayload(p, key, msg, nonce).value;
            && sent.content.Plain?
            && LongEnough(p, sent.content.text)
            && Decryption(p, key, sent.content.text) == Ok(msg.content.text)
            && sent.(content := msg.content) == msg
  {
    DecryptEncrypt(p, key, msg.content.text, nonce);
  }

  class Backend {
    const p: Primitives
    /** The `credentials.bin` store of the app handle. */
    const store: CredentialStore
    /** `SOCKET`. */
    var socket: Socket?
    /** `MAIN_WINDOW`. */
    var mainWindow: Window?
    /** Every receive task spawned so far; each keeps running on its own. */
    var tasks: seq<ReceiveTask>

    constructor (p: Primitives, store: CredentialStore)
      ensures this.p == p && this.store == store && socket == null && mainWindow == null && tasks == []
    {
      this.p := p;
      this.store := store;
      socket := null;
      mainWindow := null;
      tasks := [];
    }

    /** The `setup` hook: the main window becomes available. */
    method SetMainWindow(win: Window)
      modifies this
      ensures mainWindow == win && socket == old(socket) && tasks == old(tasks)
    {
      mainWindow := win;
    }

    /** `send_msg`: without a socket nothing is sent and the result is `Ok`. */
    method SendMsg(msg: MsgPayload, delivered: bool) returns (r: Result<(), Error>)
      modifies this, socket
      ensures socket == old(socket) && mainWindow == old(mainWindow) && tasks == old(tasks)
      ensures socket == null ==> r == Ok(())
      ensures socket != null ==> && socket.wsRcvr == old(socket.wsRcvr) && socket.open == old(socket.open)
                                 && (delivered ==> r == Ok(()) && socket.sent == old(socket.sent) + [msg])
                                 && (!delivered ==> r == Err(Tung) && socket.sent == old(socket.sent))
    {
      if socket != null {
        r := socket.SendMsg(msg, delivered);
        if r.Err? {
          return;
        }
      }
      r := Ok(());
    }

    /** `login`: forwards the payload; without a socket nothing is sent and the result is `Ok`. */
    method Login(auth: MsgPayload, delivered: bool) returns (r: Result<(), Error>)
      requires socket != null ==> auth.auth.Some?
      modifies this, socket
      ensures socket == old(socket) && mainWindow == old(mainWindow) && tasks == old(tasks)
      ensures socket == null ==> r == Ok(())
      ensures socket != null ==> && socket.wsRcvr == old(socket.wsRcvr) && socket.open == old(socket.open)
                                 && (delivered ==> r == Ok(()) && socket.sent == old(socket.sent) + [auth])
                                 && (!delivered ==> r == Err(Tung) && socket.sent == old(socket.sent))
    {
      if socket != null {
        r := socket.Login(auth, delivered);
        if r.Err? {
          return;
        }
      }
      r := Ok(());
    }

    /**
     * `register`: only with a socket is a bundle generated (and stored), then
     * sent with the payload; without one the store is untouched, nothing is
     * sent and the result is `Ok`.
     */
    method Register(auth: MsgPayload, delivered: bool,
                    identity: SecretKey, prekey: SecretKey, oneTime: seq<SecretKey>) returns (r: Result<(), Error>)
      requires socket != null ==> auth.auth.Some? && |oneTime| == ONE_TIME_KEY_COUNT
      modifies this, socket, store
      ensures socket == old(socket) && mainWindow == old(mainWindow) && tasks == old(tasks)
      ensures socket == null ==> r == Ok(()) && store.entries == old(store.entries) && store.persisted == old(store.persisted)
      ensures socket != null ==>
                var bundle := GeneratedBundle(p, identity, prekey, oneTime);
                && store.entries == old(store.entries)[auth.auth.value.user := bundle]
                && store.persisted == store.entries
                && socket.wsRcvr == old(socket.wsRcvr) && socket.open == old(socket.open)
                && (delivered ==> r == Ok(()) && socket.sent == old(socket.sent) + [RegisterPayload(auth, bundle.Stripped())])
                && (!delivered ==> r == Err(Tung) && socket.sent == old(socket.sent))
    {
      if socket != null {
        var bundle := GetKeyBundle(p, store, auth, identity, prekey, oneTime);
        r := socket.Register(auth, bundle, delivered);
        if r.Err? {
          return;
        }
      }
      r := Ok(());
    }

    /** `send_enc_msg`: encrypts `content`, then `send_msg`; a failed encryption sends nothing. */
    method SendEncMsg(key: string, msg: MsgPayload, nonce: Nonce, delivered: bool) returns (r: Result<(), Error>)
      requires msg.content.Plain?
      modifies this, socket
      ensures socket == old(socket) && mainWindow == old(mainWindow) && tasks == old(tasks)
      ensures EncryptedPayload(p, key, msg, nonce).Err? ==>
                r == Err(Aes) && (socket != null ==> socket.sent == old(socket.sent))
      ensures EncryptedPayload(p, key, msg, nonce).Ok? && socket == null ==> r == Ok(())
      ensures EncryptedPayload(p, key, msg, nonce).Ok? && socket != null ==>
                && (delivered ==> r == Ok(()) && socket.sent == old(socket.sent) + [EncryptedPayload(p, key, msg, nonce).value])
                && (!delivered ==> r == Err(Tung) && socket.sent == old(socket.sent))
      ensures socket != null ==> socket.wsRcvr == old(socket.wsRcvr) && socket.open == old(socket.open)
    {
      var encrypted := Encrypt(p, key, msg.content.text, nonce);
      if encrypted.Err? {
        return Err(encrypted.error);
      }
      var m := msg.(content := Plain(encrypted.value));
      r := SendMsg(m, delivered);
    }

    /**
     * `init_conn`: without a main window nothing happens and the result is
     * `Ok`; a failed handshake is an error; otherwise the receive task is
     * spawned and the new socket replaces the old one, which is not closed.
     */
    method InitConn(url: string, handshake: Option<Handshake>) returns (r: Result<(), Error>)
      modifies this
      ensures mainWindow == old(mainWindow)
      ensures mainWindow == null ==> r == Ok(()) && socket == old(socket) && tasks == old(tasks)
      ensures mainWindow != null && handshake.None? ==> r == Err(Tung) && socket == old(socket) && tasks == old(tasks)
      ensures mainWindow != null && handshake.Some? ==>
                && r == Ok(())
                && socket != null && fresh(socket) && fresh(socket.msgQueue)
                && socket.ctx == mainWindow && socket.streamType == StreamType(handshake.value.kind)
                && socket.wsRcvr == None && socket.sent == [] && socket.open
                && |tasks| == |old(tasks)| + 1 && tasks[..|old(tasks)|] == old(tasks)
                && fresh(tasks[|old(tasks)|])
                && tasks[|old(tasks)|].window == mainWindow && tasks[|old(tasks)|].queue == socket.msgQueue
                && tasks[|old(tasks)|].rest == handshake.value.items && tasks[|old(tasks)|].status == Running
    {
      var win := mainWindow;
      if win == null {
        return Ok(());
      }
      if handshake.None? {
        return Err(Tung);
      }
      var s := new Socket(win, handshake.value.kind, handshake.value.items);
      var task := s.RecvMsg();
      tasks := tasks + [task];
      socket := s;
      r := Ok(());
    }

    /** `connect_via_url`: the host is the URL as given; the stream type is that of whatever socket is current. */
    method ConnectViaUrl(url: string, handshake: Option<Handshake>) returns (r: Result<ConnectionInfo, Error>)
      modifies this
      ensures mainWindow == old(mainWindow)
      ensures mainWindow != null && handshake.None? ==> r == Err(Tung) && socket == old(socket) && tasks == old(tasks)
      ensures !(mainWindow != null && handshake.None?) ==>
                && r.Ok? && r.value.host == url
                && r.value.streamType == (if socket == null then "not defined" else socket.streamType)
      ensures mainWindow == null ==> socket == old(socket) && tasks == old(tasks)
      ensures mainWindow != null && handshake.Some? ==>
                && socket != null && fresh(socket) && socket.ctx == mainWindow
                && r == Ok(ConnectionInfo(url, StreamType(handshake.value.kind)))
                && |tasks| == |old(tasks)| + 1 && tasks[..|old(tasks)|] == old(tasks)
    {
      var init := InitConn(url, handshake);
      if init.Err? {
        return Err(init.error);
      }
      var streamType := "not defined";
      if socket != null {
        streamType := socket.streamType;
      }
      r := Ok(ConnectionInfo(url, streamType));
    }

    /**
     * `close_conn`: without a socket nothing happens, so closing twice is
     * harmless; otherwise the socket is closed and dropped, unless closing
     * fails, in which case the error is returned and the socket stays.
     */
    method CloseConn(ok: bool) returns (r: Result<(), Error>)
      modifies this, socket
      ensures mainWindow == old(mainWindow) && tasks == old(tasks)
      ensures old(socket) == null ==> r == Ok(()) && socket == null
      ensures old(socket) != null && ok ==> r == Ok(()) && socket == null && !old(socket).open
      ensures old(socket) != null && !ok ==> r == Err(Tung) && socket == old(socket) && socket.open == old(socket.open)
      ensures old(socket) != null ==> old(socket).sent == old(socket.sent) && old(socket).wsRcvr == old(socket.wsRcvr)
    {
      if socket != null {
        var closed := socket.Close(ok);
        if closed.Err? {
          return Err(closed.error);
        }
        socket := null;
      }
      r := Ok(());
    }
  }
}
