/**
 * The chat view (src/Chat.jsx): the session token and connection it shares
 * with the app, and the flat list of messages it shows.
 */
module ChatView {
  import opened Wrappers
  import opened Util
  import opened Invocations

  /** A list entry: the local echo of a sent message, or a payload from a `msg` event. */
  datatype Entry = Echo(msg: JsMsg) | Inbound(payload: MsgPayload)

  /** The object `sendMessage` passes to `send_msg`; it has no `token` property. */
  function SendStruct(message: string, user: string, recipient: string, nowMs: nat): (m: JsMsg)
    ensures m.content == Structured(MsgContent("", "", Some(message)))
    ensures m.timestamp == Seconds(nowMs) && m.auth == None && m.messageId == Some("")
    ensures m.author == user && m.recipient == recipient && m.token == None
  {
    JsMsg(Structured(MsgContent("", "", Some(message))), Seconds(nowMs), None, None, Some(""), user, recipient)
  }

  /** The back end cannot read that object: `token` is missing, so `send_msg` fails before sending. */
  lemma SendStructRejected(message: string, user: string, recipient: string, nowMs: nat)
    ensures ReadPayload(SendStruct(message, user, recipient, nowMs)) == Err(Serde)
  {
  }

  /** The payloads a `msg` listener keeps: those whose `content` is neither `null` nor missing. */
  predicate Shown(payload: MsgPayload) {
    !payload.content.Absent?
  }

  class Chat {
    var token: string
    /** The app's connection object, as property names and values; `{}` is the empty map. */
    var connection: map<string, string>
    var recipient: string
    var message: string
    var chat: seq<Entry>
    var invoked: seq<Command>

    constructor (token: string, connection: map<string, string>)
      ensures this.token == token && this.connection == connection
      ensures recipient == "" && message == "" && chat == [] && invoked == []
    {
      this.token := token;
      this.connection := connection;
      recipient := "";
      message := "";
      chat := [];
      invoked := [];
    }

    /**
     * `sendMessage`: the object is handed to `send_msg` with the user as
     * author; the local copy then gets author `"You"` and goes to the end of
     * the list.
     */
    method SendMessage(user: string, nowMs: nat)
      modifies this
      ensures invoked == old(invoked) + [SendMsgCmd(SendStruct(message, user, recipient, nowMs))]
      ensures chat == old(chat) + [Echo(SendStruct(message, user, recipient, nowMs).(author := "You"))]
      ensures token == old(token) && connection == old(connection)
      ensures recipient == old(recipient) && message == old(message)
    {
      var msgStruct := SendStruct(message, user, recipient, nowMs);
      invoked := invoked + [SendMsgCmd(msgStruct)];
      msgStruct := msgStruct.(author := "You");
      chat := chat + [Echo(msgStruct)];
    }

    /** `closeChat`: the token is cleared; the list stays. */
    method CloseChat()
      modifies this
      ensures token == "" && chat == old(chat) && connection == old(connection) && invoked == old(invoked)
    {
      token := "";
    }

    /** The `msg` listener: a payload with content goes to the end of the list, with no duplicate check. */
    method OnMsg(payload: MsgPayload)
      modifies this
      ensures chat == old(chat) + (if Shown(payload) then [Inbound(payload)] else [])
      ensures chat == old(chat) + Arrivals([payload])
      ensures token == old(token) && connection == old(connection) && invoked == old(invoked)
    {
      if !payload.content.Absent? {
        chat := chat + [Inbound(payload)];
      }
    }

    /** The `connection_closed` listener: the session ends and the connection is forgotten. */
    method OnConnectionClosed()
      modifies this
      ensures token == "" && connection == map[]
      ensures chat == old(chat) && invoked == old(invoked)
    {
      token := "";
      connection := map[];
    }
  }

  /**
   * The entries a run of `msg` events adds, one `OnMsg` after the other: the
   * shown payloads, in arrival order, repeats included.
   */
  function Arrivals(payloads: seq<MsgPayload>): (r: seq<Entry>)
    ensures |r| <= |payloads|
    ensures forall i :: 0 <= i < |r| ==> r[i].Inbound? && Shown(r[i].payload)
  {
    if payloads == [] then []
    else (if Shown(payloads[0]) then [Inbound(payloads[0])] else []) + Arrivals(payloads[1..])
  }

  /** Arrivals of two runs are the arrivals of the first followed by those of the second. */
  lemma {:induction false} ArrivalsAppend(a: seq<MsgPayload>, b: seq<MsgPayload>)
    ensures Arrivals(a + b) == Arrivals(a) + Arrivals(b)
  {
    if a != [] {
      ArrivalsAppend(a[1..], b);
      assert (a + b)[1..] == a[1..] + b;
    } else {
      assert a + b == b;
    }
  }

  /** A payload delivered twice is shown twice. */
  lemma NoDeduplication(payload: MsgPayload)
    requires Shown(payload)
    ensures Arrivals([payload, payload]) == [Inbound(payload), Inbound(payload)]
  {
    assert [payload, payload][1..] == [payload];
  }
}
