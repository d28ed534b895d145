/**
 * What the web view hands to the back end: the JavaScript objects passed to
 * `invoke`, and how a command reads such an object as a `MsgPayload`.
 */
module Invocations {
  import opened Wrappers
  import opened Util

  /**
   * A message object as the web view builds it.  A property the literal
   * leaves out is `None` (`token`, `messageId`); `content` is `Absent` when
   * it is left out.
   */
  datatype JsMsg = JsMsg(
    content: Content,
    timestamp: nat,
    auth: Option<OpAuthPayload>,
    token: Option<string>,
    messageId: Option<string>,
    author: string,
    recipient: string)

  /** A call of `invoke` from the web view. */
  datatype Command =
    | SendMsgCmd(msg: JsMsg)
    | LoginCmd(auth: JsMsg)
    | RegisterCmd(auth: JsMsg)
    | ConnectViaUrlCmd(url: string)
    | CloseConnCmd

  /** `Math.floor(Date.now()/1000)`: whole seconds since the epoch. */
  function Seconds(nowMs: nat): (s: nat)
    ensures s * 1000 <= nowMs < (s + 1) * 1000
  {
    nowMs / 1000
  }

  /**
   * Reading a command argument as a `MsgPayload`: a missing `token` or a
   * timestamp outside `u64` is a `Serde` error; an unknown property such as
   * `message_id` is ignored.
   */
  function ReadPayload(m: JsMsg): (r: Result<MsgPayload, Error>)
    ensures r.Ok? <==> m.token.Some? && m.timestamp < 0x1_0000_0000_0000_0000
    ensures r.Err? ==> r.error == Serde
    ensures r.Ok? ==> && r.value.content == m.content && r.value.timestamp == m.timestamp
                      && r.value.auth == m.auth && r.value.token == m.token.value
                      && r.value.author == m.author && r.value.recipient == m.recipient
  {
    if m.token.None? || m.timestamp >= 0x1_0000_0000_0000_0000 then Err(Serde)
    else Ok(MsgPayload(m.content, m.timestamp, m.auth, m.token.value, m.author, m.recipient))
  }
}
