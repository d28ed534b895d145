/**
 * The sign-in view (src/Auth.jsx): the `login` and `register` requests, and
 * the `register_token` listener that stores the session token.
 */
module AuthView {
  import opened Wrappers
  import opened Util
  import opened Invocations

  /** The request object `login` passes to the `login` command. */
  function LoginRequest(user: string, password: string, nowMs: nat): (m: JsMsg)
    ensures m.auth == Some(OpAuthPayload("login", user, password, None, ""))
    ensures m.timestamp == Seconds(nowMs) && m.content == Absent
    ensures m.token == Some("") && m.author == "" && m.recipient == "" && m.messageId == None
  {
    JsMsg(Absent, Seconds(nowMs), Some(OpAuthPayload("login", user, password, None, "")), Some(""), None, "", "")
  }

  /** The request object `register` passes to the `register` command. */
  function RegisterRequest(user: string, password: string, nowMs: nat): (m: JsMsg)
    ensures m.auth.Some? && m.auth.value.action == "register"
  {
    JsMsg(Absent, Seconds(nowMs), Some(OpAuthPayload("register", user, password, None, "")), Some(""), None, "", "")
  }

  /** The two requests differ in the action alone. */
  lemma RegisterIsLoginWithAction(user: string, password: string, nowMs: nat)
    ensures var login := LoginRequest(user, password, nowMs);
            RegisterRequest(user, password, nowMs) == login.(auth := Some(login.auth.value.(action := "register")))
  {
  }

  /**
   * The back end reads both requests: the payload has the user, password and
   * action, no bundle and no content, so the `auth` that `login` and
   * `register` unwrap is there.
   */
  lemma RequestsReachBackend(user: string, password: string, nowMs: nat)
    requires Seconds(nowMs) < 0x1_0000_0000_0000_0000
    ensures var r := ReadPayload(LoginRequest(user, password, nowMs));
            && r.Ok? && r.value.auth == Some(OpAuthPayload("login", user, password, None, ""))
            && r.value.content == Absent && r.value.token == ""
    ensures var r := ReadPayload(RegisterRequest(user, password, nowMs));
            && r.Ok? && r.value.auth == Some(OpAuthPayload("register", user, password, None, ""))
            && r.value.content == Absent && r.value.token == ""
  {
  }

  class Auth {
    /** The session token the view shares with the app. */
    var token: string
    var user: string
    var password: string
    /** The commands invoked so far, in order. */
    var invoked: seq<Command>

    constructor (token: string, user: string)
      ensures this.token == token && this.user == user && password == "" && invoked == []
    {
      this.token := token;
      this.user := user;
      password := "";
      invoked := [];
    }

    /** `login`. */
    method Login(nowMs: nat)
      modifies this
      ensures invoked == old(invoked) + [LoginCmd(LoginRequest(user, password, nowMs))]
      ensures token == old(token) && user == old(user) && password == old(password)
    {
      var msgStruct := LoginRequest(user, password, nowMs);
      invoked := invoked + [LoginCmd(msgStruct)];
    }

    /** `register`. */
    method Register(nowMs: nat)
      modifies this
      ensures invoked == old(invoked) + [RegisterCmd(RegisterRequest(user, password, nowMs))]
      ensures token == old(token) && user == old(user) && password == old(password)
    {
      var msgStruct := RegisterRequest(user, password, nowMs);
      invoked := invoked + [RegisterCmd(msgStruct)];
    }

    /** `closeConnection` (the button labelled Connect). */
    method CloseConnection()
      modifies this
      ensures invoked == old(invoked) + [CloseConnCmd]
      ensures token == old(token) && user == old(user) && password == old(password)
    {
      invoked := invoked + [CloseConnCmd];
    }

    /** The `register_token` listener: the event's token becomes the session token. */
    method OnRegisterToken(payload: MsgPayload)
      modifies this
      ensures token == payload.token
      ensures user == old(user) && password == old(password) && invoked == old(invoked)
    {
      token := payload.token;
    }
  }
}
