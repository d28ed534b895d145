/**
 * The connect dialog (src/Connection.jsx): the URL it builds, how the shared
 * `connection` object changes, and when the dialog is open.
 */
module ConnectionView {
  import opened Wrappers
  import opened Util
  import opened Invocations

  /** The home server's port 9999, as `${port}` writes it into the URL. */
  const PORT_TEXT: string := "9999"

  /** `wss://${url}:${port}`. */
  function ConnectUrl(url: string): (s: string)
    ensures |s| == |url| + 11
    ensures s[..6] == "wss://" && s[6..|s| - 5] == url && s[|s| - 5..] == ":9999"
  {
    "wss://" + url + ":" + PORT_TEXT
  }

  /** A `ConnectionInfo` as the object the web view receives. */
  function InfoObject(info: ConnectionInfo): (o: map<string, string>)
    ensures o.Keys == {"host", "stream_type"}
    ensures o["host"] == info.host && o["stream_type"] == info.streamType
  {
    map["host" := info.host, "stream_type" := info.streamType]
  }

  /** `open={!Object.keys(connection).length}`. */
  predicate DialogOpen(connection: map<string, string>) {
    |connection| == 0
  }

  /** After a successful connect the dialog is closed; after `connection_closed` it is open again. */
  lemma DialogFollowsConnection(info: ConnectionInfo)
    ensures !DialogOpen(InfoObject(info))
    ensures DialogOpen(map[])
  {
    assert "host" in InfoObject(info);
  }

  class Connection {
    var connection: map<string, string>
    var url: string
    var invoked: seq<Command>
    /** Error toasts shown so far. */
    var errors: nat

    constructor (connection: map<string, string>)
      ensures this.connection == connection && url == "" && invoked == [] && errors == 0
    {
      this.connection := connection;
      url := "";
      invoked := [];
      errors := 0;
    }

    /**
     * `connectToUrl`, given what `connect_via_url` answers: on success the
     * answer becomes the connection; on failure only an error is shown.
     */
    method ConnectToUrl(answer: Result<ConnectionInfo, Error>)
      modifies this
      ensures invoked == old(invoked) + [ConnectViaUrlCmd(ConnectUrl(url))]
      ensures answer.Ok? ==> connection == InfoObject(answer.value) && errors == old(errors)
      ensures answer.Ok? ==> !DialogOpen(connection)
      ensures answer.Err? ==> connection == old(connection) && errors == old(errors) + 1
      ensures url == old(url)
    {
      invoked := invoked + [ConnectViaUrlCmd(ConnectUrl(url))];
      match answer {
        case Ok(status) =>
          connection := InfoObject(status);
          DialogFollowsConnection(status);
        case Err(_) =>
          errors := errors + 1;
      }
    }

    /** The `connection_closed` listener. */
    method OnConnectionClosed()
      modifies this
      ensures connection == map[] && DialogOpen(connection)
      ensures url == old(url) && invoked == old(invoked) && errors == old(errors) + 1
    {
      errors := errors + 1;
      connection := map[];
    }
  }
}
