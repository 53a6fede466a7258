/**
 * The lab devices' client for their drivers (color_lab/common/device_client.py).
 * The socket is an oracle: the server's reply to the n-th command sent on a
 * client is a fixed function of n and the command.
 */
module DeviceClients {
  import opened PyValues

  /** `{"function": function, "params": params}`, one JSON line on the socket. */
  datatype Command = Command(name: string, params: map<string, Value>)

  /** What reading the reply line yields: a JSON value, nothing (the server closed), or text that is not JSON. */
  datatype Reply = Line(v: Value) | NoLine | NotJson

  /**
   * How send_command turns a reply into its result: no line raises
   * ConnectionError, a line that is not JSON raises ValueError, a dict with
   * an "error" key raises RuntimeError, and any other value is returned.
   */
  function Answer(name: string, reply: Reply): (r: Outcome<Value>)
    ensures r.Ok? <==> reply.Line? && !(reply.v.Obj? && "error" in reply.v.fields)
    ensures r.Ok? ==> r.value == reply.v
    ensures reply.NoLine? ==> r == Fail(NoData(name))
    ensures reply.NotJson? ==> r == Fail(InvalidJson(name))
    ensures reply.Line? && reply.v.Obj? && "error" in reply.v.fields ==> r == Fail(ServerError(name, reply.v.fields["error"]))
  {
    match reply
    case NoLine => Fail(NoData(name))
    case NotJson => Fail(InvalidJson(name))
    case Line(v) =>
      if v.Obj? && "error" in v.fields then Fail(ServerError(name, v.fields["error"])) else Ok(v)
  }

  /**
   * What send_command returns for a command sent as the n-th on a client:
   * ConnectionError without a socket, otherwise Answer of the server's reply.
   */
  function SendResult(connected: bool, server: (nat, Command) -> Reply, n: nat, command: Command): Outcome<Value> {
    if connected then Answer(command.name, server(n, command)) else Fail(NotConnected)
  }

  /** The `_report` of a device that has nothing to report. */
  function NoReport(): (r: map<string, Value>)
    ensures |r| == 0
  {
    map[]
  }

  class DeviceClient {
    const port: int
    /** The server's reply to the n-th command sent on this client. */
    const server: (nat, Command) -> Reply
    /** Whether `self.sock` is set. */
    var connected: bool
    /** Every command written to the socket so far, in order. */
    var sent: seq<Command>

    /** `DeviceClient(port)`: no socket yet. */
    constructor(port: int, server: (nat, Command) -> Reply)
      ensures this.port == port && this.server == server
      ensures !connected && sent == []
    {
      this.port := port;
      this.server := server;
      connected := false;
      sent := [];
    }

    /** open_connection: connects unless a socket is already open. */
    method OpenConnection()
      modifies this`connected
      ensures connected
    {
      if !connected {
        connected := true;
      }
    }

    /** close_connection: closes the socket if there is one. */
    method CloseConnection()
      modifies this`connected
      ensures !connected
    {
      if connected {
        connected := false;
      }
    }

    /**
     * send_command: without a socket it raises ConnectionError and sends
     * nothing; otherwise it writes the command and returns the server's
     * answer as Answer reads it.
     */
    method SendCommand(name: string, params: map<string, Value>) returns (r: Outcome<Value>)
      modifies this`sent
      ensures !connected ==> r == Fail(NotConnected) && sent == old(sent)
      ensures connected ==> sent == old(sent) + [Command(name, params)]
      ensures connected ==> r == Answer(name, server(|old(sent)|, Command(name, params)))
      ensures r == SendResult(connected, server, |old(sent)|, Command(name, params))
    {
      if !connected {
        return Fail(NotConnected);
      }
      var command := Command(name, params);
      var reply := server(|sent|, command);
      sent := sent + [command];
      r := Answer(name, reply);
    }
  }
}
