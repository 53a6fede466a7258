/**
 * The cleaning station (color_lab/devices/cleaning_station/device.py): it
 * cleans a container and marks it clean when its driver says so.
 */
module CleaningStations {
  import opened PyValues
  import opened DeviceClients
  import opened Containers

  function CleanCommand(durationSec: real): Command {
    Command("clean", map["duration_sec" := Num(durationSec)])
  }

  class CleaningStationDevice {
    const client: DeviceClient

    constructor(port: int, server: (nat, Command) -> Reply)
      ensures fresh(client) && client.port == port && client.server == server
      ensures client.connected && client.sent == []
    {
      client := new DeviceClient(port, server);
      new;
      client.OpenConnection();
    }

    method Cleanup()
      modifies client`connected
      ensures !client.connected
    {
      client.CloseConnection();
    }

    /** _report: nothing to report. */
    function Report(): map<string, Value> {
      NoReport()
    }

    /**
     * clean: exactly one "clean" command with the duration (one second
     * unless given). The container is returned exactly when send_command
     * returns; otherwise its exception is the result. A truthy result sets
     * "clean" to True and touches no other key; a falsy one leaves the
     * metadata as it was.
     */
    method Clean(container: Container, durationSec: real := 1.0) returns (r: Outcome<Container>)
      modifies container`metadata, client`sent
      ensures !client.connected ==> r == Fail(NotConnected) && client.sent == old(client.sent)
      ensures client.connected ==> client.sent == old(client.sent) + [CleanCommand(durationSec)]
      ensures var answer := SendResult(client.connected, client.server, |old(client.sent)|, CleanCommand(durationSec));
              r == if answer.Ok? then Ok(container) else Fail(answer.error)
      ensures r.Ok? ==> var reply := client.server(|old(client.sent)|, CleanCommand(durationSec));
                        && reply.Line?
                        && container.metadata == (if Truthy(reply.v) then old(container.metadata)["clean" := Bool(true)]
                                                  else old(container.metadata))
      ensures r.Fail? ==> container.metadata == old(container.metadata)
      ensures container.location == old(container.location)
    {
      var result := client.SendCommand("clean", map["duration_sec" := Num(durationSec)]);
      if result.Fail? {
        return Fail(result.error);
      }
      if Truthy(result.value) {
        container.metadata := container.metadata["clean" := Bool(true)];
      }
      return Ok(container);
    }
  }
}
