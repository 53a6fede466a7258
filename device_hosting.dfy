/**
 * How the drivers are hosted (color_lab/device_drivers.py): the per-line
 * dispatch loop every device listener runs, and the manager that starts the
 * fluid-simulation instances and assigns the ports of the simulated devices.
 */
module DeviceHosting {
  import opened PyValues
  import opened SimulationLinks

  // ---------------------------------------------------------------------
  // handle_device
  // ---------------------------------------------------------------------

  /** What one `readline` yields: a JSON line, a line that is not JSON, or the empty read at the end. */
  datatype Incoming = Line(command: Value) | NotJson | Eof

  /**
   * The driver a listener serves: which attribute names it has, and what
   * awaiting the named method with the given keyword arguments returns or
   * raises when it is the n-th line of the connection.
   */
  datatype Driver = Driver(has: string -> bool, call: (nat, string, map<string, Value>) -> Outcome<Value>)

  /** `{"error": message}`. */
  function ErrorResponse(message: string): (v: Value)
    ensures v.Obj? && v.fields.Keys == {"error"} && v.fields["error"] == Str(message)
  {
    Obj(map["error" := Str(message)])
  }

  const NotFound := "Function not found"
  const InvalidJson := "Invalid JSON received"

  /**
   * The response to a decoded command: the method's result, "Function not
   * found" for a name the driver lacks, and `str(e)` (given by `describe`)
   * for anything raised on the way: a missing or non-string "function", a
   * missing or non-dict "params", or the method itself raising.
   */
  function Dispatch(d: Driver, describe: Exception -> string, n: nat, command: Value): (r: Value)
    ensures (command.Obj? && "function" in command.fields && command.fields["function"].Str?
             && !d.has(command.fields["function"].s)) ==> r == ErrorResponse(NotFound)
    ensures (!command.Obj? || "function" !in command.fields) ==> r == ErrorResponse(describe(Index(command, "function").error))
  {
    match Index(command, "function")
    case Fail(e) => ErrorResponse(describe(e))
    case Ok(f) =>
      if !f.Str? then ErrorResponse(describe(TypeError))
      else if !d.has(f.s) then ErrorResponse(NotFound)
      else
        match Index(command, "params")
        case Fail(e) => ErrorResponse(describe(e))
        case Ok(p) =>
          if !p.Obj? then ErrorResponse(describe(TypeError))
          else
            match d.call(n, f.s, p.fields)
            case Ok(v) => v
            case Fail(e) => ErrorResponse(describe(e))
  }

  /** A method that is found, given a dict of parameters and returning normally, answers with its own result. */
  lemma DispatchCalls(d: Driver, describe: Exception -> string, n: nat, name: string, params: map<string, Value>, v: Value)
    requires d.has(name) && d.call(n, name, params) == Ok(v)
    ensures Dispatch(d, describe, n, Obj(map["function" := Str(name), "params" := Obj(params)])) == v
  {
    var c := Obj(map["function" := Str(name), "params" := Obj(params)]);
    assert c.fields["function"] == Str(name) && c.fields["params"] == Obj(params);
  }

  /** The response to one line that is not the end. */
  function Response(d: Driver, describe: Exception -> string, n: nat, line: Incoming): Value
    requires !line.Eof?
  {
    if line.NotJson? then ErrorResponse(InvalidJson) else Dispatch(d, describe, n, line.command)
  }

  /** The lines the loop reads before the empty read: up to the first Eof, or all of them. */
  function LinesRead(lines: seq<Incoming>): (k: nat)
    ensures k <= |lines|
    ensures forall i | 0 <= i < k :: !lines[i].Eof?
    ensures k < |lines| ==> lines[k].Eof?
  {
    if |lines| == 0 || lines[0].Eof? then 0 else 1 + LinesRead(lines[1..])
  }

  /** The responses written for `lines`, numbering the first of them `n`. */
  function Responses(d: Driver, describe: Exception -> string, lines: seq<Incoming>, n: nat): seq<Value>
    decreases |lines|
  {
    if |lines| == 0 || lines[0].Eof? then []
    else [Response(d, describe, n, lines[0])] + Responses(d, describe, lines[1..], n + 1)
  }

  /**
   * Exactly one response per line read, in order, each the response to its
   * own line; nothing after the empty read is answered.
   */
  lemma {:induction false} ResponsesPerLine(d: Driver, describe: Exception -> string, lines: seq<Incoming>, n: nat)
    ensures |Responses(d, describe, lines, n)| == LinesRead(lines)
    ensures forall i | 0 <= i < LinesRead(lines) :: Responses(d, describe, lines, n)[i] == Response(d, describe, n + i, lines[i])
    decreases |lines|
  {
    if |lines| > 0 && !lines[0].Eof? {
      ResponsesPerLine(d, describe, lines[1..], n + 1);
      forall i | 0 < i < LinesRead(lines)
        ensures Responses(d, describe, lines, n)[i] == Response(d, describe, n + i, lines[i])
      {
        assert lines[1..][i - 1] == lines[i];
      }
    }
  }

  /** The loop continues after a bad line: the responses for two runs of lines are the runs' responses together. */
  lemma {:induction false} ResponsesAppend(d: Driver, describe: Exception -> string, xs: seq<Incoming>, ys: seq<Incoming>, n: nat)
    requires forall i | 0 <= i < |xs| :: !xs[i].Eof?
    ensures Responses(d, describe, xs + ys, n) == Responses(d, describe, xs, n) + Responses(d, describe, ys, n + |xs|)
    decreases |xs|
  {
    if |xs| == 0 {
      assert xs + ys == ys;
    } else {
      assert (xs + ys)[0] == xs[0] && (xs + ys)[1..] == xs[1..] + ys;
      ResponsesAppend(d, describe, xs[1..], ys, n + 1);
    }
  }

  /**
   * handle_device's `while True` loop: read a line, stop at the empty read,
   * otherwise write the one response for it.
   */
  method HandleDevice(d: Driver, describe: Exception -> string, lines: seq<Incoming>) returns (written: seq<Value>)
    ensures written == Responses(d, describe, lines, 0)
  {
    written := [];
    var i := 0;
    while i < |lines|
      invariant 0 <= i <= |lines|
      invariant forall k | 0 <= k < i :: !lines[k].Eof?
      invariant written + Responses(d, describe, lines[i..], i) == Responses(d, describe, lines, 0)
    {
      var line := lines[i];
      if line.Eof? {
        break;
      }
      assert lines[i..][1..] == lines[i + 1..];
      var response;
      if line.NotJson? {
        response := ErrorResponse(InvalidJson);
      } else {
        response := Dispatch(d, describe, i, line.command);
      }
      written := written + [response];
      i := i + 1;
    }
  }

  // ---------------------------------------------------------------------
  // FluidSimulationManager and the port map
  // ---------------------------------------------------------------------

  /** A device listener's driver: the two static ones, or a simulation driver bound to one Api. */
  datatype DriverRef =
    | CleaningStationDriver
    | RobotArmDriver
    | ColorAnalyzerOn(api: FluidSimulationApi)
    | ColorMixerOn(api: FluidSimulationApi)

  /** A `(driver, port)` pair of the devices dict. */
  datatype Listener = Listener(driver: DriverRef, port: int)

  function AnalyzerKey(i: nat): string {
    "color_analyzer_" + NatToString(i)
  }

  function MixerKey(i: nat): string {
    "color_mixer_" + NatToString(i)
  }

  /**
   * get_simulation_devices over the Apis: for the i-th Api (from 0), the
   * analyzer `color_analyzer_{i+1}` on 5003 + 2i and the mixer
   * `color_mixer_{i+1}` on 5004 + 2i.
   */
  function SimulationDevices(apis: seq<FluidSimulationApi>): map<string, Listener> {
    if |apis| == 0 then map[]
    else
      var i := |apis| - 1;
      SimulationDevices(apis[..i])
        [AnalyzerKey(i + 1) := Listener(ColorAnalyzerOn(apis[i]), 5003 + i * 2)]
        [MixerKey(i + 1) := Listener(ColorMixerOn(apis[i]), 5004 + i * 2)]
  }

  /** One more instance adds its analyzer, then its mixer. */
  lemma SimulationDevicesStep(apis: seq<FluidSimulationApi>, i: nat)
    requires i < |apis|
    ensures SimulationDevices(apis[..i + 1])
            == SimulationDevices(apis[..i])
                 [AnalyzerKey(i + 1) := Listener(ColorAnalyzerOn(apis[i]), 5003 + i * 2)]
                 [MixerKey(i + 1) := Listener(ColorMixerOn(apis[i]), 5004 + i * 2)]
  {
    assert apis[..i + 1][..i] == apis[..i];
  }

  /** The static devices of main(). */
  function StaticDevices(): map<string, Listener> {
    map["cleaning_station" := Listener(CleaningStationDriver, 5001), "robot_arm" := Listener(RobotArmDriver, 5002)]
  }

  /** `{**static_devices, **fluid_sim_devices}`. */
  function AllDevices(apis: seq<FluidSimulationApi>): map<string, Listener> {
    StaticDevices() + SimulationDevices(apis)
  }

  /** The key of a simulation device, given its number (from 1) and whether it is the mixer. */
  function DeviceKey(i: nat, mixer: bool): string {
    if mixer then MixerKey(i) else AnalyzerKey(i)
  }

  /** Every simulation key starts with "co". */
  lemma DeviceKeyPrefix(i: nat, mixer: bool)
    ensures DeviceKey(i, mixer)[0] == 'c' && DeviceKey(i, mixer)[1] == 'o'
  {
  }

  /** Different numbers or kinds give different keys. */
  lemma DeviceKeyInjective(i: nat, a: bool, j: nat, b: bool)
    requires DeviceKey(i, a) == DeviceKey(j, b)
    ensures i == j && a == b
  {
    if a == b && a {
      assert MixerKey(i)[12..] == NatToString(i) && MixerKey(j)[12..] == NatToString(j);
      NatToStringInjective(i, j);
    } else if a == b {
      assert AnalyzerKey(i)[15..] == NatToString(i) && AnalyzerKey(j)[15..] == NatToString(j);
      NatToStringInjective(i, j);
    } else if a {
      KindsDiffer(j, i);
    } else {
      KindsDiffer(i, j);
    }
  }

  /** An analyzer key is never a mixer key: they part at the seventh character. */
  lemma KindsDiffer(i: nat, j: nat)
    ensures AnalyzerKey(i) != MixerKey(j)
  {
    assert AnalyzerKey(i)[6] == 'a' && MixerKey(j)[6] == 'm';
  }

  /** The port the i-th (from 1) analyzer or mixer listens on. */
  function DevicePort(i: nat, mixer: bool): int {
    5001 + 2 * i + if mixer then 1 else 0
  }

  /** Two devices differing in number or kind have different ports. */
  lemma DevicePortsDiffer(i: nat, a: bool, j: nat, b: bool)
    requires i != j || a != b
    ensures DevicePort(i, a) != DevicePort(j, b)
  {
  }

  /** The entry get_simulation_devices makes for the i-th (from 1) analyzer or mixer. */
  function Expected(apis: seq<FluidSimulationApi>, i: nat, mixer: bool): Listener
    requires 1 <= i <= |apis|
  {
    Listener(if mixer then ColorMixerOn(apis[i - 1]) else ColorAnalyzerOn(apis[i - 1]), DevicePort(i, mixer))
  }

  /** Whether `k` is the key of one of the first n simulation devices. */
  predicate IsDeviceKey(k: string, n: nat) {
    exists i, mixer | 1 <= i <= n :: k == DeviceKey(i, mixer)
  }

  /** Each analyzer and mixer has its entry, bound to its own Api and on its own port. */
  lemma {:induction false} SimulationDevicesEntries(apis: seq<FluidSimulationApi>)
    ensures forall i, mixer | 1 <= i <= |apis| ::
              DeviceKey(i, mixer) in SimulationDevices(apis) && SimulationDevices(apis)[DeviceKey(i, mixer)] == Expected(apis, i, mixer)
  {
    if |apis| > 0 {
      var n := |apis| - 1;
      var m := SimulationDevices(apis);
      SimulationDevicesEntries(apis[..n]);
      forall i, mixer | 1 <= i <= n + 1
        ensures DeviceKey(i, mixer) in m && m[DeviceKey(i, mixer)] == Expected(apis, i, mixer)
      {
        if i <= n {
          assert Expected(apis[..n], i, mixer) == Expected(apis, i, mixer);
          if DeviceKey(i, mixer) == AnalyzerKey(n + 1) {
            assert AnalyzerKey(n + 1) == DeviceKey(n + 1, false);
            DeviceKeyInjective(i, mixer, n + 1, false);
          }
          if DeviceKey(i, mixer) == MixerKey(n + 1) {
            assert MixerKey(n + 1) == DeviceKey(n + 1, true);
            DeviceKeyInjective(i, mixer, n + 1, true);
          }
        }
      }
    }
  }

  /** There are no other entries. */
  lemma {:induction false} SimulationDevicesKeys(apis: seq<FluidSimulationApi>)
    ensures forall k | k in SimulationDevices(apis) :: IsDeviceKey(k, |apis|)
  {
    if |apis| > 0 {
      var n := |apis| - 1;
      SimulationDevicesKeys(apis[..n]);
      forall k | k in SimulationDevices(apis)
        ensures IsDeviceKey(k, n + 1)
      {
        if k == AnalyzerKey(n + 1) {
          assert k == DeviceKey(n + 1, false);
        } else if k == MixerKey(n + 1) {
          assert k == DeviceKey(n + 1, true);
        } else {
          assert k in SimulationDevices(apis[..n]) && IsDeviceKey(k, n);
          var j, b :| 1 <= j <= n && k == DeviceKey(j, b);
          assert k == DeviceKey(j, b);
        }
      }
    }
  }

  /** A device numbered past n has no entry among the first n instances' devices. */
  lemma NewKeysFresh(apis: seq<FluidSimulationApi>, i: nat, mixer: bool)
    requires i > |apis|
    ensures DeviceKey(i, mixer) !in SimulationDevices(apis)
  {
    SimulationDevicesKeys(apis);
    if DeviceKey(i, mixer) in SimulationDevices(apis) {
      var j, b :| 1 <= j <= |apis| && DeviceKey(i, mixer) == DeviceKey(j, b);
      DeviceKeyInjective(j, b, i, mixer);
    }
  }

  /** get_simulation_devices holds 2·n distinct keys. */
  lemma {:induction false} SimulationDevicesSize(apis: seq<FluidSimulationApi>)
    ensures |SimulationDevices(apis)| == 2 * |apis|
  {
    if |apis| > 0 {
      var n := |apis| - 1;
      var before := SimulationDevices(apis[..n]);
      SimulationDevicesSize(apis[..n]);
      SimulationDevicesKeys(apis[..n]);
      assert AnalyzerKey(n + 1) == DeviceKey(n + 1, false) && MixerKey(n + 1) == DeviceKey(n + 1, true);
      NewKeysFresh(apis[..n], n + 1, false);
      NewKeysFresh(apis[..n], n + 1, true);
      if AnalyzerKey(n + 1) == MixerKey(n + 1) {
        DeviceKeyInjective(n + 1, false, n + 1, true);
      }
      var mid := before[AnalyzerKey(n + 1) := Listener(ColorAnalyzerOn(apis[n]), 5003 + n * 2)];
      assert |mid| == |before| + 1;
      assert MixerKey(n + 1) !in mid;
    }
  }

  /** The number and kind behind a simulation key, and the port its entry has. */
  lemma KeyOf(apis: seq<FluidSimulationApi>, k: string) returns (i: nat, mixer: bool)
    requires k in SimulationDevices(apis)
    ensures 1 <= i <= |apis| && k == DeviceKey(i, mixer)
    ensures SimulationDevices(apis)[k].port == DevicePort(i, mixer)
  {
    SimulationDevicesKeys(apis);
    i, mixer :| 1 <= i <= |apis| && k == DeviceKey(i, mixer);
    SimulationDevicesEntries(apis);
    assert SimulationDevices(apis)[DeviceKey(i, mixer)] == Expected(apis, i, mixer);
  }

  /** No two simulation devices share a port. */
  lemma SimulationPortsDistinct(apis: seq<FluidSimulationApi>)
    ensures var m := SimulationDevices(apis);
            forall k1, k2 | k1 in m && k2 in m && k1 != k2 :: m[k1].port != m[k2].port
  {
    var m := SimulationDevices(apis);
    forall k1, k2 | k1 in m && k2 in m && k1 != k2
      ensures m[k1].port != m[k2].port
    {
      var i, a := KeyOf(apis, k1);
      var j, b := KeyOf(apis, k2);
      DevicePortsDiffer(i, a, j, b);
    }
  }

  /** Every simulation port lies in 5003 .. 5002 + 2·n, clear of 5001 and 5002. */
  lemma SimulationPortsRange(apis: seq<FluidSimulationApi>)
    ensures forall k | k in SimulationDevices(apis) :: 5003 <= SimulationDevices(apis)[k].port <= 5002 + 2 * |apis|
  {
    forall k | k in SimulationDevices(apis)
      ensures 5003 <= SimulationDevices(apis)[k].port <= 5002 + 2 * |apis|
    {
      var i, a := KeyOf(apis, k);
    }
  }

  /** The static keys are not simulation keys, so the merge keeps both sides whole. */
  lemma StaticKeysApart(apis: seq<FluidSimulationApi>)
    ensures "cleaning_station" !in SimulationDevices(apis) && "robot_arm" !in SimulationDevices(apis)
  {
    SimulationDevicesKeys(apis);
    forall k | k in SimulationDevices(apis)
      ensures k != "cleaning_station" && k != "robot_arm"
    {
      var i, a :| 1 <= i <= |apis| && k == DeviceKey(i, a);
      DeviceKeyPrefix(i, a);
      assert "cleaning_station"[1] == 'l' && "robot_arm"[0] == 'r';
    }
  }

  /** main()'s merged devices dict keeps both sides whole: the two static devices and the simulation devices keep their entries. */
  lemma AllDevicesEntries(apis: seq<FluidSimulationApi>)
    ensures var m := AllDevices(apis);
            && m["cleaning_station"] == Listener(CleaningStationDriver, 5001)
            && m["robot_arm"] == Listener(RobotArmDriver, 5002)
            && (forall k | k in SimulationDevices(apis) :: k in m && m[k] == SimulationDevices(apis)[k])
  {
    StaticKeysApart(apis);
  }

  /** main() starts 2·n + 2 listeners. */
  lemma AllDevicesSize(apis: seq<FluidSimulationApi>)
    ensures |AllDevices(apis)| == 2 * |apis| + 2
  {
    var s := StaticDevices();
    var d := SimulationDevices(apis);
    StaticKeysApart(apis);
    SimulationDevicesSize(apis);
    assert s.Keys == {"cleaning_station", "robot_arm"};
    assert s.Keys * d.Keys == {};
    assert AllDevices(apis).Keys == s.Keys + d.Keys;
    assert |s.Keys| == 2;
  }

  /** Every listener of main() has a port of its own. */
  lemma AllDevicesPortsDistinct(apis: seq<FluidSimulationApi>)
    ensures var m := AllDevices(apis);
            forall k1, k2 | k1 in m && k2 in m && k1 != k2 :: m[k1].port != m[k2].port
  {
    var m := AllDevices(apis);
    var d := SimulationDevices(apis);
    SimulationPortsDistinct(apis);
    SimulationPortsRange(apis);
    StaticKeysApart(apis);
    forall k | k in m
      ensures m[k].port == (if k in d then d[k].port else StaticDevices()[k].port)
      ensures k !in d ==> k == "cleaning_station" || k == "robot_arm"
    {
    }
  }

  class FluidSimulationManager {
    const numInstances: nat
    const baseWebsocketPort: int
    const baseWebPort: int
    var fluidServers: seq<FluidSimulationServer>
    var fluidApis: seq<FluidSimulationApi>
    /** One `(web_port, websocket_port)` pair per static web server started, the page each one opens. */
    var webPages: seq<(int, int)>

    /** The three lists grow together, and the i-th Api talks to the i-th server. */
    predicate Valid()
      reads this
    {
      && |fluidApis| == |fluidServers| == |webPages|
      && forall i | 0 <= i < |fluidApis| :: fluidApis[i].server == fluidServers[i]
    }

    constructor(numInstances: nat, baseWebsocketPort: int := 8030, baseWebPort: int := 9050)
      ensures Valid()
      ensures this.numInstances == numInstances
      ensures this.baseWebsocketPort == baseWebsocketPort && this.baseWebPort == baseWebPort
      ensures fluidServers == [] && fluidApis == [] && webPages == []
    {
      this.numInstances := numInstances;
      this.baseWebsocketPort := baseWebsocketPort;
      this.baseWebPort := baseWebPort;
      fluidServers := [];
      fluidApis := [];
      webPages := [];
    }

    /**
     * initialize_instances: instance i gets a new server on websocket port
     * base + i, an Api on that server, and a web server on web port base + i
     * that opens the page for the websocket port; all are appended.
     */
    method InitializeInstances()
      requires Valid()
      modifies this`fluidServers, this`fluidApis, this`webPages
      ensures Valid()
      ensures |fluidServers| == |old(fluidServers)| + numInstances && fluidServers[..|old(fluidServers)|] == old(fluidServers)
      ensures fluidApis[..|old(fluidApis)|] == old(fluidApis) && webPages[..|old(webPages)|] == old(webPages)
      ensures forall i | |old(fluidServers)| <= i < |fluidServers| ::
                && fresh(fluidServers[i]) && fresh(fluidApis[i])
                && fluidServers[i].port == baseWebsocketPort + (i - |old(fluidServers)|)
                && fluidServers[i].queue == []
                && webPages[i] == (baseWebPort + (i - |old(fluidServers)|), baseWebsocketPort + (i - |old(fluidServers)|))
    {
      ghost var n0 := |fluidServers|;
      var i := 0;
      while i < numInstances
        invariant 0 <= i <= numInstances && Valid()
        invariant |fluidServers| == n0 + i && fluidServers[..n0] == old(fluidServers)
        invariant fluidApis[..n0] == old(fluidApis) && webPages[..n0] == old(webPages)
        invariant forall j | n0 <= j < |fluidServers| ::
                    && fresh(fluidServers[j]) && fresh(fluidApis[j])
                    && fluidServers[j].port == baseWebsocketPort + (j - n0)
                    && fluidServers[j].queue == []
                    && webPages[j] == (baseWebPort + (j - n0), baseWebsocketPort + (j - n0))
      {
        var websocketPort := baseWebsocketPort + i;
        var webPort := baseWebPort + i;
        var server := new FluidSimulationServer(websocketPort);
        fluidServers := fluidServers + [server];
        var api := new FluidSimulationApi(server);
        fluidApis := fluidApis + [api];
        webPages := webPages + [(webPort, websocketPort)];
        i := i + 1;
      }
    }

    /** get_simulation_devices: the dict filled in the loop over the Apis. */
    method GetSimulationDevices() returns (devices: map<string, Listener>)
      ensures devices == SimulationDevices(fluidApis)
    {
      devices := map[];
      var i := 0;
      while i < |fluidApis|
        invariant 0 <= i <= |fluidApis|
        invariant devices == SimulationDevices(fluidApis[..i])
      {
        SimulationDevicesStep(fluidApis, i);
        devices := devices[AnalyzerKey(i + 1) := Listener(ColorAnalyzerOn(fluidApis[i]), 5003 + i * 2)];
        devices := devices[MixerKey(i + 1) := Listener(ColorMixerOn(fluidApis[i]), 5004 + i * 2)];
        i := i + 1;
      }
      assert fluidApis[..i] == fluidApis;
    }
  }
}
