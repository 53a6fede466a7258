/**
 * The lab side of the WebSocket link to a fluid-simulation page
 * (color_lab/device_drivers.py, FluidSimulationServer and FluidSimulationApi):
 * the messages the drivers send, the queue they go through, and the
 * filter that picks the average colour out of what the page sends back.
 */
module SimulationLinks {
  import opened Options
  import opened PyValues

  /** The four commands the Api sends to the page. */
  datatype ApiMessage =
    | UpdateConfig(key: string, value: Value)
    | Clear
    | CenterSplat
    | ComputeAverageColor

  /** The `type` tag of each command. */
  function TypeName(m: ApiMessage): (t: string)
    ensures |t| > 0
  {
    match m
    case UpdateConfig(_, _) => "updateConfig"
    case Clear => "clear"
    case CenterSplat => "centerSplat"
    case ComputeAverageColor => "computeAverageColor"
  }

  /** The dict each Api method puts on the queue. */
  function Encode(m: ApiMessage): (v: Value)
    ensures v.Obj? && "type" in v.fields && v.fields["type"] == Str(TypeName(m))
    ensures m.UpdateConfig? <==> "key" in v.fields
    ensures |v.fields| == if m.UpdateConfig? then 3 else 1
  {
    match m
    case UpdateConfig(key, value) => Obj(map["type" := Str("updateConfig"), "key" := Str(key), "value" := value])
    case _ => Obj(map["type" := Str(TypeName(m))])
  }

  /**
   * How the page reads a message (the `switch (data.type)` of its onMessage
   * handler, restricted to the four commands the Api sends): the command it
   * dispatches to, or None for a type it does not know.
   */
  function Decode(v: Value): (r: Option<ApiMessage>)
    ensures r.Some? ==> v.Obj? && "type" in v.fields && v.fields["type"] == Str(TypeName(r.value))
  {
    if !v.Obj? || "type" !in v.fields then None
    else
      var t := v.fields["type"];
      if t == Str("updateConfig") then
        if "key" in v.fields && v.fields["key"].Str? && "value" in v.fields
        then Some(UpdateConfig(v.fields["key"].s, v.fields["value"]))
        else None
      else if t == Str("clear") then Some(Clear)
      else if t == Str("centerSplat") then Some(CenterSplat)
      else if t == Str("computeAverageColor") then Some(ComputeAverageColor)
      else None
  }

  /** The page dispatches every Api message to the command it was built from. */
  lemma DecodeEncode(m: ApiMessage)
    ensures Decode(Encode(m)) == Some(m)
  {
    match m
    case UpdateConfig(key, value) =>
      var f := Encode(m).fields;
      assert f["type"] == Str("updateConfig") && f["key"] == Str(key) && f["value"] == value;
    case _ =>
  }

  /** So no two commands share a dict. */
  lemma EncodeInjective(m: ApiMessage, n: ApiMessage)
    requires Encode(m) == Encode(n)
    ensures m == n
  {
    DecodeEncode(m);
    DecodeEncode(n);
  }

  /** The dicts of a run of commands, in order. */
  function EncodeAll(ms: seq<ApiMessage>): (vs: seq<Value>)
    ensures |vs| == |ms|
  {
    if |ms| == 0 then [] else EncodeAll(ms[..|ms| - 1]) + [Encode(ms[|ms| - 1])]
  }

  /** The i-th dict is the encoding of the i-th command. */
  lemma {:induction false} EncodeAllAt(ms: seq<ApiMessage>)
    ensures forall i | 0 <= i < |ms| :: EncodeAll(ms)[i] == Encode(ms[i])
  {
    if |ms| > 0 {
      EncodeAllAt(ms[..|ms| - 1]);
    }
  }

  lemma {:induction false} EncodeAllConcat(xs: seq<ApiMessage>, ys: seq<ApiMessage>)
    ensures EncodeAll(xs + ys) == EncodeAll(xs) + EncodeAll(ys)
    decreases |ys|
  {
    if |ys| == 0 {
      assert xs + ys == xs;
    } else {
      var n := |ys| - 1;
      assert (xs + ys)[..|xs + ys| - 1] == xs + ys[..n];
      EncodeAllConcat(xs, ys[..n]);
    }
  }

  // ---------------------------------------------------------------------
  // What the page sends back
  // ---------------------------------------------------------------------

  /** One WebSocket frame from the page: a JSON value, or text that is not JSON. */
  datatype Frame = Json(v: Value) | NotJson

  /** The colour an `averageColor` frame reports, if the frame has both keys. */
  function ColorReport(f: Frame): Option<Value> {
    if f.Json? && f.v.Obj? && "type" in f.v.fields && f.v.fields["type"] == Str("averageColor")
       && "color" in f.v.fields
    then Some(f.v.fields["color"])
    else None
  }

  /** How receive_messages ends: the connection closed, a frame was not JSON, or an indexing error escaped. */
  datatype Ending = Closed | BadJson | Escaped(error: Exception)

  /** The server's colour slot after a run of frames, and how the run ended. */
  datatype Received = Received(averageColor: Value, colorSet: bool, ending: Ending)

  /**
   * receive_messages over `frames`, starting from colour `color` and event
   * flag `flag`: an `averageColor` frame stores its colour and sets the flag,
   * any other type is only logged, a frame that is not JSON ends the loop
   * quietly, and a missing `type` or `color` key (or a value that is not a
   * dict) raises out of it.
   */
  function Receive(color: Value, flag: bool, frames: seq<Frame>): Received
    decreases |frames|
  {
    if |frames| == 0 then Received(color, flag, Closed)
    else match frames[0]
      case NotJson => Received(color, flag, BadJson)
      case Json(data) =>
        match Index(data, "type")
        case Fail(e) => Received(color, flag, Escaped(e))
        case Ok(t) =>
          if t == Str("averageColor") then
            match Index(data, "color")
            case Fail(e) => Received(color, flag, Escaped(e))
            case Ok(c) => Receive(c, true, frames[1..])
          else Receive(color, flag, frames[1..])
  }

  /**
   * Only `averageColor` frames touch the colour slot: afterwards it holds
   * either what it held before (with the flag as it was) or the colour of
   * one of the frames (with the flag raised).
   */
  lemma {:induction false} ReceiveOnlyColors(color: Value, flag: bool, frames: seq<Frame>)
    ensures var r := Receive(color, flag, frames);
            || (r.averageColor == color && r.colorSet == flag)
            || (r.colorSet && exists i | 0 <= i < |frames| :: ColorReport(frames[i]) == Some(r.averageColor))
    decreases |frames|
  {
    if |frames| > 0 && frames[0].Json? {
      var data := frames[0].v;
      if Index(data, "type").Ok? && Index(data, "type").value == Str("averageColor") && Index(data, "color").Ok? {
        var c := Index(data, "color").value;
        ReceiveOnlyColors(c, true, frames[1..]);
        var r := Receive(c, true, frames[1..]);
        assert ColorReport(frames[0]) == Some(c);
        if r.averageColor != c || !r.colorSet {
          var i :| 0 <= i < |frames[1..]| && ColorReport(frames[1..][i]) == Some(r.averageColor);
          assert frames[1..][i] == frames[i + 1];
        }
      } else if Index(data, "type").Ok? && Index(data, "type").value != Str("averageColor") {
        ReceiveOnlyColors(color, flag, frames[1..]);
        var r := Receive(color, flag, frames[1..]);
        if r.averageColor != color || r.colorSet != flag {
          var i :| 0 <= i < |frames[1..]| && ColorReport(frames[1..][i]) == Some(r.averageColor);
          assert frames[1..][i] == frames[i + 1];
        }
      }
    }
  }

  /** A run without any `averageColor` frame leaves the colour and the flag as they were. */
  lemma {:induction false} ReceiveIgnoresOthers(color: Value, flag: bool, frames: seq<Frame>)
    requires forall i | 0 <= i < |frames| :: frames[i].Json? ==> Index(frames[i].v, "type") != Ok(Str("averageColor"))
    ensures Receive(color, flag, frames).averageColor == color
    ensures Receive(color, flag, frames).colorSet == flag
    decreases |frames|
  {
    if |frames| > 0 && frames[0].Json? && Index(frames[0].v, "type").Ok? {
      forall i | 0 <= i < |frames[1..]| && frames[1..][i].Json?
        ensures Index(frames[1..][i].v, "type") != Ok(Str("averageColor"))
      {
        assert frames[1..][i] == frames[i + 1];
      }
      ReceiveIgnoresOthers(color, flag, frames[1..]);
    }
  }

  /** The last colour reported wins: a well-formed `averageColor` frame at the end of a clean run sets the slot to its colour. */
  lemma {:induction false} ReceiveLastWins(color: Value, flag: bool, frames: seq<Frame>, c: Value)
    requires Receive(color, flag, frames).ending == Closed
    ensures var f := Json(Obj(map["type" := Str("averageColor"), "color" := c]));
            Receive(color, flag, frames + [f]) == Received(c, true, Closed)
    decreases |frames|
  {
    var f := Json(Obj(map["type" := Str("averageColor"), "color" := c]));
    if |frames| == 0 {
      assert [f][1..] == [];
    } else {
      assert (frames + [f])[0] == frames[0] && (frames + [f])[1..] == frames[1..] + [f];
      var data := frames[0].v;
      if Index(data, "type").value == Str("averageColor") {
        ReceiveLastWins(Index(data, "color").value, true, frames[1..], c);
      } else {
        ReceiveLastWins(color, flag, frames[1..], c);
      }
    }
  }

  // ---------------------------------------------------------------------
  // The server object
  // ---------------------------------------------------------------------

  class FluidSimulationServer {
    const port: int
    /** Every message put on message_queue, in order; send_messages forwards them to the page. */
    var queue: seq<Value>
    /** `average_color`, None (Null) until the page reports one. */
    var averageColor: Value
    /** Whether `average_color_event` is set. */
    var averageColorSet: bool

    /** A server for `port` with an empty queue, no colour and the event clear. */
    constructor(port: int)
      ensures this.port == port
      ensures queue == [] && averageColor == Null && !averageColorSet
    {
      this.port := port;
      queue := [];
      averageColor := Null;
      averageColorSet := false;
    }

    /** send_message: the message joins the back of the queue. */
    method SendMessage(message: Value)
      modifies this`queue
      ensures queue == old(queue) + [message]
    {
      queue := queue + [message];
    }

    /** The `averageColor` branch of receive_messages: store the colour and set the event. */
    method RecordAverageColor(color: Value)
      modifies this`averageColor, this`averageColorSet
      ensures averageColor == color && averageColorSet
    {
      averageColor := color;
      averageColorSet := true;
    }

    /**
     * receive_messages over the frames the page sends: the colour slot ends
     * as Receive says, a frame that is not JSON ends the loop without error,
     * and an indexing error escapes as the method's failure.
     */
    method ReceiveMessages(frames: seq<Frame>) returns (r: Outcome<()>)
      modifies this`averageColor, this`averageColorSet
      ensures var after := Receive(old(averageColor), old(averageColorSet), frames);
              && averageColor == after.averageColor
              && averageColorSet == after.colorSet
              && r == if after.ending.Escaped? then Fail(after.ending.error) else Ok(())
    {
      ghost var after := Receive(averageColor, averageColorSet, frames);
      var i := 0;
      while i < |frames|
        invariant 0 <= i <= |frames|
        invariant Receive(averageColor, averageColorSet, frames[i..]) == after
      {
        assert frames[i..][1..] == frames[i + 1..];
        match frames[i]
        case NotJson =>
          return Ok(());
        case Json(data) =>
          var t := Index(data, "type");
          if t.Fail? {
            return Fail(t.error);
          }
          if t.value == Str("averageColor") {
            var c := Index(data, "color");
            if c.Fail? {
              return Fail(c.error);
            }
            RecordAverageColor(c.value);
          }
        i := i + 1;
      }
      return Ok(());
    }
  }

  /** FluidSimulationApi: each method puts one message on its server's queue. */
  class FluidSimulationApi {
    const server: FluidSimulationServer

    constructor(server: FluidSimulationServer)
      ensures this.server == server
    {
      this.server := server;
    }

    /** update_config: `{"type": "updateConfig", "key": key, "value": value}`. */
    method UpdateConfigOf(key: string, value: Value)
      modifies server`queue
      ensures server.queue == old(server.queue) + [Encode(UpdateConfig(key, value))]
    {
      server.SendMessage(Obj(map["type" := Str("updateConfig"), "key" := Str(key), "value" := value]));
    }

    /** clear_screen: `{"type": "clear"}`. */
    method ClearScreen()
      modifies server`queue
      ensures server.queue == old(server.queue) + [Encode(Clear)]
    {
      server.SendMessage(Obj(map["type" := Str("clear")]));
    }

    /** center_splat: `{"type": "centerSplat"}`. */
    method CenterSplatOf()
      modifies server`queue
      ensures server.queue == old(server.queue) + [Encode(CenterSplat)]
    {
      server.SendMessage(Obj(map["type" := Str("centerSplat")]));
    }

    /**
     * compute_average_color. `arrival` is the colour the page reports within
     * the ten-second wait, or None if it does not. An event already set (a
     * report that came in while nobody was waiting) returns the stored colour
     * at once; an arrival is stored and returned; a timeout returns None.
     * The event is clear afterwards in every case.
     */
    method ComputeAverageColorOf(arrival: Option<Value>) returns (r: Value)
      modifies server`queue, server`averageColor, server`averageColorSet
      ensures server.queue == old(server.queue) + [Encode(ComputeAverageColor)]
      ensures old(server.averageColorSet) ==> r == old(server.averageColor) && server.averageColor == r
      ensures !old(server.averageColorSet) && arrival.Some? ==> r == arrival.value && server.averageColor == r
      ensures !old(server.averageColorSet) && arrival.None? ==> r == Null && server.averageColor == old(server.averageColor)
      ensures !server.averageColorSet
    {
      server.SendMessage(Obj(map["type" := Str("computeAverageColor")]));
      if server.averageColorSet {
        r := server.averageColor;
      } else if arrival.Some? {
        server.RecordAverageColor(arrival.value);
        r := server.averageColor;
      } else {
        r := Null;
      }
      server.averageColorSet := false;
    }
  }
}
