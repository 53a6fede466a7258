/**
 * The drivers behind the simulated devices (color_lab/device_drivers.py):
 * the colour mixer turns a mix request into a run of commands for the
 * fluid-simulation page, and the colour analyzer asks the page for its
 * average colour. The sleeps between commands are not modelled.
 */
module LabDrivers {
  import opened Options
  import opened PyValues
  import opened SimulationLinks

  /** One entry of `color_data`: a colour name with its volume and strength. */
  datatype Shade = Shade(name: string, volume: real, strength: real)

  /** A colour takes part in the mix only with a non-zero volume and a non-zero strength. */
  predicate Active(c: Shade) {
    c.volume != 0.0 && c.strength != 0.0
  }

  /** `color_data` as built, cyan first. */
  function ColorData(cyanVolume: real, cyanStrength: real, magentaVolume: real, magentaStrength: real,
                     yellowVolume: real, yellowStrength: real, blackVolume: real, blackStrength: real): (r: seq<Shade>)
    ensures |r| == 4
    ensures r[0].name == "cyan" && r[1].name == "magenta" && r[2].name == "yellow" && r[3].name == "black"
  {
    [Shade("cyan", cyanVolume, cyanStrength), Shade("magenta", magentaVolume, magentaStrength),
     Shade("yellow", yellowVolume, yellowStrength), Shade("black", blackVolume, blackStrength)]
  }

  function Reverse<T>(s: seq<T>): (r: seq<T>)
    ensures |r| == |s|
  {
    if |s| == 0 then [] else Reverse(s[1..]) + [s[0]]
  }

  /** Reverse puts the i-th entry from the back at position i. */
  lemma {:induction false} ReverseAt<T>(s: seq<T>)
    ensures forall i | 0 <= i < |s| :: Reverse(s)[i] == s[|s| - 1 - i]
  {
    if |s| > 0 {
      ReverseAt(s[1..]);
    }
  }

  /** Reversing twice gives back the list. */
  lemma ReverseReverse<T>(s: seq<T>)
    ensures Reverse(Reverse(s)) == s
  {
    ReverseAt(s);
    ReverseAt(Reverse(s));
  }

  /** `active_colors`: how many entries take part. */
  function ActiveCount(data: seq<Shade>): (n: nat)
    ensures n <= |data|
  {
    if |data| == 0 then 0
    else ActiveCount(data[..|data| - 1]) + (if Active(data[|data| - 1]) then 1 else 0)
  }

  /** Counting over two lists one after the other adds the counts. */
  lemma {:induction false} ActiveCountAppend(xs: seq<Shade>, ys: seq<Shade>)
    ensures ActiveCount(xs + ys) == ActiveCount(xs) + ActiveCount(ys)
    decreases |ys|
  {
    if |ys| == 0 {
      assert xs + ys == xs;
    } else {
      var n := |ys| - 1;
      assert (xs + ys)[..|xs + ys| - 1] == xs + ys[..n];
      ActiveCountAppend(xs, ys[..n]);
    }
  }

  /** The count does not depend on the order, so reversing `color_data` does not change it. */
  lemma {:induction false} ActiveCountReverse(data: seq<Shade>)
    ensures ActiveCount(Reverse(data)) == ActiveCount(data)
  {
    if |data| > 0 {
      var rest := Reverse(data[1..]);
      assert Reverse(data) == rest + [data[0]];
      ActiveCountReverse(data[1..]);
      ActiveCountAppend(rest, [data[0]]);
      ActiveCountAppend([data[0]], data[1..]);
      assert [data[0]] + data[1..] == data;
      assert ActiveCount([data[0]]) == (if Active(data[0]) then 1 else 0) by {
        assert [data[0]][..0] == [];
      }
    }
  }

  /** `individual_mixing_time`: the mixing time shared out evenly over the active colours, 0 if none. */
  function IndividualMixingTime(mixingTime: real, activeColors: nat): (t: real)
    ensures activeColors > 0 ==> t * activeColors as real == mixingTime
    ensures activeColors == 0 ==> t == 0.0
  {
    if activeColors > 0 then mixingTime / activeColors as real else 0.0
  }

  /** No division by zero can happen: the divisor is non-zero, or no colour uses it. */
  predicate Divisible(data: seq<Shade>, maxColorVolume: real) {
    maxColorVolume != 0.0 || ActiveCount(data) == 0
  }

  /** The four commands for one active colour: splat radius, colour, intensity, then the splat. */
  function ShadeMessages(c: Shade, maxColorVolume: real): (r: seq<ApiMessage>)
    requires maxColorVolume != 0.0
    ensures |r| == 4 && r[3] == CenterSplat
  {
    [UpdateConfig("SPLAT_RADIUS", Num(c.volume / maxColorVolume)),
     UpdateConfig("COLOR", Str(Capitalize(c.name))),
     UpdateConfig("COLOR_INTENSITY", Num(c.strength)),
     CenterSplat]
  }

  /** The commands of the loop over `data`: inactive colours contribute nothing. */
  function SplatMessages(data: seq<Shade>, maxColorVolume: real): seq<ApiMessage>
    requires Divisible(data, maxColorVolume)
  {
    if |data| == 0 then []
    else
      var last := data[|data| - 1];
      SplatMessages(data[..|data| - 1], maxColorVolume)
        + if Active(last) then ShadeMessages(last, maxColorVolume) else []
  }

  const Vortex := "VORTEX_STRENGTH"

  /** All commands of a mix that runs to the end, `data` in the order the loop takes it. */
  function MixMessages(data: seq<Shade>, mixingSpeed: real, maxColorVolume: real): seq<ApiMessage>
    requires Divisible(data, maxColorVolume)
  {
    [Clear, UpdateConfig(Vortex, Num(mixingSpeed))] + SplatMessages(data, maxColorVolume)
      + [UpdateConfig(Vortex, Num(0.0))]
  }

  /** Encoding one more command appends its dict. */
  lemma EncodeAllSnoc(ms: seq<ApiMessage>, m: ApiMessage)
    ensures EncodeAll(ms + [m]) == EncodeAll(ms) + [Encode(m)]
  {
    assert (ms + [m])[..|ms|] == ms;
  }

  /** How many of the commands are centre splats. */
  function SplatCount(ms: seq<ApiMessage>): nat {
    if |ms| == 0 then 0 else SplatCount(ms[..|ms| - 1]) + (if ms[|ms| - 1] == CenterSplat then 1 else 0)
  }

  lemma {:induction false} SplatCountAppend(xs: seq<ApiMessage>, ys: seq<ApiMessage>)
    ensures SplatCount(xs + ys) == SplatCount(xs) + SplatCount(ys)
    decreases |ys|
  {
    if |ys| == 0 {
      assert xs + ys == xs;
    } else {
      var n := |ys| - 1;
      assert (xs + ys)[..|xs + ys| - 1] == xs + ys[..n];
      SplatCountAppend(xs, ys[..n]);
    }
  }

  /** The loop sends four commands per active colour, one of them a centre splat. */
  lemma {:induction false} SplatMessagesCounts(data: seq<Shade>, maxColorVolume: real)
    requires Divisible(data, maxColorVolume)
    ensures |SplatMessages(data, maxColorVolume)| == 4 * ActiveCount(data)
    ensures SplatCount(SplatMessages(data, maxColorVolume)) == ActiveCount(data)
  {
    if |data| > 0 {
      var last := data[|data| - 1];
      SplatMessagesCounts(data[..|data| - 1], maxColorVolume);
      if Active(last) {
        var s := ShadeMessages(last, maxColorVolume);
        SplatCountAppend(SplatMessages(data[..|data| - 1], maxColorVolume), s);
        assert s[..0] == [] && s[..1][..0] == s[..0] && s[..2][..1] == s[..1] && s[..3][..2] == s[..2] && s[..4][..3] == s[..3];
        assert s[..4] == s;
        assert SplatCount(s[..1]) == 0;
        assert SplatCount(s[..2]) == 0;
        assert SplatCount(s[..3]) == 0;
      } else {
        assert SplatMessages(data, maxColorVolume) == SplatMessages(data[..|data| - 1], maxColorVolume);
      }
    }
  }

  /**
   * A complete mix sends 3 + 4·active_colors commands, of which exactly
   * active_colors are centre splats; it starts by clearing and setting the
   * vortex to the mixing speed and ends by setting it to 0.
   */
  lemma MixMessagesShape(data: seq<Shade>, mixingSpeed: real, maxColorVolume: real)
    requires Divisible(data, maxColorVolume)
    ensures var ms := MixMessages(data, mixingSpeed, maxColorVolume);
            && |ms| == 3 + 4 * ActiveCount(data)
            && SplatCount(ms) == ActiveCount(data)
            && ms[0] == Clear && ms[1] == UpdateConfig(Vortex, Num(mixingSpeed))
            && ms[|ms| - 1] == UpdateConfig(Vortex, Num(0.0))
  {
    var splats := SplatMessages(data, maxColorVolume);
    SplatMessagesCounts(data, maxColorVolume);
    SplatCountAppend([Clear, UpdateConfig(Vortex, Num(mixingSpeed))], splats);
    SplatCountAppend([Clear, UpdateConfig(Vortex, Num(mixingSpeed))] + splats, [UpdateConfig(Vortex, Num(0.0))]);
    assert SplatCount([Clear, UpdateConfig(Vortex, Num(mixingSpeed))]) == 0 by {
      assert [Clear, UpdateConfig(Vortex, Num(mixingSpeed))][..1] == [Clear];
      assert [Clear][..0] == [];
    }
    assert SplatCount([UpdateConfig(Vortex, Num(0.0))]) == 0 by {
      assert [UpdateConfig(Vortex, Num(0.0))][..0] == [];
    }
  }

  /** The names the COLOR commands carry, in the order sent: the capitalised names of the active colours. */
  function ActiveNames(data: seq<Shade>): seq<string> {
    if |data| == 0 then []
    else ActiveNames(data[..|data| - 1]) + if Active(data[|data| - 1]) then [Capitalize(data[|data| - 1].name)] else []
  }

  function ColorsSent(ms: seq<ApiMessage>): seq<string> {
    if |ms| == 0 then []
    else
      var m := ms[|ms| - 1];
      ColorsSent(ms[..|ms| - 1]) + if m.UpdateConfig? && m.key == "COLOR" && m.value.Str? then [m.value.s] else []
  }

  lemma {:induction false} ColorsSentAppend(xs: seq<ApiMessage>, ys: seq<ApiMessage>)
    ensures ColorsSent(xs + ys) == ColorsSent(xs) + ColorsSent(ys)
    decreases |ys|
  {
    if |ys| == 0 {
      assert xs + ys == xs;
    } else {
      var n := |ys| - 1;
      assert (xs + ys)[..|xs + ys| - 1] == xs + ys[..n];
      ColorsSentAppend(xs, ys[..n]);
    }
  }

  /** The COLOR commands of the loop name the active colours, capitalised, in loop order. */
  lemma {:induction false} SplatColors(data: seq<Shade>, maxColorVolume: real)
    requires Divisible(data, maxColorVolume)
    ensures ColorsSent(SplatMessages(data, maxColorVolume)) == ActiveNames(data)
  {
    if |data| > 0 {
      var last := data[|data| - 1];
      SplatColors(data[..|data| - 1], maxColorVolume);
      if Active(last) {
        var s := ShadeMessages(last, maxColorVolume);
        ColorsSentAppend(SplatMessages(data[..|data| - 1], maxColorVolume), s);
        assert s[..0] == [] && s[..1][..0] == s[..0] && s[..2][..1] == s[..1] && s[..3][..2] == s[..2] && s[..4][..3] == s[..3];
        assert s[..4] == s;
        assert ColorsSent(s[..1]) == [];
        assert ColorsSent(s[..2]) == [Capitalize(last.name)];
        assert ColorsSent(s[..3]) == [Capitalize(last.name)];
      } else {
        assert SplatMessages(data, maxColorVolume) == SplatMessages(data[..|data| - 1], maxColorVolume);
      }
    }
  }

  /** With no active colour the loop sends nothing, so the divisor is never used. */
  lemma {:induction false} NoActiveNoSplats(data: seq<Shade>, maxColorVolume: real)
    requires ActiveCount(data) == 0
    ensures SplatMessages(data, maxColorVolume) == []
  {
    if |data| > 0 {
      NoActiveNoSplats(data[..|data| - 1], maxColorVolume);
    }
  }

  /** One more colour in the loop: its commands follow those of the colours before it. */
  lemma SplatStep(data: seq<Shade>, i: nat, maxColorVolume: real)
    requires i < |data| && Divisible(data[..i], maxColorVolume)
    requires maxColorVolume != 0.0 || !Active(data[i])
    ensures Divisible(data[..i + 1], maxColorVolume)
    ensures SplatMessages(data[..i + 1], maxColorVolume)
            == SplatMessages(data[..i], maxColorVolume) + if Active(data[i]) then ShadeMessages(data[i], maxColorVolume) else []
    ensures !Active(data[i]) ==> SplatMessages(data[..i + 1], maxColorVolume) == SplatMessages(data[..i], maxColorVolume)
  {
    assert data[..i + 1][..i] == data[..i];
    assert SplatMessages(data[..i], maxColorVolume) + [] == SplatMessages(data[..i], maxColorVolume);
  }

  /** An active colour met with a divisor of 0: the mix cannot finish, and nothing was splatted before it. */
  lemma ZeroDivisorStops(data: seq<Shade>, i: nat, maxColorVolume: real)
    requires i < |data| && Divisible(data[..i], maxColorVolume)
    requires maxColorVolume == 0.0 && Active(data[i])
    ensures !Divisible(data, maxColorVolume)
    ensures SplatMessages(data[..i], maxColorVolume) == []
  {
    NoActiveNoSplats(data[..i], maxColorVolume);
    ActiveCountPrefix(data, i);
  }

  /** How the loop's colour order relates to the arguments: black, yellow, magenta, cyan. */
  lemma MixOrder(cyanVolume: real, cyanStrength: real, magentaVolume: real, magentaStrength: real,
                 yellowVolume: real, yellowStrength: real, blackVolume: real, blackStrength: real)
    ensures var r := Reverse(ColorData(cyanVolume, cyanStrength, magentaVolume, magentaStrength,
                                       yellowVolume, yellowStrength, blackVolume, blackStrength));
            r == [Shade("black", blackVolume, blackStrength), Shade("yellow", yellowVolume, yellowStrength),
                  Shade("magenta", magentaVolume, magentaStrength), Shade("cyan", cyanVolume, cyanStrength)]
  {
    ReverseAt(ColorData(cyanVolume, cyanStrength, magentaVolume, magentaStrength,
                        yellowVolume, yellowStrength, blackVolume, blackStrength));
  }

  /** `list.reverse()`, in place. */
  method ReverseInPlace(a: array<Shade>)
    modifies a
    ensures a[..] == Reverse(old(a[..]))
  {
    ghost var before := a[..];
    var i := 0;
    while i < a.Length / 2
      invariant 0 <= i <= a.Length / 2
      invariant forall k | 0 <= k < i :: a[k] == before[a.Length - 1 - k] && a[a.Length - 1 - k] == before[k]
      invariant forall k | i <= k < a.Length - i :: a[k] == before[k]
    {
      a[i], a[a.Length - 1 - i] := a[a.Length - 1 - i], a[i];
      i := i + 1;
    }
    ReversedAt(before, a[..]);
  }

  /** A list holding the entries of another from the back is its reverse. */
  lemma ReversedAt<T>(s: seq<T>, t: seq<T>)
    requires |t| == |s| && forall k | 0 <= k < |s| :: t[k] == s[|s| - 1 - k]
    ensures t == Reverse(s)
  {
    ReverseAt(s);
  }

  class ColorMixerDriver {
    const api: FluidSimulationApi

    constructor(api: FluidSimulationApi)
      ensures this.api == api
    {
      this.api := api;
    }

    /**
     * mix. It clears the page, sets the vortex to the mixing speed, sends the
     * four commands of each active colour (black first, cyan last), resets
     * the vortex to 0 and returns True. A divisor of 0 raises
     * ZeroDivisionError at the first active colour, after the first two
     * commands; with no active colour it is never used.
     */
    method Mix(cyanVolume: real, cyanStrength: real, magentaVolume: real, magentaStrength: real,
               yellowVolume: real, yellowStrength: real, blackVolume: real, blackStrength: real,
               mixingTime: real, mixingSpeed: real, maxColorVolume: real := 25.0)
      returns (r: Outcome<bool>)
      modifies api.server`queue
      ensures var data := Reverse(ColorData(cyanVolume, cyanStrength, magentaVolume, magentaStrength,
                                            yellowVolume, yellowStrength, blackVolume, blackStrength));
              if Divisible(data, maxColorVolume) then
                && r == Ok(true)
                && api.server.queue == old(api.server.queue) + EncodeAll(MixMessages(data, mixingSpeed, maxColorVolume))
              else
                && r == Fail(ZeroDivisionError)
                && api.server.queue == old(api.server.queue) + EncodeAll([Clear, UpdateConfig(Vortex, Num(mixingSpeed))])
    {
      ghost var q0 := api.server.queue;
      api.ClearScreen();
      EncodeAllSnoc([], Clear);
      var data, activeColors := PrepareColorData(cyanVolume, cyanStrength, magentaVolume, magentaStrength,
                                                 yellowVolume, yellowStrength, blackVolume, blackStrength);
      var individualMixingTime := IndividualMixingTime(mixingTime, activeColors);
      r := SendMixCommands(data, mixingSpeed, maxColorVolume, q0);
    }

    /**
     * What mix sends after clearing the page: the vortex at the mixing speed,
     * the loop's commands and the vortex reset, or, when the loop raises,
     * only the first of these.
     */
    method SendMixCommands(data: seq<Shade>, mixingSpeed: real, maxColorVolume: real, ghost q0: seq<Value>)
      returns (r: Outcome<bool>)
      requires api.server.queue == q0 + EncodeAll([Clear])
      modifies api.server`queue
      ensures if Divisible(data, maxColorVolume) then
                && r == Ok(true)
                && api.server.queue == q0 + EncodeAll(MixMessages(data, mixingSpeed, maxColorVolume))
              else
                && r == Fail(ZeroDivisionError)
                && api.server.queue == q0 + EncodeAll([Clear, UpdateConfig(Vortex, Num(mixingSpeed))])
    {
      var start := [Clear, UpdateConfig(Vortex, Num(mixingSpeed))];
      api.UpdateConfigOf(Vortex, Num(mixingSpeed));
      EncodeAllSnoc([Clear], UpdateConfig(Vortex, Num(mixingSpeed)));
      assert [Clear] + [UpdateConfig(Vortex, Num(mixingSpeed))] == start;
      AppendAssociative(q0, EncodeAll([Clear]), [Encode(UpdateConfig(Vortex, Num(mixingSpeed)))]);
      var ok := SplatAll(data, maxColorVolume);
      if !ok {
        return Fail(ZeroDivisionError);
      }
      EncodeAllConcat(start, SplatMessages(data, maxColorVolume));
      AppendAssociative(q0, EncodeAll(start), EncodeAll(SplatMessages(data, maxColorVolume)));
      api.UpdateConfigOf(Vortex, Num(0.0));
      EncodeAllSnoc(start + SplatMessages(data, maxColorVolume), UpdateConfig(Vortex, Num(0.0)));
      AppendAssociative(q0, EncodeAll(start + SplatMessages(data, maxColorVolume)), [Encode(UpdateConfig(Vortex, Num(0.0)))]);
      return Ok(true);
    }

    /**
     * The loop over `color_data`: the commands of every active colour, or,
     * when the divisor is 0 and some colour is active, nothing and an error.
     */
    method SplatAll(data: seq<Shade>, maxColorVolume: real) returns (ok: bool)
      modifies api.server`queue
      ensures ok == Divisible(data, maxColorVolume)
      ensures ok ==> api.server.queue == old(api.server.queue) + EncodeAll(SplatMessages(data, maxColorVolume))
      ensures !ok ==> api.server.queue == old(api.server.queue)
    {
      ghost var q0 := api.server.queue;
      var i := 0;
      while i < |data|
        invariant 0 <= i <= |data|
        invariant Divisible(data[..i], maxColorVolume)
        invariant api.server.queue == q0 + EncodeAll(SplatMessages(data[..i], maxColorVolume))
      {
        ok := SplatNext(data, i, maxColorVolume, q0);
        if !ok {
          return;
        }
        i := i + 1;
      }
      assert data[..i] == data;
      return true;
    }

    /**
     * One turn of the loop: an inactive colour is skipped, an active one
     * sends its four commands, unless the divisor is 0, which raises before
     * anything is sent.
     */
    method SplatNext(data: seq<Shade>, i: nat, maxColorVolume: real, ghost q0: seq<Value>) returns (ok: bool)
      requires i < |data| && Divisible(data[..i], maxColorVolume)
      requires api.server.queue == q0 + EncodeAll(SplatMessages(data[..i], maxColorVolume))
      modifies api.server`queue
      ensures ok == Divisible(data[..i + 1], maxColorVolume)
      ensures ok ==> api.server.queue == q0 + EncodeAll(SplatMessages(data[..i + 1], maxColorVolume))
      ensures !ok ==> api.server.queue == old(api.server.queue) && !Divisible(data, maxColorVolume) && api.server.queue == q0
    {
      var color := data[i];
      if color.volume == 0.0 || color.strength == 0.0 {
        SplatStep(data, i, maxColorVolume);
        return true;
      }
      if maxColorVolume == 0.0 {
        ZeroDivisorStops(data, i, maxColorVolume);
        ActiveCountPrefix(data[..i + 1], i);
        return false;
      }
      SplatStep(data, i, maxColorVolume);
      ghost var before := EncodeAll(SplatMessages(data[..i], maxColorVolume));
      SendShade(color, maxColorVolume);
      EncodeAllConcat(SplatMessages(data[..i], maxColorVolume), ShadeMessages(color, maxColorVolume));
      AppendAssociative(q0, before, EncodeAll(ShadeMessages(color, maxColorVolume)));
      return true;
    }

    /** The four calls of the loop body for one active colour. */
    method SendShade(color: Shade, maxColorVolume: real)
      requires maxColorVolume != 0.0
      modifies api.server`queue
      ensures api.server.queue == old(api.server.queue) + EncodeAll(ShadeMessages(color, maxColorVolume))
    {
      var splatRadius := color.volume / maxColorVolume;
      api.UpdateConfigOf("SPLAT_RADIUS", Num(splatRadius));
      api.UpdateConfigOf("COLOR", Str(Capitalize(color.name)));
      api.UpdateConfigOf("COLOR_INTENSITY", Num(color.strength));
      api.CenterSplatOf();
      EncodeAllAt(ShadeMessages(color, maxColorVolume));
    }
  }

  /** `color_data` built, reversed in place, and its active entries counted. */
  method PrepareColorData(cyanVolume: real, cyanStrength: real, magentaVolume: real, magentaStrength: real,
                          yellowVolume: real, yellowStrength: real, blackVolume: real, blackStrength: real)
    returns (data: seq<Shade>, activeColors: nat)
    ensures data == Reverse(ColorData(cyanVolume, cyanStrength, magentaVolume, magentaStrength,
                                      yellowVolume, yellowStrength, blackVolume, blackStrength))
    ensures activeColors == ActiveCount(data)
  {
    var colorData := NewColorData(cyanVolume, cyanStrength, magentaVolume, magentaStrength,
                                  yellowVolume, yellowStrength, blackVolume, blackStrength);
    ReverseInPlace(colorData);
    activeColors := CountActive(colorData);
    data := colorData[..];
  }

  /** `color_data`, as a list the driver then reverses in place. */
  method NewColorData(cyanVolume: real, cyanStrength: real, magentaVolume: real, magentaStrength: real,
                      yellowVolume: real, yellowStrength: real, blackVolume: real, blackStrength: real)
    returns (a: array<Shade>)
    ensures fresh(a)
    ensures a[..] == ColorData(cyanVolume, cyanStrength, magentaVolume, magentaStrength,
                               yellowVolume, yellowStrength, blackVolume, blackStrength)
  {
    a := new Shade[4];
    a[0], a[1], a[2], a[3] :=
      Shade("cyan", cyanVolume, cyanStrength), Shade("magenta", magentaVolume, magentaStrength),
      Shade("yellow", yellowVolume, yellowStrength), Shade("black", blackVolume, blackStrength);
  }

  /** `sum(1 for ... if volume != 0 and strength != 0)`. */
  method CountActive(a: array<Shade>) returns (n: nat)
    ensures n == ActiveCount(a[..])
  {
    n := 0;
    var j := 0;
    while j < a.Length
      invariant 0 <= j <= a.Length
      invariant n == ActiveCount(a[..j])
    {
      assert a[..j + 1][..j] == a[..j];
      if a[j].volume != 0.0 && a[j].strength != 0.0 {
        n := n + 1;
      }
      j := j + 1;
    }
    assert a[..j] == a[..];
  }

  /** An active entry at position i means the whole list has an active entry. */
  lemma ActiveCountPrefix(data: seq<Shade>, i: nat)
    requires i < |data| && Active(data[i])
    ensures ActiveCount(data) > 0
  {
    assert data == data[..i + 1] + data[i + 1..];
    ActiveCountAppend(data[..i + 1], data[i + 1..]);
    assert data[..i + 1][..i] == data[..i];
  }

  class ColorAnalyzerDriver {
    const api: FluidSimulationApi

    constructor(api: FluidSimulationApi)
      ensures this.api == api
    {
      this.api := api;
    }

    /**
     * analyze: the red, green and blue entries of the average colour the page
     * reports. A timeout gives None, which raises TypeError when indexed; a
     * colour without one of the three keys raises KeyError.
     */
    method Analyze(arrival: Option<Value>) returns (r: Outcome<seq<Value>>)
      modifies api.server`queue, api.server`averageColor, api.server`averageColorSet
      ensures api.server.queue == old(api.server.queue) + [Encode(ComputeAverageColor)]
      ensures !api.server.averageColorSet
      ensures var color := if old(api.server.averageColorSet) then old(api.server.averageColor)
                           else if arrival.Some? then arrival.value else Null;
              r == Channels(color)
    {
      var color := api.ComputeAverageColorOf(arrival);
      r := Channels(color);
    }
  }

  /** `color["r"], color["g"], color["b"]`, evaluated left to right. */
  function Channels(color: Value): (r: Outcome<seq<Value>>)
    ensures r.Ok? <==> color.Obj? && "r" in color.fields && "g" in color.fields && "b" in color.fields
    ensures r.Ok? ==> r.value == [color.fields["r"], color.fields["g"], color.fields["b"]]
    ensures !color.Obj? ==> r == Fail(TypeError)
    ensures color.Obj? && "r" !in color.fields ==> r == Fail(KeyError("r"))
  {
    match Index(color, "r")
    case Fail(e) => Fail(e)
    case Ok(red) =>
      match Index(color, "g")
      case Fail(e) => Fail(e)
      case Ok(green) =>
        match Index(color, "b")
        case Fail(e) => Fail(e)
        case Ok(blue) => Ok([red, green, blue])
  }
}
