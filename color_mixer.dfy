/**
 * The colour mixer device (color_lab/devices/color_mixer/device.py): it
 * records the paint it adds in the container's metadata, then asks its
 * driver to mix.
 */
module ColorMixers {
  import opened PyValues
  import opened DeviceClients
  import opened Containers

  /** The colours in the order `mix` accumulates them. */
  const MixColors: seq<string> := ["cyan", "magenta", "yellow", "black"]

  /** `f"{color}_volume"`. */
  function VolumeKey(color: string): string {
    color + "_volume"
  }

  /** `f"{color}_strength"`. */
  function StrengthKey(color: string): string {
    color + "_strength"
  }

  /** The keys `mix` writes besides the colours' own. */
  const TallyKeys: set<string> := {"volume", "clean", "mixing_time", "mixing_speed"}

  /** The amount of one colour handed to `mix`. */
  datatype Amount = Amount(color: string, volume: real, strength: real)

  /** The ten parameters `mix` sends to its driver. */
  function MixParams(cyanVolume: real, cyanStrength: real, magentaVolume: real, magentaStrength: real,
                     yellowVolume: real, yellowStrength: real, blackVolume: real, blackStrength: real,
                     mixingTime: real, mixingSpeed: real): map<string, Value> {
    map[VolumeKey("cyan") := Num(cyanVolume), StrengthKey("cyan") := Num(cyanStrength),
        VolumeKey("magenta") := Num(magentaVolume), StrengthKey("magenta") := Num(magentaStrength),
        VolumeKey("yellow") := Num(yellowVolume), StrengthKey("yellow") := Num(yellowStrength),
        VolumeKey("black") := Num(blackVolume), StrengthKey("black") := Num(blackStrength),
        "mixing_time" := Num(mixingTime), "mixing_speed" := Num(mixingSpeed)]
  }

  /** The four amounts in the order of MixColors. */
  function Amounts(cyanVolume: real, cyanStrength: real, magentaVolume: real, magentaStrength: real,
                   yellowVolume: real, yellowStrength: real, blackVolume: real, blackStrength: real): (r: seq<Amount>)
    ensures |r| == |MixColors| && forall i | 0 <= i < |r| :: r[i].color == MixColors[i]
  {
    [Amount("cyan", cyanVolume, cyanStrength), Amount("magenta", magentaVolume, magentaStrength),
     Amount("yellow", yellowVolume, yellowStrength), Amount("black", blackVolume, blackStrength)]
  }

  /**
   * The metadata as far as `mix` got, and whether it got to the end: a step
   * that raises TypeError leaves the metadata as the previous steps made it.
   */
  datatype Progress = Progress(metadata: map<string, Value>, ok: bool)

  /** One pass of the colour loop: the volume entry grows (from 0 when missing) and the strength is overwritten. */
  function AddColor(p: Progress, a: Amount): Progress {
    if !p.ok then p
    else
      match Add(Get(p.metadata, VolumeKey(a.color), Num(0.0)), a.volume)
      case Fail(_) => Progress(p.metadata, false)
      case Ok(v) => Progress(p.metadata[VolumeKey(a.color) := v][StrengthKey(a.color) := Num(a.strength)], true)
  }

  /** The colour loop over the given amounts, in order. */
  function AddColors(p: Progress, amounts: seq<Amount>): Progress {
    if |amounts| == 0 then p else AddColor(AddColors(p, amounts[..|amounts| - 1]), amounts[|amounts| - 1])
  }

  function TotalVolume(amounts: seq<Amount>): real {
    if |amounts| == 0 then 0.0 else TotalVolume(amounts[..|amounts| - 1]) + amounts[|amounts| - 1].volume
  }

  /** After the loop: "volume" created at 0 and grown by the total, then clean, mixing_time and mixing_speed. */
  function Finish(p: Progress, total: real, mixingTime: real, mixingSpeed: real): Progress {
    if !p.ok then p
    else
      var m := if "volume" in p.metadata then p.metadata else p.metadata["volume" := Num(0.0)];
      match Add(m["volume"], total)
      case Fail(_) => Progress(m, false)
      case Ok(v) => Progress(m["volume" := v]["clean" := Bool(false)]["mixing_time" := Num(mixingTime)]
                             ["mixing_speed" := Num(mixingSpeed)]["clean" := Bool(false)], true)
  }

  /** The whole metadata update of `mix`. */
  function MixMetadata(m: map<string, Value>, amounts: seq<Amount>, mixingTime: real, mixingSpeed: real): Progress {
    Finish(AddColors(Progress(m, true), amounts), TotalVolume(amounts), mixingTime, mixingSpeed)
  }

  /** A metadata entry `+` can grow: absent (it starts at 0) or a number. */
  predicate Growable(m: map<string, Value>, key: string) {
    key !in m || IsNumber(m[key])
  }

  /** The number an entry stands for, 0 if it is absent. */
  function Current(m: map<string, Value>, key: string): real
    requires Growable(m, key)
  {
    if key in m then NumberOf(m[key]) else 0.0
  }

  /** Different colours write different keys, and none of them is a tally key. */
  lemma ColorKeysDistinct(c: string, d: string)
    requires c in MixColors && d in MixColors
    ensures VolumeKey(c) != StrengthKey(d)
    ensures c != d ==> VolumeKey(c) != VolumeKey(d) && StrengthKey(c) != StrengthKey(d)
    ensures VolumeKey(c) !in TallyKeys && StrengthKey(c) !in TallyKeys
  {
    var v, s', t := VolumeKey(c), StrengthKey(d), StrengthKey(c);
    assert v[|c|..] == "_volume" && s'[|d|..] == "_strength";
    if |v| == |s'| {
      assert v[|v| - 1] == 'e' && s'[|s'| - 1] == 'h';
    }
    if c != d {
      assert |c| != |d|;
    }
    assert |v| >= 11 && |t| >= 13;
    assert v[|c|] == '_' && t[|c|] == '_';
    if |v| == 11 {
      assert "mixing_time"[4] == 'n' && c == "cyan";
    }
    if |v| == 12 {
      assert "mixing_speed"[5] == 'g' && c == "black";
    }
  }

  /** Amounts for the four colours of `mix`, in its order. */
  predicate InMixOrder(a: seq<Amount>) {
    |a| == 4 && forall i | 0 <= i < 4 :: a[i].color == MixColors[i]
  }

  /** The keys the first `n` colours of `mix` write. */
  function ColorKeysUpTo(n: nat): set<string>
    requires n <= |MixColors|
  {
    (set i | 0 <= i < n :: VolumeKey(MixColors[i])) + (set i | 0 <= i < n :: StrengthKey(MixColors[i]))
  }

  /** A colour step raises exactly when its volume entry cannot be grown, and leaves other keys alone. */
  lemma StepKeeps(p: Progress, a: Amount, k: string)
    requires p.ok && k != VolumeKey(a.color) && k != StrengthKey(a.color)
    ensures AddColor(p, a).ok <==> Growable(p.metadata, VolumeKey(a.color))
    ensures var q := AddColor(p, a).metadata; (k in q <==> k in p.metadata) && (k in q ==> q[k] == p.metadata[k])
  { }

  /** A colour step that does not raise grows the volume entry and overwrites the strength. */
  lemma StepSets(p: Progress, a: Amount)
    requires p.ok && AddColor(p, a).ok
    ensures Growable(p.metadata, VolumeKey(a.color))
    ensures var q := AddColor(p, a).metadata;
            && VolumeKey(a.color) in q && StrengthKey(a.color) in q
            && q[VolumeKey(a.color)] == Num(Current(p.metadata, VolumeKey(a.color)) + a.volume)
            && q[StrengthKey(a.color)] == Num(a.strength)
  {
    assert VolumeKey(a.color) != StrengthKey(a.color) by {
      assert VolumeKey(a.color)[|a.color|..] == "_volume" && StrengthKey(a.color)[|a.color|..] == "_strength";
    }
  }

  /** A colour's keys are not among the keys of the colours before it. */
  lemma NotEarlier(n: nat)
    requires 0 < n <= 4
    ensures VolumeKey(MixColors[n - 1]) !in ColorKeysUpTo(n - 1)
    ensures StrengthKey(MixColors[n - 1]) !in ColorKeysUpTo(n - 1)
  {
    forall i | 0 <= i < n - 1
      ensures VolumeKey(MixColors[i]) != VolumeKey(MixColors[n - 1]) && VolumeKey(MixColors[i]) != StrengthKey(MixColors[n - 1])
      ensures StrengthKey(MixColors[i]) != VolumeKey(MixColors[n - 1]) && StrengthKey(MixColors[i]) != StrengthKey(MixColors[n - 1])
    {
      ColorKeysDistinct(MixColors[i], MixColors[n - 1]);
      ColorKeysDistinct(MixColors[n - 1], MixColors[i]);
    }
  }

  /** The colour loop over the first `n` colours leaves every key but theirs as it was. */
  lemma {:induction false} ColorLoopKeeps(m: map<string, Value>, a: seq<Amount>, n: nat)
    requires InMixOrder(a) && n <= 4
    ensures var p := AddColors(Progress(m, true), a[..n]);
            p.ok ==> forall k | k !in ColorKeysUpTo(n) :: (k in p.metadata <==> k in m) && (k in m ==> p.metadata[k] == m[k])
  {
    if n == 0 {
      assert a[..0] == [];
    } else {
      ColorLoopKeeps(m, a, n - 1);
      assert a[..n][..n - 1] == a[..n - 1] && a[..n][n - 1] == a[n - 1];
      var q := AddColors(Progress(m, true), a[..n - 1]);
      var c := a[n - 1].color;
      assert VolumeKey(c) in ColorKeysUpTo(n) && StrengthKey(c) in ColorKeysUpTo(n);
      if AddColor(q, a[n - 1]).ok {
        forall k | k !in ColorKeysUpTo(n)
          ensures k !in ColorKeysUpTo(n - 1)
          ensures var r := AddColor(q, a[n - 1]).metadata; (k in r <==> k in q.metadata) && (k in r ==> r[k] == q.metadata[k])
        {
          StepKeeps(q, a[n - 1], k);
        }
      }
    }
  }

  /** The colour loop over the first `n` colours raises exactly when one of their volume entries cannot be grown. */
  lemma {:induction false} ColorLoopRaises(m: map<string, Value>, a: seq<Amount>, n: nat)
    requires InMixOrder(a) && n <= 4
    ensures AddColors(Progress(m, true), a[..n]).ok <==> forall i | 0 <= i < n :: Growable(m, VolumeKey(MixColors[i]))
  {
    if n == 0 {
      assert a[..0] == [];
    } else {
      ColorLoopRaises(m, a, n - 1);
      ColorLoopKeeps(m, a, n - 1);
      NotEarlier(n);
      assert a[..n][..n - 1] == a[..n - 1] && a[..n][n - 1] == a[n - 1];
      var q := AddColors(Progress(m, true), a[..n - 1]);
      if q.ok {
        ColorKeysDistinct(a[n - 1].color, a[n - 1].color);
        StepKeeps(q, a[n - 1], "volume");
      }
    }
  }

  /**
   * After the colour loop over the first `n` colours, when it did not
   * raise, each of their volume entries has grown by its volume from its
   * old value (0 when missing) and each strength entry holds the new
   * strength.
   */
  lemma {:induction false} ColorLoopWrites(m: map<string, Value>, a: seq<Amount>, n: nat)
    requires InMixOrder(a) && n <= 4
    ensures var p := AddColors(Progress(m, true), a[..n]);
            p.ok ==> forall i | 0 <= i < n ::
                  && Growable(m, VolumeKey(MixColors[i]))
                  && VolumeKey(MixColors[i]) in p.metadata && StrengthKey(MixColors[i]) in p.metadata
                  && p.metadata[VolumeKey(MixColors[i])] == Num(Current(m, VolumeKey(MixColors[i])) + a[i].volume)
                  && p.metadata[StrengthKey(MixColors[i])] == Num(a[i].strength)
  {
    if n > 0 {
      ColorLoopWrites(m, a, n - 1);
      ColorLoopKeeps(m, a, n - 1);
      NotEarlier(n);
      assert a[..n][..n - 1] == a[..n - 1] && a[..n][n - 1] == a[n - 1];
      var q := AddColors(Progress(m, true), a[..n - 1]);
      var c := MixColors[n - 1];
      if q.ok && AddColor(q, a[n - 1]).ok {
        StepSets(q, a[n - 1]);
        forall i | 0 <= i < n - 1
          ensures var r := AddColor(q, a[n - 1]).metadata;
                  && (VolumeKey(MixColors[i]) in r && r[VolumeKey(MixColors[i])] == q.metadata[VolumeKey(MixColors[i])])
                  && (StrengthKey(MixColors[i]) in r && r[StrengthKey(MixColors[i])] == q.metadata[StrengthKey(MixColors[i])])
        {
          ColorKeysDistinct(MixColors[i], c);
          ColorKeysDistinct(c, MixColors[i]);
          StepKeeps(q, a[n - 1], VolumeKey(MixColors[i]));
          StepKeeps(q, a[n - 1], StrengthKey(MixColors[i]));
        }
      }
    }
  }
  /** Once a step has raised, the remaining steps change nothing. */
  lemma {:induction false} FailedStays(p: Progress, amounts: seq<Amount>)
    requires !p.ok
    ensures AddColors(p, amounts) == p
  {
    if |amounts| > 0 {
      FailedStays(p, amounts[..|amounts| - 1]);
    }
  }

  /** The colour loop over two parts runs over the first, then the second. */
  lemma {:induction false} AddColorsAppend(p: Progress, xs: seq<Amount>, ys: seq<Amount>)
    ensures AddColors(p, xs + ys) == AddColors(AddColors(p, xs), ys)
  {
    if |ys| > 0 {
      assert (xs + ys)[..|xs + ys| - 1] == xs + ys[..|ys| - 1];
      AddColorsAppend(p, xs, ys[..|ys| - 1]);
    } else {
      assert xs + ys == xs;
    }
  }

  /** Every key `mix` writes. */
  function MixKeys(): set<string> {
    ColorKeysUpTo(4) + TallyKeys
  }

  /**
   * The tail of `mix`: it raises exactly when "volume" is neither missing
   * nor a number; otherwise "volume" has grown by the total from its old
   * value (0 when missing), "clean" is False, mixing_time and mixing_speed
   * are the arguments, and no other key is touched.
   */
  lemma FinishEffect(p: Progress, total: real, mixingTime: real, mixingSpeed: real)
    requires p.ok
    ensures var f := Finish(p, total, mixingTime, mixingSpeed);
            && (f.ok <==> Growable(p.metadata, "volume"))
            && (f.ok ==> && TallyKeys <= f.metadata.Keys
                         && f.metadata["volume"] == Num(Current(p.metadata, "volume") + total)
                         && f.metadata["clean"] == Bool(false)
                         && f.metadata["mixing_time"] == Num(mixingTime)
                         && f.metadata["mixing_speed"] == Num(mixingSpeed))
            && (f.ok ==> forall k | k !in TallyKeys :: (k in f.metadata <==> k in p.metadata) && (k in p.metadata ==> f.metadata[k] == p.metadata[k]))
  { }

  /** The colour keys are not tally keys. */
  lemma ColorKeysNotTally()
    ensures forall k | k in ColorKeysUpTo(4) :: k !in TallyKeys
  {
    forall i | 0 <= i < 4
      ensures VolumeKey(MixColors[i]) !in TallyKeys && StrengthKey(MixColors[i]) !in TallyKeys
    {
      ColorKeysDistinct(MixColors[i], MixColors[i]);
    }
  }

  lemma TotalOfFour(a: seq<Amount>)
    requires |a| == 4
    ensures TotalVolume(a) == a[0].volume + a[1].volume + a[2].volume + a[3].volume
  {
    assert a[..1][..0] == [] && a[..1][0] == a[0];
    assert TotalVolume(a[..1]) == a[0].volume;
    assert a[..2][..1] == a[..1] && a[..2][1] == a[1];
    assert TotalVolume(a[..2]) == a[0].volume + a[1].volume;
    assert a[..3][..2] == a[..2] && a[..3][2] == a[2];
    assert TotalVolume(a[..3]) == a[0].volume + a[1].volume + a[2].volume;
    assert a[..3] == a[..|a| - 1];
  }

  /** `mix` raises TypeError exactly when one of the five entries it grows is neither missing nor a number. */
  lemma MixRaises(m: map<string, Value>, a: seq<Amount>, mixingTime: real, mixingSpeed: real)
    requires InMixOrder(a)
    ensures MixMetadata(m, a, mixingTime, mixingSpeed).ok <==>
            (forall i | 0 <= i < 4 :: Growable(m, VolumeKey(MixColors[i]))) && Growable(m, "volume")
  {
    assert a[..4] == a;
    ColorLoopKeeps(m, a, 4);
    ColorLoopRaises(m, a, 4);
    ColorKeysNotTally();
    var q := AddColors(Progress(m, true), a);
    if q.ok {
      FinishEffect(q, TotalVolume(a), mixingTime, mixingSpeed);
    }
  }

  /**
   * When `mix` does not raise, each colour's volume has grown by its volume
   * (from 0 when missing) and each strength is overwritten.
   */
  lemma MixWritesColors(m: map<string, Value>, a: seq<Amount>, mixingTime: real, mixingSpeed: real)
    requires InMixOrder(a)
    ensures var p := MixMetadata(m, a, mixingTime, mixingSpeed);
            p.ok ==> forall i | 0 <= i < 4 ::
                  && Growable(m, VolumeKey(MixColors[i]))
                  && VolumeKey(MixColors[i]) in p.metadata && StrengthKey(MixColors[i]) in p.metadata
                  && p.metadata[VolumeKey(MixColors[i])] == Num(Current(m, VolumeKey(MixColors[i])) + a[i].volume)
                  && p.metadata[StrengthKey(MixColors[i])] == Num(a[i].strength)
  {
    assert a[..4] == a;
    var q := AddColors(Progress(m, true), a);
    if q.ok {
      ColorLoopWrites(m, a, 4);
      ColorKeysNotTally();
      FinishEffect(q, TotalVolume(a), mixingTime, mixingSpeed);
      forall i | 0 <= i < 4
        ensures VolumeKey(MixColors[i]) in ColorKeysUpTo(4) && StrengthKey(MixColors[i]) in ColorKeysUpTo(4)
      { }
    }
  }

  /**
   * When `mix` does not raise, "volume" has grown by the sum of the four
   * volumes (from 0 when missing), "clean" is False, and mixing_time and
   * mixing_speed are the arguments.
   */
  lemma MixWritesTally(m: map<string, Value>, a: seq<Amount>, mixingTime: real, mixingSpeed: real)
    requires InMixOrder(a)
    ensures var p := MixMetadata(m, a, mixingTime, mixingSpeed);
            p.ok ==> && Growable(m, "volume") && TallyKeys <= p.metadata.Keys
                     && p.metadata["volume"] == Num(Current(m, "volume") + (a[0].volume + a[1].volume + a[2].volume + a[3].volume))
                     && p.metadata["clean"] == Bool(false)
                     && p.metadata["mixing_time"] == Num(mixingTime)
                     && p.metadata["mixing_speed"] == Num(mixingSpeed)
  {
    assert a[..4] == a;
    var q := AddColors(Progress(m, true), a);
    if q.ok {
      ColorLoopKeeps(m, a, 4);
      TotalOfFour(a);
      FinishEffect(q, TotalVolume(a), mixingTime, mixingSpeed);
      assert "volume" !in ColorKeysUpTo(4);
    }
  }

  /** When `mix` does not raise, every key it does not write is as it was. */
  lemma MixKeeps(m: map<string, Value>, a: seq<Amount>, mixingTime: real, mixingSpeed: real)
    requires InMixOrder(a)
    ensures var p := MixMetadata(m, a, mixingTime, mixingSpeed);
            p.ok ==> forall k | k !in MixKeys() :: (k in p.metadata <==> k in m) && (k in m ==> p.metadata[k] == m[k])
  {
    assert a[..4] == a;
    var q := AddColors(Progress(m, true), a);
    if q.ok {
      ColorLoopKeeps(m, a, 4);
      FinishEffect(q, TotalVolume(a), mixingTime, mixingSpeed);
    }
  }
  class ColorMixerDevice {
    const client: DeviceClient

    /** _initialize: a client on the driver's port, connected. */
    constructor(port: int, server: (nat, Command) -> Reply)
      ensures fresh(client) && client.port == port && client.server == server
      ensures client.connected && client.sent == []
    {
      client := new DeviceClient(port, server);
      new;
      client.OpenConnection();
    }

    /** _cleanup: the connection is closed. */
    method Cleanup()
      modifies client`connected
      ensures !client.connected
    {
      client.CloseConnection();
    }

    /** _report: nothing to report. */
    /** _report: nothing to report. */
    function Report(): map<string, Value> {
      NoReport()
    }

    /** The loop over the four colours: each volume is added to the container's and each strength recorded. */
    static method AddColorsTo(container: Container, amounts: seq<Amount>) returns (ok: bool, totalVolume: real)
      modifies container`metadata
      ensures AddColors(Progress(old(container.metadata), true), amounts) == Progress(container.metadata, ok)
      ensures ok ==> totalVolume == TotalVolume(amounts)
      ensures container.location == old(container.location)
    {
      ghost var start := Progress(container.metadata, true);
      totalVolume := 0.0;
      var i := 0;
      while i < |amounts|
        invariant 0 <= i <= |amounts|
        invariant AddColors(start, amounts[..i]) == Progress(container.metadata, true)
        invariant totalVolume == TotalVolume(amounts[..i])
        invariant container.location == old(container.location)
      {
        assert amounts[..i + 1][..i] == amounts[..i] && amounts[..i + 1][i] == amounts[i];
        var color := amounts[i].color;
        var grown := Add(Get(container.metadata, VolumeKey(color), Num(0.0)), amounts[i].volume);
        if grown.Fail? {
          assert amounts[..i + 1] + amounts[i + 1..] == amounts;
          FailedStays(AddColors(start, amounts[..i + 1]), amounts[i + 1..]);
          AddColorsAppend(start, amounts[..i + 1], amounts[i + 1..]);
          return false, totalVolume;
        }
        container.metadata := container.metadata[VolumeKey(color) := grown.value];
        container.metadata := container.metadata[StrengthKey(color) := Num(amounts[i].strength)];
        totalVolume := totalVolume + amounts[i].volume;
        i := i + 1;
      }
      assert amounts[..i] == amounts;
      ok := true;
    }

    /** The tally after the loop: the total volume, the clean flag, the mixing time and speed. */
    static method FinishOn(container: Container, totalVolume: real, mixingTime: real, mixingSpeed: real) returns (ok: bool)
      modifies container`metadata
      ensures Finish(Progress(old(container.metadata), true), totalVolume, mixingTime, mixingSpeed) == Progress(container.metadata, ok)
      ensures container.location == old(container.location)
    {
      if "volume" !in container.metadata {
        container.metadata := container.metadata["volume" := Num(0.0)];
      }
      var total := Add(container.metadata["volume"], totalVolume);
      if total.Fail? {
        return false;
      }
      container.metadata := container.metadata["volume" := total.value];
      container.metadata := container.metadata["clean" := Bool(false)];
      container.metadata := container.metadata["mixing_time" := Num(mixingTime)];
      container.metadata := container.metadata["mixing_speed" := Num(mixingSpeed)];
      container.metadata := container.metadata["clean" := Bool(false)];
      ok := true;
    }

    /**
     * mix: the container's metadata becomes MixMetadata of the old one (as
     * far as it got when it raised); the one "mix" command with the ten
     * parameters is sent only when that update got through, and the same
     * container is returned unless the update or the command raised.
     */
    method Mix(container: Container,
               cyanVolume: real, cyanStrength: real, magentaVolume: real, magentaStrength: real,
               yellowVolume: real, yellowStrength: real, blackVolume: real, blackStrength: real,
               mixingTime: real, mixingSpeed: real)
      returns (r: Outcome<Container>)
      modifies container`metadata, client`sent
      ensures var p := MixMetadata(old(container.metadata),
                                   Amounts(cyanVolume, cyanStrength, magentaVolume, magentaStrength,
                                           yellowVolume, yellowStrength, blackVolume, blackStrength),
                                   mixingTime, mixingSpeed);
              var command := Command("mix", MixParams(cyanVolume, cyanStrength, magentaVolume, magentaStrength,
                                                      yellowVolume, yellowStrength, blackVolume, blackStrength,
                                                      mixingTime, mixingSpeed));
              && container.metadata == p.metadata
              && (!p.ok ==> r == Fail(TypeError) && client.sent == old(client.sent))
              && (p.ok && !client.connected ==> r == Fail(NotConnected) && client.sent == old(client.sent))
              && (p.ok && client.connected ==>
                    && client.sent == old(client.sent) + [command]
                    && var answer := Answer("mix", client.server(|old(client.sent)|, command));
                       r == if answer.Ok? then Ok(container) else Fail(answer.error))
      ensures container.location == old(container.location)
    {
      var params := MixParams(cyanVolume, cyanStrength, magentaVolume, magentaStrength,
                              yellowVolume, yellowStrength, blackVolume, blackStrength, mixingTime, mixingSpeed);
      var amounts := Amounts(cyanVolume, cyanStrength, magentaVolume, magentaStrength,
                             yellowVolume, yellowStrength, blackVolume, blackStrength);
      var ok, totalVolume := AddColorsTo(container, amounts);
      if !ok {
        return Fail(TypeError);
      }
      ok := FinishOn(container, totalVolume, mixingTime, mixingSpeed);
      if !ok {
        return Fail(TypeError);
      }
      var sent := client.SendCommand("mix", params);
      if sent.Fail? {
        return Fail(sent.error);
      }
      return Ok(container);
    }
  }
}
