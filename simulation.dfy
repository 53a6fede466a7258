/**
 * The frame driver of the fluid simulation: the framebuffers it owns,
 * `initFramebuffers`, `step` with `applyVortexForce` and `blur`, `splat`,
 * `multipleSplats`, `clearScreen`, `render`, `applyInputs`,
 * `calcDeltaTime`, `update` and the three mouse handlers. `Date.now()`,
 * `Math.random()` and the scaled canvas size are parameters.
 */
module FluidSimulation {
  import opened Options
  import opened JsNumbers
  import opened Colors
  import opened Aspect
  import opened Graphics
  import opened Schedule
  import opened Pointers

  /** The largest time step `calcDeltaTime` returns, in seconds. */
  const MaxDt: real := 0.016666

  /** calcDeltaTime: the elapsed milliseconds in seconds, capped at MaxDt. */
  function DeltaTime(last: int, now: int): (dt: real)
    ensures dt <= MaxDt && dt <= (now - last) as real / 1000.0
    ensures dt == MaxDt || dt == (now - last) as real / 1000.0
    ensures now >= last ==> dt >= 0.0
    ensures now > last ==> dt > 0.0
  {
    var elapsed := (now - last) as real / 1000.0;
    if elapsed < MaxDt then elapsed else MaxDt
  }

  /** The arguments of the i-th splat of `multipleSplats`, drawing Math.random() values 4i to 4i+3. */
  function RandomSplat(i: nat, random: nat -> real, color: Rgb): Splat {
    Splat(random(4 * i), random(4 * i + 1), 1000.0 * (random(4 * i + 2) - 0.5), 1000.0 * (random(4 * i + 3) - 0.5), color)
  }

  function RandomSplats(n: nat, random: nat -> real, color: Rgb): (ss: seq<Splat>)
    ensures |ss| == n && forall i | 0 <= i < n :: ss[i] == RandomSplat(i, random, color)
  {
    seq(n, i requires 0 <= i => RandomSplat(i, random, color))
  }

  lemma RandomSplatsSnoc(n: nat, random: nat -> real, color: Rgb)
    ensures RandomSplats(n + 1, random, color) == RandomSplats(n, random, color) + [RandomSplat(n, random, color)]
  {
    assert RandomSplats(n + 1, random, color)[..n] == RandomSplats(n, random, color);
  }

  /** One more random splat extends the burst's commands and advances the roles by one splat. */
  lemma BurstStep(r: Roles, i: nat, random: nat -> real, c: Rgb, cfg: Config, canvasWidth: int, canvasHeight: int,
                  t0: seq<Command>, t1: seq<Command>, t2: seq<Command>, q1: Roles, q2: Roles)
    requires canvasHeight > 0
    requires t1 == t0 + SplatsCommands(r, RandomSplats(i, random, c), cfg, canvasWidth, canvasHeight)
    requires q1 == AfterSplats(r, i)
    requires t2 == t1 + SplatCommands(q1, RandomSplat(i, random, c), cfg, canvasWidth, canvasHeight)
    requires q2 == AfterSplats(q1, 1)
    ensures t2 == t0 + SplatsCommands(r, RandomSplats(i + 1, random, c), cfg, canvasWidth, canvasHeight)
    ensures q2 == AfterSplats(r, i + 1)
  {
    RandomSplatsSnoc(i, random, c);
    SplatsSnoc(r, RandomSplats(i, random, c), RandomSplat(i, random, c), cfg, canvasWidth, canvasHeight);
    AfterSplatsAdd(r, i, 1);
  }

  /** With Math.random() in [0, 1), every random splat lies on the canvas and pushes at most 500 each way. */
  lemma RandomSplatsBounds(n: nat, random: nat -> real, color: Rgb)
    requires forall k :: 0.0 <= random(k) < 1.0
    ensures forall s | s in RandomSplats(n, random, color) ::
              0.0 <= s.x < 1.0 && 0.0 <= s.y < 1.0 && -500.0 <= s.dx < 500.0 && -500.0 <= s.dy < 500.0
  {
    forall s | s in RandomSplats(n, random, color)
      ensures 0.0 <= s.x < 1.0 && 0.0 <= s.y < 1.0 && -500.0 <= s.dx < 500.0 && -500.0 <= s.dy < 500.0
    {
      var i :| 0 <= i < n && RandomSplats(n, random, color)[i] == s;
      assert s == RandomSplat(i, random, color);
      assert 0.0 <= random(4 * i + 2) < 1.0 && 0.0 <= random(4 * i + 3) < 1.0;
    }
  }

  /** splatPointer: the pointer's position, its deltas scaled by SPLAT_FORCE, and its colour. */
  function PointerSplat(s: PointerState, cfg: Config): Splat
    requires s.color.Some?
  {
    Splat(s.texcoordX, s.texcoordY, s.deltaX * cfg.splatForce, s.deltaY * cfg.splatForce, s.color.value)
  }

  /** The splat of a mousedown lays the new colour at the pressed point and pushes nothing. */
  lemma DownSplatIsStill(s: PointerState, id: int, posX: real, posY: real, canvasWidth: int, canvasHeight: int, color: Rgb, cfg: Config)
    requires canvasWidth > 0 && canvasHeight > 0
    ensures var sp := PointerSplat(Down(s, id, posX, posY, canvasWidth, canvasHeight, color), cfg);
            && sp.x * canvasWidth as real == posX && (1.0 - sp.y) * canvasHeight as real == posY
            && sp.dx == 0.0 && sp.dy == 0.0 && sp.color == color
  {
  }

  /**
   * The mousemove handler splats at once and leaves the pointer marked
   * moved, so the next applyInputs splats the same splat again.
   */
  lemma MoveSplatsAgain(s: PointerState, posX: real, posY: real, canvasWidth: int, canvasHeight: int, cfg: Config)
    requires canvasWidth > 0 && canvasHeight > 0 && Colored(s) && s.down
    ensures var m := Move(s, posX, posY, canvasWidth, canvasHeight);
            Colored(m) && (m.moved <==> MovedSplats([m], cfg) == [PointerSplat(m, cfg)])
  {
    var m := Move(s, posX, posY, canvasWidth, canvasHeight);
    UpdatesKeepColored(s, posX, posY, canvasWidth, canvasHeight);
    assert [m][..0] == [];
  }

  predicate AllColored(states: seq<PointerState>) {
    forall i | 0 <= i < |states| :: Colored(states[i])
  }

  /** The splats the pointer loop of `applyInputs` makes: one per moved pointer, in array order. */
  function MovedSplats(states: seq<PointerState>, cfg: Config): (ss: seq<Splat>)
    requires AllColored(states)
    ensures |ss| <= |states|
  {
    if states == [] then []
    else
      var last := states[|states| - 1];
      MovedSplats(states[..|states| - 1], cfg) + (if last.moved then [PointerSplat(last, cfg)] else [])
  }

  /** One more pointer of the loop: a moved one adds its splat after the earlier ones', a still one adds nothing. */
  lemma PointerStep(r: Roles, prior: seq<Splat>, states: seq<PointerState>, i: nat, cfg: Config, canvasWidth: int, canvasHeight: int,
                    t0: seq<Command>, t1: seq<Command>, t2: seq<Command>, q1: Roles, q2: Roles)
    requires canvasHeight > 0 && i < |states| && AllColored(states)
    requires t1 == t0 + SplatsCommands(r, prior + MovedSplats(states[..i], cfg), cfg, canvasWidth, canvasHeight)
    requires q1 == AfterSplats(r, |prior + MovedSplats(states[..i], cfg)|)
    requires if states[i].moved
             then t2 == t1 + SplatCommands(q1, PointerSplat(states[i], cfg), cfg, canvasWidth, canvasHeight) && q2 == AfterSplats(q1, 1)
             else t2 == t1 && q2 == q1
    ensures t2 == t0 + SplatsCommands(r, prior + MovedSplats(states[..i + 1], cfg), cfg, canvasWidth, canvasHeight)
    ensures q2 == AfterSplats(r, |prior + MovedSplats(states[..i + 1], cfg)|)
  {
    var moved := MovedSplats(states[..i], cfg);
    var done := prior + moved;
    assert states[..i + 1][..i] == states[..i];
    assert MovedSplats(states[..i + 1], cfg) == moved + (if states[i].moved then [PointerSplat(states[i], cfg)] else []);
    if states[i].moved {
      var s := PointerSplat(states[i], cfg);
      assert prior + MovedSplats(states[..i + 1], cfg) == done + [s];
      SplatsSnoc(r, done, s, cfg, canvasWidth, canvasHeight);
      AfterSplatsAdd(r, |done|, 1);
      var a := SplatsCommands(r, done, cfg, canvasWidth, canvasHeight);
      var b := SplatCommands(q1, s, cfg, canvasWidth, canvasHeight);
      AppendAssociative(t0, a, b);
      assert SplatsCommands(r, done + [s], cfg, canvasWidth, canvasHeight) == a + b;
    } else {
      assert prior + MovedSplats(states[..i + 1], cfg) == done;
    }
  }

  /** The number of moved pointers. */
  function CountMoved(states: seq<PointerState>): nat {
    if states == [] then 0 else CountMoved(states[1..]) + (if states[0].moved then 1 else 0)
  }

  lemma {:induction false} CountMovedSnoc(states: seq<PointerState>, s: PointerState)
    ensures CountMoved(states + [s]) == CountMoved(states) + (if s.moved then 1 else 0)
  {
    if states != [] {
      assert (states + [s])[1..] == states[1..] + [s];
      CountMovedSnoc(states[1..], s);
    }
  }

  /** Exactly one splat per moved pointer. */
  lemma {:induction false} MovedSplatsCount(states: seq<PointerState>, cfg: Config)
    requires AllColored(states)
    ensures |MovedSplats(states, cfg)| == CountMoved(states)
  {
    if states != [] {
      var init := states[..|states| - 1];
      assert states == init + [states[|states| - 1]];
      MovedSplatsCount(init, cfg);
      CountMovedSnoc(init, states[|states| - 1]);
    }
  }

  /** A pointer's splat is made iff it moved: the splats are exactly those of the moved pointers. */
  lemma {:induction false} MovedSplatsMembers(states: seq<PointerState>, cfg: Config)
    requires AllColored(states)
    ensures forall i | 0 <= i < |states| && states[i].moved :: PointerSplat(states[i], cfg) in MovedSplats(states, cfg)
    ensures forall t | t in MovedSplats(states, cfg) :: exists i | 0 <= i < |states| :: states[i].moved && t == PointerSplat(states[i], cfg)
  {
    if states != [] {
      var init := states[..|states| - 1];
      MovedSplatsMembers(init, cfg);
      forall t | t in MovedSplats(states, cfg)
        ensures exists i | 0 <= i < |states| :: states[i].moved && t == PointerSplat(states[i], cfg)
      {
        if t in MovedSplats(init, cfg) {
          var i :| 0 <= i < |init| && init[i].moved && t == PointerSplat(init[i], cfg);
          assert states[i] == init[i];
        } else {
          assert states[|states| - 1].moved && t == PointerSplat(states[|states| - 1], cfg);
        }
      }
      forall i | 0 <= i < |states| && states[i].moved
        ensures PointerSplat(states[i], cfg) in MovedSplats(states, cfg)
      {
        if i < |init| {
          assert init[i] == states[i];
        }
      }
    }
  }

  /** The splats `applyInputs` makes: the burst popped off the splat stack, if any, then one per moved pointer. */
  function InputSplats(stack: seq<nat>, states: seq<PointerState>, random: nat -> real, cfg: Config): seq<Splat>
    requires AllColored(states)
  {
    (if |stack| > 0 then RandomSplats(stack[|stack| - 1], random, GenerateColor(cfg.color, cfg.colorIntensity)) else [])
    + MovedSplats(states, cfg)
  }

  /** One frame's input splats: the popped burst size plus one per moved pointer, and a pointer's splat is among them iff it moved. */
  lemma InputSplatsShape(stack: seq<nat>, states: seq<PointerState>, random: nat -> real, cfg: Config)
    requires AllColored(states)
    ensures |InputSplats(stack, states, random, cfg)| == (if |stack| > 0 then stack[|stack| - 1] else 0) + CountMoved(states)
    ensures forall i | 0 <= i < |states| && states[i].moved :: PointerSplat(states[i], cfg) in InputSplats(stack, states, random, cfg)
  {
    MovedSplatsCount(states, cfg);
    MovedSplatsMembers(states, cfg);
  }

  /** Resolutions of at least one cell give framebuffers of at least one texel each way. */
  lemma ResolutionPositive(resolution: real, bufferWidth: int, bufferHeight: int)
    requires bufferWidth > 0 && bufferHeight > 0 && resolution >= 1.0
    ensures GetResolution(resolution, bufferWidth, bufferHeight).width >= 1
    ensures GetResolution(resolution, bufferWidth, bufferHeight).height >= 1
  {
    GetResolutionOrientation(resolution, bufferWidth, bufferHeight);
    RoundMonotone(1.0, resolution);
    RoundOfInt(1);
  }

  /** The commands of the first `initFramebuffers`: dye, velocity, divergence, curl, pressure, then dye.read is painted white. */
  function FirstInitCommands(sim: Resolution, dye: Resolution): seq<Command> {
    [ Create(0, dye.width, dye.height), Create(1, dye.width, dye.height),
      Create(2, sim.width, sim.height), Create(3, sim.width, sim.height),
      Create(4, sim.width, sim.height), Create(5, sim.width, sim.height),
      Create(6, sim.width, sim.height), Create(7, sim.width, sim.height),
      Draw(Fill(White), [], Into(0)) ]
  }

  /** The divergence and curl framebuffers and the pressure pair of `initFramebuffers`, created in that order. */
  method CreateProjection(g: Gpu, w: int, h: int) returns (div: Fbo, c: Fbo, pr: DoubleFbo)
    requires g.Valid() && w > 0 && h > 0
    modifies g
    ensures g.Valid() && fresh(pr) && pr.Valid(g)
    ensures div.handle == old(g.next) && c.handle == old(g.next) + 1 && pr.Roles() == Pair(old(g.next) + 2, old(g.next) + 3)
    ensures div.handle in g.contents && c.handle in g.contents
    ensures pr.width == w && pr.height == h && pr.swaps == 0
    ensures g.next == old(g.next) + 4
    ensures g.trace == old(g.trace) + [Create(old(g.next), w, h), Create(old(g.next) + 1, w, h), Create(old(g.next) + 2, w, h), Create(old(g.next) + 3, w, h)]
    ensures forall k | k in old(g.contents) :: k in g.contents && g.contents[k] == old(g.contents)[k]
  {
    ghost var t0 := g.trace;
    div := g.CreateFbo(w, h);
    c := g.CreateFbo(w, h);
    pr := new DoubleFbo(g, w, h);
    AppendFour(t0, Create(div.handle, w, h), Create(c.handle, w, h), Create(div.handle + 2, w, h), Create(div.handle + 3, w, h));
  }

  /** The dye and velocity pairs of the first `initFramebuffers`, on a fresh context. */
  method AllocatePairs(simRes: Resolution, dyeRes: Resolution) returns (g: Gpu, d: DoubleFbo, v: DoubleFbo)
    requires simRes.width >= 1 && simRes.height >= 1 && dyeRes.width >= 1 && dyeRes.height >= 1
    ensures fresh(g) && fresh(d) && fresh(v)
    ensures g.Valid() && d.Valid(g) && v.Valid(g) && g.next == 4
    ensures d.Roles() == Pair(0, 1) && v.Roles() == Pair(2, 3)
    ensures d.width == dyeRes.width && d.height == dyeRes.height
    ensures v.width == simRes.width && v.height == simRes.height
    ensures g.trace == FirstInitCommands(simRes, dyeRes)[..4]
  {
    g := new Gpu();
    d := new DoubleFbo(g, dyeRes.width, dyeRes.height);
    v := new DoubleFbo(g, simRes.width, simRes.height);
  }

  /** The create branches of the first `initFramebuffers`, on a fresh context. */
  method AllocateFields(simRes: Resolution, dyeRes: Resolution)
    returns (g: Gpu, d: DoubleFbo, v: DoubleFbo, div: Fbo, c: Fbo, pr: DoubleFbo)
    requires simRes.width >= 1 && simRes.height >= 1 && dyeRes.width >= 1 && dyeRes.height >= 1
    ensures fresh(g) && fresh(d) && fresh(v) && fresh(pr)
    ensures g.Valid() && d.Valid(g) && v.Valid(g) && pr.Valid(g)
    ensures div.handle in g.contents && c.handle in g.contents
    ensures d.Roles() == Pair(0, 1) && v.Roles() == Pair(2, 3) && div.handle == 4 && c.handle == 5 && pr.Roles() == Pair(6, 7)
    ensures d.width == dyeRes.width && d.height == dyeRes.height
    ensures v.width == simRes.width && v.height == simRes.height && pr.width == simRes.width && pr.height == simRes.height
    ensures g.trace == FirstInitCommands(simRes, dyeRes)
    ensures g.contents[d.read.handle].content == Drawn(Fill(White), [])
  {
    g, d, v := AllocatePairs(simRes, dyeRes);
    div, c, pr := CreateProjection(g, simRes.width, simRes.height);
    assert g.trace == FirstInitCommands(simRes, dyeRes)[..8];
    g.Draw(Fill(White), [], d.read.handle);
  }

  class Simulation {
    const gpu: Gpu
    const config: Config
    var canvasWidth: int
    var canvasHeight: int
    var dye: DoubleFbo
    var velocity: DoubleFbo
    var pressure: DoubleFbo
    var divergence: Fbo
    var curl: Fbo
    var splatStack: seq<nat>
    const pointers: seq<Pointer>
    var lastUpdateTime: int

    function Roles(): Roles
      reads this`dye, this`velocity, this`pressure, this`divergence, this`curl, dye, velocity, pressure
    {
      Schedule.Roles(velocity.Roles(), pressure.Roles(), dye.Roles(), divergence.handle, curl.handle)
    }

    ghost function PointerStates(): (ss: seq<PointerState>)
      reads pointers
      ensures |ss| == |pointers| && forall i | 0 <= i < |pointers| :: ss[i] == pointers[i].State()
    {
      seq(|pointers|, i reads pointers requires 0 <= i < |pointers| => pointers[i].State())
    }

    /** The framebuffers and the pointers are each in order. */
    ghost predicate Valid()
      reads this`canvasWidth, this`canvasHeight, this`dye, this`velocity, this`pressure, this`divergence, this`curl,
            gpu, dye, velocity, pressure, pointers
    {
      BuffersValid() && PointersValid()
    }

    /**
     * The context is consistent, the three pairs are distinct objects over
     * live framebuffers, all eight framebuffers are distinct and live, and
     * the canvas and resolutions are positive.
     */
    ghost predicate BuffersValid()
      reads this`canvasWidth, this`canvasHeight, this`dye, this`velocity, this`pressure, this`divergence, this`curl,
            gpu, dye, velocity, pressure
    {
      && gpu.Valid()
      && dye.Valid(gpu) && velocity.Valid(gpu) && pressure.Valid(gpu)
      && dye != velocity && dye != pressure && velocity != pressure
      && divergence.handle in gpu.contents && curl.handle in gpu.contents
      && Distinct(Roles())
      && canvasWidth > 0 && canvasHeight > 0
      && config.simResolution >= 1.0 && config.dyeResolution >= 1.0
    }

    /**
     * The pointer list holds exactly the one pointer made at start-up (the
     * pointer a mousedown could create is never pushed); it has a colour
     * once down or moved, and its id stays -1, the only id the handlers
     * assign.
     */
    ghost predicate PointersValid()
      reads pointers
    {
      && |pointers| == 1
      && (forall p | p in pointers :: Colored(p.State()) && p.id == -1)
    }

    /**
     * Start-up: a fresh context, the first `initFramebuffers` (every buffer
     * created, dye.read painted white), one prototype pointer, an empty
     * splat stack and the clock read.
     */
    constructor (cfg: Config, width: int, height: int, now: int)
      requires width > 0 && height > 0 && cfg.simResolution >= 1.0 && cfg.dyeResolution >= 1.0
      ensures Valid() && fresh(gpu)
      ensures config == cfg && canvasWidth == width && canvasHeight == height
      ensures gpu.trace == FirstInitCommands(GetResolution(cfg.simResolution, width, height), GetResolution(cfg.dyeResolution, width, height))
      ensures Roles() == Schedule.Roles(Pair(2, 3), Pair(6, 7), Pair(0, 1), 4, 5)
      ensures gpu.contents[dye.read.handle].content == Drawn(Fill(White), [])
      ensures |pointers| == 1 && pointers[0].State() == Prototype
      ensures splatStack == [] && lastUpdateTime == now
    {
      var simRes := GetResolution(cfg.simResolution, width, height);
      var dyeRes := GetResolution(cfg.dyeResolution, width, height);
      ResolutionPositive(cfg.simResolution, width, height);
      ResolutionPositive(cfg.dyeResolution, width, height);
      var g, d, v, div, c, pr := AllocateFields(simRes, dyeRes);
      var p := new Pointer();
      gpu := g;
      config := cfg;
      canvasWidth, canvasHeight := width, height;
      dye, velocity, pressure := d, v, pr;
      divergence, curl := div, c;
      splatStack := [];
      pointers := [p];
      lastUpdateTime := now;
    }

    /** A temporary framebuffer named by a slot is live. */
    ghost predicate Bound(s: Slot)
      reads gpu
    {
      s.Temporary? ==> s.handle in gpu.contents
    }

    /** One pass, its framebuffers named by slot; roles, framebuffers and live temporaries are kept. */
    method Pass(k: Kernel, inputs: seq<Slot>, target: Slot)
      requires Valid() && Bound(target) && forall s | s in inputs :: Bound(s)
      modifies gpu
      ensures Valid() && gpu.next == old(gpu.next) && Roles() == old(Roles())
      ensures forall h | h in old(gpu.contents) :: h in gpu.contents
      ensures gpu.trace == old(gpu.trace) + [Command.Draw(k, BindAll(Roles(), inputs), Into(Bind(Roles(), target)))]
    {
      var r := Roles();
      assert LiveRoles(gpu.contents, r);
      var hs := BindAll(r, inputs);
      forall h | h in hs
        ensures h in gpu.contents
      {
        var i :| 0 <= i < |hs| && hs[i] == h;
        assert Bound(inputs[i]);
      }
      gpu.Draw(k, hs, Bind(r, target));
    }

    /** velocity.swap(). */
    method SwapVelocity()
      requires Valid()
      modifies velocity
      ensures Valid()
      ensures Roles() == old(Roles()).(velocity := old(Roles()).velocity.Swapped())
      ensures velocity.swaps == old(velocity.swaps) + 1
      ensures velocity.width == old(velocity.width) && velocity.height == old(velocity.height)
    {
      velocity.Swap();
    }

    /** pressure.swap(). */
    method SwapPressure()
      requires Valid()
      modifies pressure
      ensures Valid()
      ensures Roles() == old(Roles()).(pressure := old(Roles()).pressure.Swapped())
      ensures pressure.swaps == old(pressure.swaps) + 1
    {
      pressure.Swap();
    }

    /** dye.swap(). */
    method SwapDye()
      requires Valid()
      modifies dye
      ensures Valid()
      ensures Roles() == old(Roles()).(dye := old(Roles()).dye.Swapped())
      ensures dye.swaps == old(dye.swaps) + 1
    {
      dye.Swap();
    }

    /** The curl pass and the vorticity pass of `step`; velocity swaps once. */
    method CurlPasses(t: real)
      requires Valid()
      modifies gpu, velocity
      ensures Valid() && gpu.next == old(gpu.next)
      ensures gpu.trace == old(gpu.trace) + CurlCommands(old(Roles()).velocity, curl.handle, config, t)
      ensures Roles() == old(Roles()).(velocity := old(Roles()).velocity.Swapped())
      ensures velocity.swaps == old(velocity.swaps) + 1
      ensures velocity.width == old(velocity.width) && velocity.height == old(velocity.height)
    {
      ghost var t0 := gpu.trace;
      ghost var r := Roles();
      Pass(CurlOf, [VelocityRead], CurlBuffer);
      assert BindAll(r, [VelocityRead]) == [r.velocity.read];
      Pass(Vorticity(config.curl, t), [VelocityRead, CurlBuffer], VelocityWrite);
      assert BindAll(r, [VelocityRead, CurlBuffer]) == [r.velocity.read, r.curl];
      AppendTwo(t0, Command.Draw(CurlOf, [r.velocity.read], Into(r.curl)),
        Command.Draw(Vorticity(config.curl, t), [r.velocity.read, r.curl], Into(r.velocity.write)));
      SwapVelocity();
    }

    /** createFBO for a framebuffer outside the simulation's roles. */
    method CreateTemporary(w: int, h: int) returns (f: Fbo)
      requires Valid() && w > 0 && h > 0
      modifies gpu
      ensures Valid() && Roles() == old(Roles()) && Bound(Temporary(f.handle)) && Unused(Roles(), f.handle)
      ensures f == Fbo(old(gpu.next), w, h, 1.0 / w as real, 1.0 / h as real)
      ensures gpu.next == old(gpu.next) + 1
      ensures gpu.trace == old(gpu.trace) + [Create(f.handle, w, h)]
    {
      f := gpu.CreateFbo(w, h);
    }

    /** Deleting a framebuffer outside the simulation's roles. */
    method DeleteTemporary(h: Handle)
      requires Valid() && Unused(Roles(), h)
      modifies gpu
      ensures Valid() && Roles() == old(Roles()) && gpu.next == old(gpu.next)
      ensures gpu.trace == old(gpu.trace) + [Delete(h)]
    {
      gpu.DeleteFbo(h);
    }

    /**
     * applyVortexForce: a temporary framebuffer of velocity's size gets the
     * vortex field, which is blended into velocity (blend factor 0.1); velocity
     * swaps once and the temporary framebuffer is deleted.
     */
    method ApplyVortexForce(strength: real)
      requires Valid()
      modifies gpu, velocity
      ensures Valid() && gpu.next == old(gpu.next) + 1
      ensures gpu.trace == old(gpu.trace) + VortexForceCommands(old(Roles()).velocity, old(gpu.next), velocity.width, velocity.height, strength)
      ensures Roles() == old(Roles()).(velocity := old(Roles()).velocity.Swapped())
      ensures velocity.swaps == old(velocity.swaps) + 1
      ensures velocity.width == old(velocity.width) && velocity.height == old(velocity.height)
    {
      ghost var t0 := gpu.trace;
      ghost var r := Roles();
      var temp := CreateTemporary(velocity.width, velocity.height);
      Pass(Vortex(strength), [VelocityRead], Temporary(temp.handle));
      assert BindAll(r, [VelocityRead]) == [r.velocity.read];
      Pass(VortexCombine(0.1), [VelocityRead, Temporary(temp.handle)], VelocityWrite);
      assert BindAll(r, [VelocityRead, Temporary(temp.handle)]) == [r.velocity.read, temp.handle];
      SwapVelocity();
      DeleteTemporary(temp.handle);
      AppendFour(t0, Create(temp.handle, temp.width, temp.height), Command.Draw(Vortex(strength), [r.velocity.read], Into(temp.handle)),
        Command.Draw(VortexCombine(0.1), [r.velocity.read, temp.handle], Into(r.velocity.write)), Delete(temp.handle));
    }

    /**
     * The divergence pass, the pressure clear and the PRESSURE_ITERATIONS
     * Jacobi iterations of `step`; pressure swaps 1 + PRESSURE_ITERATIONS times.
     */
    method Project()
      requires Valid()
      modifies gpu, pressure
      ensures Valid() && gpu.next == old(gpu.next)
      ensures gpu.trace == old(gpu.trace)
                + DivergenceCommands(old(Roles()).velocity, old(Roles()).pressure, divergence.handle, config)
                + JacobiCommands(old(Roles()).pressure.Swapped(), divergence.handle, config.pressureIterations)
      ensures Roles() == old(Roles()).(pressure := Swaps(old(Roles()).pressure, 1 + config.pressureIterations))
      ensures pressure.swaps == old(pressure.swaps) + 1 + config.pressureIterations
    {
      ghost var t0 := gpu.trace;
      ghost var r := Roles();
      Pass(Divergence, [VelocityRead], DivergenceBuffer);
      assert BindAll(r, [VelocityRead]) == [r.velocity.read];
      Pass(ClearPressure(config.pressure), [PressureRead], PressureWrite);
      assert BindAll(r, [PressureRead]) == [r.pressure.read];
      AppendTwo(t0, Command.Draw(Divergence, [r.velocity.read], Into(r.divergence)),
        Command.Draw(ClearPressure(config.pressure), [r.pressure.read], Into(r.pressure.write)));
      SwapPressure();
      JacobiIterations();
      SwapsShift(r.pressure, config.pressureIterations);
    }

    /** The PRESSURE_ITERATIONS Jacobi iterations of `step`; pressure swaps once per iteration. */
    method JacobiIterations()
      requires Valid()
      modifies gpu, pressure
      ensures Valid() && gpu.next == old(gpu.next)
      ensures gpu.trace == old(gpu.trace) + JacobiCommands(old(Roles()).pressure, divergence.handle, config.pressureIterations)
      ensures Roles() == old(Roles()).(pressure := Swaps(old(Roles()).pressure, config.pressureIterations))
      ensures pressure.swaps == old(pressure.swaps) + config.pressureIterations
    {
      ghost var r := Roles();
      for i := 0 to config.pressureIterations
        invariant Valid() && gpu.next == old(gpu.next)
        invariant gpu.trace == old(gpu.trace) + JacobiCommands(r.pressure, r.divergence, i)
        invariant Roles() == r.(pressure := Swaps(r.pressure, i))
        invariant pressure.swaps == old(pressure.swaps) + i
      {
        Pass(Jacobi, [DivergenceBuffer, PressureRead], PressureWrite);
        assert BindAll(Roles(), [DivergenceBuffer, PressureRead]) == [r.divergence, Swaps(r.pressure, i).read];
        SwapPressure();
        SwapsStep(r.pressure, i);
      }
    }

    /** Gradient subtraction, velocity advection and dye advection; velocity swaps twice and dye once. */
    method AdvectionPasses(t: real)
      requires Valid()
      modifies gpu, velocity, dye
      ensures Valid() && gpu.next == old(gpu.next)
      ensures gpu.trace == old(gpu.trace) + AdvectionCommands(old(Roles()).velocity, old(Roles()).pressure, old(Roles()).dye, config, t)
      ensures Roles() == old(Roles()).(dye := old(Roles()).dye.Swapped())
      ensures velocity.swaps == old(velocity.swaps) + 2 && dye.swaps == old(dye.swaps) + 1
    {
      ghost var t0 := gpu.trace;
      ghost var r := Roles();
      Pass(GradientSubtract, [PressureRead, VelocityRead], VelocityWrite);
      assert BindAll(r, [PressureRead, VelocityRead]) == [r.pressure.read, r.velocity.read];
      SwapVelocity();
      Pass(AdvectVelocity(t, config.velocityDissipation), [VelocityRead], VelocityWrite);
      assert BindAll(Roles(), [VelocityRead]) == [r.velocity.write];
      SwapVelocity();
      Pass(AdvectDye(t), [VelocityRead, DyeRead], DyeWrite);
      assert BindAll(r, [VelocityRead, DyeRead]) == [r.velocity.read, r.dye.read];
      AppendThree(t0, Command.Draw(GradientSubtract, [r.pressure.read, r.velocity.read], Into(r.velocity.write)),
        Command.Draw(AdvectVelocity(t, config.velocityDissipation), [r.velocity.write], Into(r.velocity.read)),
        Command.Draw(AdvectDye(t), [r.velocity.read, r.dye.read], Into(r.dye.write)));
      SwapDye();
    }

    /** blur: per iteration a horizontal pass from target into temp and a vertical pass back; nothing swaps. */
    method Blur(target: Slot, temp: Slot, iterations: nat)
      requires Valid() && Bound(target) && Bound(temp)
      modifies gpu
      ensures Valid() && gpu.next == old(gpu.next) && Roles() == old(Roles())
      ensures gpu.trace == old(gpu.trace) + BlurCommands(Bind(Roles(), target), Bind(Roles(), temp), iterations)
    {
      ghost var r := Roles();
      for i := 0 to iterations
        invariant Valid() && gpu.next == old(gpu.next) && Roles() == r && Bound(target) && Bound(temp)
        invariant gpu.trace == old(gpu.trace) + BlurCommands(Bind(r, target), Bind(r, temp), i)
      {
        BlurRound(target, temp);
        AppendAssociative(old(gpu.trace), BlurCommands(Bind(r, target), Bind(r, temp), i),
          [Draw(BlurHorizontal, [Bind(r, target)], Into(Bind(r, temp))), Draw(BlurVertical, [Bind(r, temp)], Into(Bind(r, target)))]);
      }
    }

    /** One iteration of blur's loop: the horizontal pass into temp, then the vertical pass back into target. */
    method BlurRound(target: Slot, temp: Slot)
      requires Valid() && Bound(target) && Bound(temp)
      modifies gpu
      ensures Valid() && gpu.next == old(gpu.next) && Roles() == old(Roles()) && Bound(target) && Bound(temp)
      ensures gpu.trace == old(gpu.trace)
                + [Draw(BlurHorizontal, [Bind(Roles(), target)], Into(Bind(Roles(), temp))),
                   Draw(BlurVertical, [Bind(Roles(), temp)], Into(Bind(Roles(), target)))]
    {
      ghost var r := Roles();
      Pass(BlurHorizontal, [target], temp);
      assert BindAll(r, [target]) == [Bind(r, target)];
      Pass(BlurVertical, [temp], target);
      assert BindAll(r, [temp]) == [Bind(r, temp)];
    }

    /**
     * step(dt): the passes of StepCommands, from the roles at the start;
     * velocity swaps 4 times, pressure 1 + PRESSURE_ITERATIONS times, dye
     * once, and blur keeps dye's roles.
     */
    method Step(dt: real)
      requires Valid()
      modifies gpu, velocity, pressure, dye
      ensures Valid() && gpu.next == old(gpu.next) + 1
      ensures gpu.trace == old(gpu.trace) + StepCommands(old(Roles()), old(gpu.next), old(velocity.width), old(velocity.height), config, dt)
      ensures Roles() == StepRoles(old(Roles()), config)
      ensures velocity.swaps == old(velocity.swaps) + 4
      ensures pressure.swaps == old(pressure.swaps) + 1 + config.pressureIterations
      ensures dye.swaps == old(dye.swaps) + 1
    {
      ghost var r := Roles();
      ghost var t0 := gpu.trace;
      var t := ScaledDt(dt, config);
      CurlPasses(t);
      ghost var t1 := gpu.trace;
      ApplyVortexForce(VortexStrength(config, t));
      SwappedTwice(r.velocity);
      ghost var t2 := gpu.trace;
      Project();
      ghost var t3 := gpu.trace;
      AdvectionPasses(t);
      ghost var t4 := gpu.trace;
      Blur(DyeRead, DyeWrite, 1);
      StepPhases(r, old(gpu.next), old(velocity.width), old(velocity.height), config, dt, t0, t1, t2, t3, t4, gpu.trace);
    }

    /** The simulation resolution on the current canvas (the drawing buffer is taken to be the canvas size). */
    function SimRes(): Resolution
      reads this`canvasWidth, this`canvasHeight
      requires canvasWidth > 0 && canvasHeight > 0
    {
      GetResolution(config.simResolution, canvasWidth, canvasHeight)
    }

    /** The dye resolution on the current canvas (the drawing buffer is taken to be the canvas size). */
    function DyeRes(): Resolution
      reads this`canvasWidth, this`canvasHeight
      requires canvasWidth > 0 && canvasHeight > 0
    {
      GetResolution(config.dyeResolution, canvasWidth, canvasHeight)
    }

    /** resizeDoubleFBO(dye, ...): dye moves to fresh framebuffers unless its size is unchanged. */
    method ResizeDye(w: int, h: int)
      requires Valid() && w > 0 && h > 0
      modifies gpu, dye
      ensures Valid() && dye.width == w && dye.height == h
      ensures gpu.next == old(gpu.next) + ResizeAllocations(old(dye.width), old(dye.height), w, h)
      ensures gpu.trace == old(gpu.trace) + ResizeCommands(old(Roles()).dye, old(dye.width), old(dye.height), w, h, old(gpu.next))
      ensures Roles() == old(Roles()).(dye := Resized(old(Roles()).dye, old(dye.width), old(dye.height), w, h, old(gpu.next)))
      ensures forall k | k in old(gpu.contents) :: k in gpu.contents && gpu.contents[k] == old(gpu.contents)[k]
    {
      dye.Resize(gpu, w, h);
    }

    /**
     * resizeDoubleFBO(velocity, ...): velocity moves to fresh framebuffers
     * unless its size is unchanged, and its read buffer then holds a copy
     * of the old read buffer.
     */
    method ResizeVelocity(w: int, h: int)
      requires Valid() && w > 0 && h > 0
      modifies gpu, velocity
      ensures Valid() && velocity.width == w && velocity.height == h
      ensures gpu.next == old(gpu.next) + ResizeAllocations(old(velocity.width), old(velocity.height), w, h)
      ensures gpu.trace == old(gpu.trace) + ResizeCommands(old(Roles()).velocity, old(velocity.width), old(velocity.height), w, h, old(gpu.next))
      ensures Roles() == old(Roles()).(velocity := Resized(old(Roles()).velocity, old(velocity.width), old(velocity.height), w, h, old(gpu.next)))
      ensures forall k | k in old(gpu.contents) :: k in gpu.contents && gpu.contents[k] == old(gpu.contents)[k]
      ensures SameSize(old(velocity.width), old(velocity.height), w, h) ==>
                gpu.contents[velocity.read.handle] == old(gpu.contents[velocity.read.handle])
      ensures !SameSize(old(velocity.width), old(velocity.height), w, h) ==>
                gpu.contents[velocity.read.handle] == Texture(w, h, Drawn(Copy, [old(gpu.contents[velocity.read.handle])]))
    {
      velocity.Resize(gpu, w, h);
    }

    /** drawColor(dye.read, white). */
    method PaintDye()
      requires Valid()
      modifies gpu
      ensures Valid() && gpu.next == old(gpu.next) && Roles() == old(Roles())
      ensures gpu.trace == old(gpu.trace) + [Command.Draw(Fill(White), [], Into(dye.read.handle))]
      ensures gpu.contents == Apply(old(gpu.contents), Command.Draw(Fill(White), [], Into(dye.read.handle)))
    {
      gpu.Draw(Fill(White), [], dye.read.handle);
    }

    /** The divergence, curl and pressure assignments of `initFramebuffers`: fresh framebuffers replace the old ones. */
    method ReplaceProjection(w: int, h: int)
      requires Valid() && w > 0 && h > 0
      modifies this`divergence, this`curl, this`pressure, gpu
      ensures Valid()
      ensures gpu.next == old(gpu.next) + 4
      ensures gpu.trace == old(gpu.trace) + [Create(old(gpu.next), w, h), Create(old(gpu.next) + 1, w, h),
                                             Create(old(gpu.next) + 2, w, h), Create(old(gpu.next) + 3, w, h)]
      ensures Roles() == old(Roles()).(pressure := Pair(old(gpu.next) + 2, old(gpu.next) + 3), divergence := old(gpu.next), curl := old(gpu.next) + 1)
      ensures gpu.contents[velocity.read.handle] == old(gpu.contents[velocity.read.handle])
      ensures fresh(pressure)
      ensures pressure.width == w && pressure.height == h
    {
      var div, c, pr := CreateProjection(gpu, w, h);
      divergence, curl, pressure := div, c, pr;
    }

    /**
     * The rest of `initFramebuffers`: fresh divergence, curl and pressure
     * framebuffers replace the old ones, then dye.read is painted white.
     */
    method RenewProjection(w: int, h: int)
      requires Valid() && w > 0 && h > 0
      modifies this`divergence, this`curl, this`pressure, gpu
      ensures Valid()
      ensures splatStack == old(splatStack) && lastUpdateTime == old(lastUpdateTime) && PointerStates() == old(PointerStates())
      ensures canvasWidth == old(canvasWidth) && canvasHeight == old(canvasHeight)
      ensures gpu.next == old(gpu.next) + 4
      ensures gpu.trace == old(gpu.trace) + [Create(old(gpu.next), w, h), Create(old(gpu.next) + 1, w, h),
                                             Create(old(gpu.next) + 2, w, h), Create(old(gpu.next) + 3, w, h),
                                             Command.Draw(Fill(White), [], Into(old(dye.read.handle)))]
      ensures Roles() == old(Roles()).(pressure := Pair(old(gpu.next) + 2, old(gpu.next) + 3), divergence := old(gpu.next), curl := old(gpu.next) + 1)
      ensures gpu.contents[dye.read.handle].content == Drawn(Fill(White), [])
      ensures gpu.contents[velocity.read.handle] == old(gpu.contents[velocity.read.handle])
      ensures fresh(pressure)
      ensures pressure.width == w && pressure.height == h
    {
      ReplaceProjection(w, h);
      PaintDye();
    }

    /** The two resizeDoubleFBO calls of `initFramebuffers`: dye first, then velocity. */
    method ResizeFields(dyeRes: Resolution, simRes: Resolution)
      requires Valid() && dyeRes.width > 0 && dyeRes.height > 0 && simRes.width > 0 && simRes.height > 0
      modifies gpu, dye, velocity
      ensures Valid()
      ensures splatStack == old(splatStack) && lastUpdateTime == old(lastUpdateTime) && PointerStates() == old(PointerStates())
      ensures canvasWidth == old(canvasWidth) && canvasHeight == old(canvasHeight)
      ensures dye.width == dyeRes.width && dye.height == dyeRes.height
      ensures velocity.width == simRes.width && velocity.height == simRes.height
      ensures gpu.next == old(gpu.next) + ResizeAllocations(old(dye.width), old(dye.height), dyeRes.width, dyeRes.height)
                                         + ResizeAllocations(old(velocity.width), old(velocity.height), simRes.width, simRes.height)
      ensures gpu.trace == old(gpu.trace)
                + ResizeCommands(old(Roles()).dye, old(dye.width), old(dye.height), dyeRes.width, dyeRes.height, old(gpu.next))
                + ResizeCommands(old(Roles()).velocity, old(velocity.width), old(velocity.height), simRes.width, simRes.height,
                                 old(gpu.next) + ResizeAllocations(old(dye.width), old(dye.height), dyeRes.width, dyeRes.height))
      ensures Roles() == old(Roles()).(
                dye := Resized(old(Roles()).dye, old(dye.width), old(dye.height), dyeRes.width, dyeRes.height, old(gpu.next)),
                velocity := Resized(old(Roles()).velocity, old(velocity.width), old(velocity.height), simRes.width, simRes.height,
                                    old(gpu.next) + ResizeAllocations(old(dye.width), old(dye.height), dyeRes.width, dyeRes.height)))
      ensures SameSize(old(velocity.width), old(velocity.height), simRes.width, simRes.height) ==>
                gpu.contents[velocity.read.handle] == old(gpu.contents[velocity.read.handle])
      ensures !SameSize(old(velocity.width), old(velocity.height), simRes.width, simRes.height) ==>
                gpu.contents[velocity.read.handle] == Texture(simRes.width, simRes.height, Drawn(Copy, [old(gpu.contents[velocity.read.handle])]))
    {
      ResizeDye(dyeRes.width, dyeRes.height);
      ResizeVelocity(simRes.width, simRes.height);
    }

    /**
     * initFramebuffers after the first one: dye and velocity are resized in
     * place (velocity.read keeps its contents, copied when the size
     * changes), divergence, curl and pressure are replaced by fresh
     * framebuffers, and dye.read is painted white whether or not it was
     * resized. No framebuffer is deleted.
     */
    method InitFramebuffers()
      requires Valid()
      modifies this`divergence, this`curl, this`pressure, gpu, dye, velocity
      ensures Valid()
      ensures splatStack == old(splatStack) && lastUpdateTime == old(lastUpdateTime) && PointerStates() == old(PointerStates())
      ensures canvasWidth == old(canvasWidth) && canvasHeight == old(canvasHeight)
      ensures gpu.trace == old(gpu.trace) + ReinitCommands(old(Roles()), old(dye.width), old(dye.height), DyeRes(),
                                                           old(velocity.width), old(velocity.height), SimRes(), old(gpu.next))
      ensures Roles() == ReinitRoles(old(Roles()), old(dye.width), old(dye.height), DyeRes(),
                                     old(velocity.width), old(velocity.height), SimRes(), old(gpu.next))
      ensures gpu.next == ReinitNext(old(dye.width), old(dye.height), DyeRes(), old(velocity.width), old(velocity.height), SimRes(), old(gpu.next))
      ensures fresh(pressure)
      ensures dye.width == DyeRes().width && dye.height == DyeRes().height
      ensures velocity.width == SimRes().width && velocity.height == SimRes().height
      ensures pressure.width == SimRes().width && pressure.height == SimRes().height
      ensures gpu.contents[dye.read.handle].content == Drawn(Fill(White), [])
      ensures SameSize(old(velocity.width), old(velocity.height), SimRes().width, SimRes().height) ==>
                gpu.contents[velocity.read.handle] == old(gpu.contents[velocity.read.handle])
      ensures !SameSize(old(velocity.width), old(velocity.height), SimRes().width, SimRes().height) ==>
                gpu.contents[velocity.read.handle] == Texture(SimRes().width, SimRes().height, Drawn(Copy, [old(gpu.contents[velocity.read.handle])]))
    {
      var simRes := SimRes();
      var dyeRes := DyeRes();
      ResolutionPositive(config.simResolution, canvasWidth, canvasHeight);
      ResolutionPositive(config.dyeResolution, canvasWidth, canvasHeight);
      ghost var t0 := gpu.trace;
      ResizeFields(dyeRes, simRes);
      ghost var t1 := gpu.trace;
      ghost var q1 := Roles();
      RenewProjection(simRes.width, simRes.height);
      ReinitSteps(old(Roles()), old(dye.width), old(dye.height), dyeRes, old(velocity.width), old(velocity.height), simRes, old(gpu.next),
                  t0, t1, gpu.trace, q1, Roles());
    }

    /**
     * splat(x, y, dx, dy, color): the velocity splat into velocity.write and
     * the dye splat into dye.write, each followed by a swap.
     */
    method ApplySplat(s: Splat)
      requires Valid()
      modifies gpu, velocity, dye
      ensures Valid() && gpu.next == old(gpu.next)
      ensures gpu.trace == old(gpu.trace) + SplatCommands(old(Roles()), s, config, canvasWidth, canvasHeight)
      ensures Roles() == AfterSplats(old(Roles()), 1)
      ensures velocity.width == old(velocity.width) && velocity.height == old(velocity.height)
    {
      ghost var t0 := gpu.trace;
      ghost var r := Roles();
      var aspectRatio := canvasWidth as real / canvasHeight as real;
      var radius := CorrectRadius(config.splatRadius / 100.0, canvasWidth, canvasHeight);
      Pass(SplatVelocity(aspectRatio, s.x, s.y, s.dx, s.dy, radius), [VelocityRead], VelocityWrite);
      assert BindAll(r, [VelocityRead]) == [r.velocity.read];
      SwapVelocity();
      Pass(SplatDye(aspectRatio, s.x, s.y, radius, s.color), [DyeRead], DyeWrite);
      assert BindAll(Roles(), [DyeRead]) == [r.dye.read];
      AppendTwo(t0, Command.Draw(SplatVelocity(aspectRatio, s.x, s.y, s.dx, s.dy, radius), [r.velocity.read], Into(r.velocity.write)),
        Command.Draw(SplatDye(aspectRatio, s.x, s.y, radius, s.color), [r.dye.read], Into(r.dye.write)));
      SwapDye();
      SwapsStep(r.velocity, 0);
      SwapsStep(r.dye, 0);
    }

    /**
     * multipleSplats(amount): `amount` splats, the i-th at the position and
     * with the push drawn from Math.random() values 4i to 4i+3, all in the
     * configured colour.
     */
    method MultipleSplats(amount: nat, random: nat -> real)
      requires Valid()
      modifies gpu, velocity, dye
      ensures Valid() && gpu.next == old(gpu.next)
      ensures gpu.trace == old(gpu.trace)
                + SplatsCommands(old(Roles()), RandomSplats(amount, random, GenerateColor(config.color, config.colorIntensity)),
                                 config, canvasWidth, canvasHeight)
      ensures Roles() == AfterSplats(old(Roles()), amount)
      ensures velocity.width == old(velocity.width) && velocity.height == old(velocity.height)
    {
      ghost var r := Roles();
      ghost var c := GenerateColor(config.color, config.colorIntensity);
      for i := 0 to amount
        invariant BurstLoop(old(gpu.trace), old(gpu.next), r, random, c, i)
        invariant velocity.width == old(velocity.width) && velocity.height == old(velocity.height)
      {
        RandomSplatStep(i, random, old(gpu.trace), old(gpu.next), r, c);
      }
    }

    /** The state after the first `i` splats of a burst from roles `r`. */
    ghost predicate BurstLoop(t0: seq<Command>, n0: Handle, r: Roles, random: nat -> real, c: Rgb, i: nat)
      reads this`canvasWidth, this`canvasHeight, this`dye, this`velocity, this`pressure, this`divergence, this`curl,
            gpu, dye, velocity, pressure, pointers
    {
      && Valid() && gpu.next == n0
      && gpu.trace == t0 + SplatsCommands(r, RandomSplats(i, random, c), config, canvasWidth, canvasHeight)
      && Roles() == AfterSplats(r, i)
    }

    /** One round of multipleSplats' loop: the i-th random splat. */
    method RandomSplatStep(i: nat, random: nat -> real, ghost t0: seq<Command>, ghost n0: Handle, ghost r: Roles, ghost c: Rgb)
      requires BurstLoop(t0, n0, r, random, c, i) && c == GenerateColor(config.color, config.colorIntensity)
      modifies gpu, velocity, dye
      ensures BurstLoop(t0, n0, r, random, c, i + 1)
      ensures velocity.width == old(velocity.width) && velocity.height == old(velocity.height)
    {
      var color := GenerateColor(config.color, config.colorIntensity);
      var s := Splat(random(4 * i), random(4 * i + 1), 1000.0 * (random(4 * i + 2) - 0.5), 1000.0 * (random(4 * i + 3) - 0.5), color);
      assert s == RandomSplat(i, random, c);
      ghost var t1 := gpu.trace;
      ghost var q1 := Roles();
      ApplySplat(s);
      BurstStep(r, i, random, c, config, canvasWidth, canvasHeight, t0, t1, gpu.trace, q1, Roles());
    }

    /** splatPointer: one splat at the pointer, pushed by its deltas times SPLAT_FORCE, in its colour. */
    method SplatPointer(p: Pointer)
      requires Valid() && p.color.Some?
      modifies gpu, velocity, dye
      ensures Valid() && gpu.next == old(gpu.next)
      ensures gpu.trace == old(gpu.trace) + SplatCommands(old(Roles()), PointerSplat(p.State(), config), config, canvasWidth, canvasHeight)
      ensures Roles() == AfterSplats(old(Roles()), 1)
      ensures velocity.width == old(velocity.width) && velocity.height == old(velocity.height)
    {
      var s := Splat(p.texcoordX, p.texcoordY, p.deltaX * config.splatForce, p.deltaY * config.splatForce, p.color.value);
      assert s == PointerSplat(p.State(), config);
      ApplySplat(s);
    }

    /** clearScreen: dye.write is filled white and dye swaps, so the dye shown next is white. */
    method ClearScreen()
      requires Valid()
      modifies gpu, dye
      ensures Valid() && gpu.next == old(gpu.next)
      ensures gpu.trace == old(gpu.trace) + ClearCommands(old(Roles()))
      ensures Roles() == old(Roles()).(dye := old(Roles()).dye.Swapped())
      ensures gpu.contents[dye.read.handle].content == Drawn(Fill(White), [])
    {
      gpu.Draw(Fill(White), [], dye.write.handle);
      assert Lookup(old(gpu.contents), []) == [];
      SwapDye();
    }

    /** render(null): the display pass shows dye.read on the canvas; no framebuffer changes. */
    method Render()
      requires Valid()
      modifies gpu
      ensures Valid() && gpu.next == old(gpu.next) && Roles() == old(Roles())
      ensures gpu.trace == old(gpu.trace) + RenderCommands(Roles())
      ensures PointerStates() == old(PointerStates())
      ensures gpu.contents == old(gpu.contents)
    {
      gpu.DrawToScreen(Display, [dye.read.handle]);
    }

    /** pointers.find((p) => p.id == id): the index of the first pointer with that id, or -1 when there is none. */
    method FindPointer(id: int) returns (k: int)
      ensures -1 <= k < |pointers|
      ensures k >= 0 ==> pointers[k].id == id && forall j | 0 <= j < k :: pointers[j].id != id
      ensures k < 0 ==> forall j | 0 <= j < |pointers| :: pointers[j].id != id
    {
      k := 0;
      while k < |pointers|
        invariant 0 <= k <= |pointers|
        invariant forall j | 0 <= j < k :: pointers[j].id != id
      {
        if pointers[k].id == id {
          return;
        }
        k := k + 1;
      }
      k := -1;
    }

    /**
     * The mousedown handler: the pointer with id -1 (always the start-up
     * pointer) is put down at the scaled offset with a new colour, and
     * splats there.
     */
    method OnMouseDown(offsetX: real, offsetY: real, pixelRatio: real)
      requires Valid()
      modifies gpu, velocity, dye, pointers
      ensures Valid() && gpu.next == old(gpu.next)
      ensures pointers[0].State()
           == Down(old(pointers[0].State()), -1, ScaleByPixelRatio(offsetX, pixelRatio) as real, ScaleByPixelRatio(offsetY, pixelRatio) as real,
                   canvasWidth, canvasHeight, GenerateColor(config.color, config.colorIntensity))
      ensures gpu.trace == old(gpu.trace) + SplatCommands(old(Roles()), PointerSplat(pointers[0].State(), config), config, canvasWidth, canvasHeight)
      ensures Roles() == AfterSplats(old(Roles()), 1)
    {
      var posX := ScaleByPixelRatio(offsetX, pixelRatio) as real;
      var posY := ScaleByPixelRatio(offsetY, pixelRatio) as real;
      var k := FindPointer(-1);
      assert pointers[0] in pointers;
      if k < 0 {
        assert false;
      }
      var pointer := pointers[k];
      pointer.UpdateDown(-1, posX, posY, canvasWidth, canvasHeight, GenerateColor(config.color, config.colorIntensity));
      assert pointers == [pointer];
      SplatPointer(pointer);
    }

    /**
     * The mousemove handler: only while pointers[0] is down, it moves to the
     * scaled offset and splats at once with the new deltas.
     */
    method OnMouseMove(offsetX: real, offsetY: real, pixelRatio: real)
      requires Valid()
      modifies gpu, velocity, dye, pointers
      ensures Valid() && gpu.next == old(gpu.next)
      ensures old(pointers[0].down) ==>
                && pointers[0].State()
                   == Move(old(pointers[0].State()), ScaleByPixelRatio(offsetX, pixelRatio) as real, ScaleByPixelRatio(offsetY, pixelRatio) as real,
                           canvasWidth, canvasHeight)
                && gpu.trace == old(gpu.trace) + SplatCommands(old(Roles()), PointerSplat(pointers[0].State(), config), config, canvasWidth, canvasHeight)
                && Roles() == AfterSplats(old(Roles()), 1)
      ensures !old(pointers[0].down) ==>
                pointers[0].State() == old(pointers[0].State()) && gpu.trace == old(gpu.trace) && Roles() == old(Roles())
    {
      var pointer := pointers[0];
      if !pointer.down {
        return;
      }
      var posX := ScaleByPixelRatio(offsetX, pixelRatio) as real;
      var posY := ScaleByPixelRatio(offsetY, pixelRatio) as real;
      assert pointer in pointers;
      UpdatesKeepColored(pointer.State(), posX, posY, canvasWidth, canvasHeight);
      pointer.UpdateMove(posX, posY, canvasWidth, canvasHeight);
      assert pointers == [pointer];
      SplatPointer(pointer);
    }

    /** The mouseup handler: pointers[0] is lifted and nothing is drawn. */
    method OnMouseUp()
      requires Valid()
      modifies pointers
      ensures Valid()
      ensures pointers[0].State() == Up(old(pointers[0].State()))
    {
      var pointer := pointers[0];
      assert pointer in pointers;
      UpdatesKeepColored(pointer.State(), 0.0, 0.0, canvasWidth, canvasHeight);
      pointer.UpdateUp();
      assert pointers == [pointer];
    }

    /** calcDeltaTime: the step length since the last frame, capped at MaxDt; the clock reading is kept. */
    method CalcDeltaTime(now: int) returns (dt: real)
      requires Valid()
      modifies this`lastUpdateTime
      ensures Valid()
      ensures dt == DeltaTime(old(lastUpdateTime), now) && lastUpdateTime == now
    {
      dt := (now - lastUpdateTime) as real / 1000.0;
      if MaxDt < dt {
        dt := MaxDt;
      }
      lastUpdateTime := now;
    }

    /**
     * resizeCanvas: the canvas takes the client size in device pixels, and
     * the result says whether that differed from the old size.
     */
    method ResizeCanvas(clientWidth: real, clientHeight: real, pixelRatio: real) returns (resized: bool)
      requires Valid()
      requires ScaleByPixelRatio(clientWidth, pixelRatio) > 0 && ScaleByPixelRatio(clientHeight, pixelRatio) > 0
      modifies this`canvasWidth, this`canvasHeight
      ensures Valid()
      ensures canvasWidth == ScaleByPixelRatio(clientWidth, pixelRatio) && canvasHeight == ScaleByPixelRatio(clientHeight, pixelRatio)
      ensures resized <==> (old(canvasWidth) != canvasWidth || old(canvasHeight) != canvasHeight)
    {
      var width := ScaleByPixelRatio(clientWidth, pixelRatio);
      var height := ScaleByPixelRatio(clientHeight, pixelRatio);
      resized := false;
      if canvasWidth != width || canvasHeight != height {
        canvasWidth := width;
        canvasHeight := height;
        resized := true;
      }
    }

    /**
     * update: one animation frame. The clock is read, the canvas follows the
     * client size, the framebuffers are rebuilt if that changed it, the
     * inputs are applied, the simulation steps unless paused, and the dye
     * is shown: the frame's commands are those four parts in that order.
     */
    method Update(now: int, clientWidth: real, clientHeight: real, pixelRatio: real, random: nat -> real)
      returns (ghost reinit: seq<Command>, ghost inputs: seq<Command>, ghost stepped: seq<Command>, ghost r1: Roles, ghost n1: Handle)
      requires Valid()
      requires ScaleByPixelRatio(clientWidth, pixelRatio) > 0 && ScaleByPixelRatio(clientHeight, pixelRatio) > 0
      modifies this`lastUpdateTime, this`canvasWidth, this`canvasHeight, this`divergence, this`curl, this`pressure, this`splatStack,
               gpu, dye, velocity, pressure, pointers
      ensures Valid() && AllColored(old(PointerStates()))
      ensures lastUpdateTime == now
      ensures canvasWidth == ScaleByPixelRatio(clientWidth, pixelRatio) && canvasHeight == ScaleByPixelRatio(clientHeight, pixelRatio)
      ensures splatStack == if |old(splatStack)| > 0 then old(splatStack)[..|old(splatStack)| - 1] else old(splatStack)
      ensures forall i | 0 <= i < |pointers| :: pointers[i].State() == old(pointers[i].State()).(moved := false)
      ensures gpu.trace == old(gpu.trace) + reinit + inputs + stepped + RenderCommands(Roles())
      ensures var resized := old(canvasWidth) != canvasWidth || old(canvasHeight) != canvasHeight;
              && r1 == (if resized then ReinitRoles(old(Roles()), old(dye.width), old(dye.height), DyeRes(),
                                                    old(velocity.width), old(velocity.height), SimRes(), old(gpu.next))
                        else old(Roles()))
              && n1 == (if resized then ReinitNext(old(dye.width), old(dye.height), DyeRes(),
                                                   old(velocity.width), old(velocity.height), SimRes(), old(gpu.next))
                        else old(gpu.next))
              && reinit == (if resized then ReinitCommands(old(Roles()), old(dye.width), old(dye.height), DyeRes(),
                                                           old(velocity.width), old(velocity.height), SimRes(), old(gpu.next))
                            else [])
      ensures var splats := InputSplats(old(splatStack), old(PointerStates()), random, config);
              && inputs == SplatsCommands(r1, splats, config, canvasWidth, canvasHeight)
              && stepped == (if config.paused then []
                             else StepCommands(AfterSplats(r1, |splats|), n1,
                                               if old(canvasWidth) != canvasWidth || old(canvasHeight) != canvasHeight then SimRes().width else old(velocity.width),
                                               if old(canvasWidth) != canvasWidth || old(canvasHeight) != canvasHeight then SimRes().height else old(velocity.height),
                                               config, DeltaTime(old(lastUpdateTime), now)))
    {
      var dt, resized;
      dt, resized, reinit := BeginFrame(now, clientWidth, clientHeight, pixelRatio);
      r1, n1 := Roles(), gpu.next;
      inputs, stepped := AdvanceFrame(dt, random);
    }

    /** `if (resizeCanvas()) initFramebuffers()`: the framebuffers are rebuilt exactly when the canvas changed size. */
    method FitCanvas(clientWidth: real, clientHeight: real, pixelRatio: real) returns (resized: bool, ghost reinit: seq<Command>)
      requires Valid()
      requires ScaleByPixelRatio(clientWidth, pixelRatio) > 0 && ScaleByPixelRatio(clientHeight, pixelRatio) > 0
      modifies this`canvasWidth, this`canvasHeight, this`divergence, this`curl, this`pressure, gpu, dye, velocity
      ensures Valid()
      ensures splatStack == old(splatStack) && lastUpdateTime == old(lastUpdateTime) && PointerStates() == old(PointerStates())
      ensures canvasWidth == ScaleByPixelRatio(clientWidth, pixelRatio) && canvasHeight == ScaleByPixelRatio(clientHeight, pixelRatio)
      ensures resized <==> (old(canvasWidth) != canvasWidth || old(canvasHeight) != canvasHeight)
      ensures gpu.trace == old(gpu.trace) + reinit
      ensures reinit == if resized then ReinitCommands(old(Roles()), old(dye.width), old(dye.height), DyeRes(),
                                                       old(velocity.width), old(velocity.height), SimRes(), old(gpu.next))
                        else []
      ensures Roles() == if resized then ReinitRoles(old(Roles()), old(dye.width), old(dye.height), DyeRes(),
                                                     old(velocity.width), old(velocity.height), SimRes(), old(gpu.next))
                         else old(Roles())
      ensures gpu.next == if resized then ReinitNext(old(dye.width), old(dye.height), DyeRes(),
                                                     old(velocity.width), old(velocity.height), SimRes(), old(gpu.next))
                          else old(gpu.next)
      ensures velocity.width == (if resized then SimRes().width else old(velocity.width))
      ensures velocity.height == (if resized then SimRes().height else old(velocity.height))
      ensures pressure == old(pressure) || fresh(pressure)
    {
      ghost var r0, n0 := Roles(), gpu.next;
      ghost var dw, dh, vw, vh := dye.width, dye.height, velocity.width, velocity.height;
      resized := ResizeCanvas(clientWidth, clientHeight, pixelRatio);
      reinit := [];
      if resized {
        reinit := ReinitCommands(r0, dw, dh, DyeRes(), vw, vh, SimRes(), n0);
        InitFramebuffers();
      }
    }

    /** The first half of `update`: calcDeltaTime, resizeCanvas, and initFramebuffers after a resize. */
    method BeginFrame(now: int, clientWidth: real, clientHeight: real, pixelRatio: real)
      returns (dt: real, resized: bool, ghost reinit: seq<Command>)
      requires Valid()
      requires ScaleByPixelRatio(clientWidth, pixelRatio) > 0 && ScaleByPixelRatio(clientHeight, pixelRatio) > 0
      modifies this`lastUpdateTime, this`canvasWidth, this`canvasHeight, this`divergence, this`curl, this`pressure, gpu, dye, velocity
      ensures Valid()
      ensures splatStack == old(splatStack) && PointerStates() == old(PointerStates())
      ensures dt == DeltaTime(old(lastUpdateTime), now) && lastUpdateTime == now
      ensures canvasWidth == ScaleByPixelRatio(clientWidth, pixelRatio) && canvasHeight == ScaleByPixelRatio(clientHeight, pixelRatio)
      ensures resized <==> (old(canvasWidth) != canvasWidth || old(canvasHeight) != canvasHeight)
      ensures gpu.trace == old(gpu.trace) + reinit
      ensures reinit == if resized then ReinitCommands(old(Roles()), old(dye.width), old(dye.height), DyeRes(),
                                                       old(velocity.width), old(velocity.height), SimRes(), old(gpu.next))
                        else []
      ensures Roles() == if resized then ReinitRoles(old(Roles()), old(dye.width), old(dye.height), DyeRes(),
                                                     old(velocity.width), old(velocity.height), SimRes(), old(gpu.next))
                         else old(Roles())
      ensures gpu.next == if resized then ReinitNext(old(dye.width), old(dye.height), DyeRes(),
                                                     old(velocity.width), old(velocity.height), SimRes(), old(gpu.next))
                          else old(gpu.next)
      ensures velocity.width == (if resized then SimRes().width else old(velocity.width))
      ensures velocity.height == (if resized then SimRes().height else old(velocity.height))
      ensures (pressure == old(pressure) || fresh(pressure))
    {
      dt := CalcDeltaTime(now);
      resized, reinit := FitCanvas(clientWidth, clientHeight, pixelRatio);
    }

    /** The rest of `update` before rendering: applyInputs, then step(dt) unless paused. */
    method AdvanceFrame(dt: real, random: nat -> real) returns (ghost inputs: seq<Command>, ghost stepped: seq<Command>)
      requires Valid()
      modifies this`splatStack, gpu, dye, velocity, pressure, pointers
      ensures Valid() && AllColored(old(PointerStates()))
      ensures lastUpdateTime == old(lastUpdateTime) && canvasWidth == old(canvasWidth) && canvasHeight == old(canvasHeight)
      ensures splatStack == if |old(splatStack)| > 0 then old(splatStack)[..|old(splatStack)| - 1] else old(splatStack)
      ensures forall i | 0 <= i < |pointers| :: pointers[i].State() == old(pointers[i].State()).(moved := false)
      ensures gpu.trace == old(gpu.trace) + inputs + stepped + RenderCommands(Roles())
      ensures inputs == SplatsCommands(old(Roles()), InputSplats(old(splatStack), old(PointerStates()), random, config),
                                       config, canvasWidth, canvasHeight)
      ensures stepped == if config.paused then []
                         else StepCommands(AfterSplats(old(Roles()), |InputSplats(old(splatStack), old(PointerStates()), random, config)|),
                                           old(gpu.next), old(velocity.width), old(velocity.height), config, dt)
    {
      ghost var r0 := Roles();
      ghost var splats := ApplyInputs(random);
      inputs := SplatsCommands(r0, splats, config, canvasWidth, canvasHeight);
      stepped := StepAndRender(dt);
    }

    /** The end of `update`: step(dt) unless paused, then render. */
    method StepAndRender(dt: real) returns (ghost stepped: seq<Command>)
      requires Valid()
      modifies gpu, velocity, pressure, dye
      ensures Valid()
      ensures stepped == if config.paused then [] else StepCommands(old(Roles()), old(gpu.next), old(velocity.width), old(velocity.height), config, dt)
      ensures forall i | 0 <= i < |pointers| :: pointers[i].State() == old(pointers[i].State())
      ensures gpu.trace == old(gpu.trace) + stepped + RenderCommands(Roles())
    {
      stepped := StepUnlessPaused(dt);
      Render();
    }

    /** `if (!config.PAUSED) step(dt)`: a paused simulation draws nothing and keeps its roles. */
    method StepUnlessPaused(dt: real) returns (ghost stepped: seq<Command>)
      requires Valid()
      modifies gpu, velocity, pressure, dye
      ensures Valid()
      ensures stepped == if config.paused then [] else StepCommands(old(Roles()), old(gpu.next), old(velocity.width), old(velocity.height), config, dt)
      ensures PointerStates() == old(PointerStates())
      ensures gpu.trace == old(gpu.trace) + stepped
    {
      stepped := [];
      if !config.paused {
        stepped := StepCommands(Roles(), gpu.next, velocity.width, velocity.height, config, dt);
        Step(dt);
      }
    }

    /** splatStack.push(amount): a burst of random splats for the next frame. */
    method QueueSplats(amount: nat)
      modifies this`splatStack
      ensures splatStack == old(splatStack) + [amount]
    {
      splatStack := splatStack + [amount];
    }

    /**
     * The state of the pointer loop of `applyInputs` after its first `i`
     * pointers (their states `states` at the start), the splats `prior`
     * made before the loop included: those pointers are no longer moved,
     * and the trace and the roles hold `prior` and then the splats of the
     * moved ones.
     */
    ghost predicate PointerLoop(t0: seq<Command>, n0: Handle, r: Roles, prior: seq<Splat>, states: seq<PointerState>, i: nat)
      reads this`canvasWidth, this`canvasHeight, this`dye, this`velocity, this`pressure, this`divergence, this`curl,
            gpu, dye, velocity, pressure, pointers
    {
      && Valid() && gpu.next == n0
      && |states| == |pointers| && i <= |pointers| && AllColored(states)
      && (forall j | 0 <= j < |pointers| :: pointers[j].State() == if j < i then states[j].(moved := false) else states[j])
      && gpu.trace == t0 + SplatsCommands(r, prior + MovedSplats(states[..i], config), config, canvasWidth, canvasHeight)
      && Roles() == AfterSplats(r, |prior + MovedSplats(states[..i], config)|)
    }

    /** One iteration of the pointer loop of `applyInputs`: a moved pointer is marked consumed and splats. */
    method ConsumePointer(i: nat, ghost t0: seq<Command>, ghost n0: Handle, ghost r: Roles, ghost prior: seq<Splat>, ghost states: seq<PointerState>)
      requires PointerLoop(t0, n0, r, prior, states, i) && i < |pointers|
      modifies gpu, velocity, dye, pointers[i]
      ensures PointerLoop(t0, n0, r, prior, states, i + 1)
      ensures velocity.width == old(velocity.width) && velocity.height == old(velocity.height)
    {
      ghost var t1 := gpu.trace;
      ghost var q1 := Roles();
      var p := pointers[i];
      if p.moved {
        p.moved := false;
        assert PointerSplat(p.State(), config) == PointerSplat(states[i], config);
        SplatPointer(p);
      }
      PointerStep(r, prior, states, i, config, canvasWidth, canvasHeight, t0, t1, gpu.trace, q1, Roles());
    }

    /**
     * The pointer loop of `applyInputs`: each moved pointer is marked
     * consumed and splats, in array order, continuing a trace that already
     * holds the splats `prior` from the roles `r`.
     */
    method ConsumeMoves(ghost t0: seq<Command>, ghost r: Roles, ghost prior: seq<Splat>)
      requires Valid()
      requires gpu.trace == t0 + SplatsCommands(r, prior, config, canvasWidth, canvasHeight) && Roles() == AfterSplats(r, |prior|)
      modifies gpu, velocity, dye, pointers
      ensures Valid() && gpu.next == old(gpu.next)
      ensures velocity.width == old(velocity.width) && velocity.height == old(velocity.height)
      ensures AllColored(old(PointerStates()))
      ensures lastUpdateTime == old(lastUpdateTime) && canvasWidth == old(canvasWidth) && canvasHeight == old(canvasHeight) && splatStack == old(splatStack)
      ensures gpu.trace == t0 + SplatsCommands(r, prior + MovedSplats(old(PointerStates()), config), config, canvasWidth, canvasHeight)
      ensures Roles() == AfterSplats(r, |prior| + CountMoved(old(PointerStates())))
      ensures forall i | 0 <= i < |pointers| :: pointers[i].State() == old(pointers[i].State()).(moved := false)
    {
      ghost var states := PointerStates();
      assert AllColored(states);
      assert prior + MovedSplats(states[..0], config) == prior by {
        assert states[..0] == [];
      }
      for i := 0 to |pointers|
        invariant PointerLoop(t0, old(gpu.next), r, prior, states, i)
        invariant velocity.width == old(velocity.width) && velocity.height == old(velocity.height)
      {
        ConsumePointer(i, t0, old(gpu.next), r, prior, states);
      }
      assert states[..|pointers|] == states;
      MovedSplatsCount(states, config);
    }

    /**
     * applyInputs: the last burst size on the splat stack is popped and
     * that many random splats are made, then every moved pointer splats
     * once and is marked consumed.
     */
    method ApplyInputs(random: nat -> real) returns (ghost splats: seq<Splat>)
      requires Valid()
      modifies this`splatStack, gpu, velocity, dye, pointers
      ensures Valid() && gpu.next == old(gpu.next)
      ensures lastUpdateTime == old(lastUpdateTime) && canvasWidth == old(canvasWidth) && canvasHeight == old(canvasHeight)
      ensures splatStack == if |old(splatStack)| > 0 then old(splatStack)[..|old(splatStack)| - 1] else old(splatStack)
      ensures AllColored(old(PointerStates())) && splats == InputSplats(old(splatStack), old(PointerStates()), random, config)
      ensures gpu.trace == old(gpu.trace) + SplatsCommands(old(Roles()), splats, config, canvasWidth, canvasHeight)
      ensures Roles() == AfterSplats(old(Roles()), |splats|)
      ensures velocity.width == old(velocity.width) && velocity.height == old(velocity.height)
      ensures forall i | 0 <= i < |pointers| :: pointers[i].State() == old(pointers[i].State()).(moved := false)
    {
      ghost var states := PointerStates();
      assert AllColored(states);
      ghost var burst := PopBurst(random);
      ConsumeMoves(old(gpu.trace), old(Roles()), burst);
      splats := burst + MovedSplats(states, config);
      assert splats == InputSplats(old(splatStack), states, random, config);
      MovedSplatsCount(states, config);
    }

    /** The first line of `applyInputs`: pop the last burst size off the splat stack, if any, and make that many random splats. */
    method PopBurst(random: nat -> real) returns (ghost burst: seq<Splat>)
      requires Valid()
      modifies this`splatStack, gpu, velocity, dye
      ensures Valid() && gpu.next == old(gpu.next)
      ensures splatStack == if |old(splatStack)| > 0 then old(splatStack)[..|old(splatStack)| - 1] else old(splatStack)
      ensures burst == if |old(splatStack)| > 0 then RandomSplats(old(splatStack)[|old(splatStack)| - 1], random, GenerateColor(config.color, config.colorIntensity)) else []
      ensures gpu.trace == old(gpu.trace) + SplatsCommands(old(Roles()), burst, config, canvasWidth, canvasHeight)
      ensures Roles() == AfterSplats(old(Roles()), |burst|)
      ensures velocity.width == old(velocity.width) && velocity.height == old(velocity.height)
      ensures PointerStates() == old(PointerStates())
    {
      burst := [];
      if |splatStack| > 0 {
        var amount := splatStack[|splatStack| - 1];
        splatStack := splatStack[..|splatStack| - 1];
        MultipleSplats(amount, random);
        burst := RandomSplats(amount, random, GenerateColor(config.color, config.colorIntensity));
      }
    }
  }
}
