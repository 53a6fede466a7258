/**
 * The pass schedule of the fluid simulation as pure functions: which
 * framebuffer each pass of `step`, `splat`, `clearScreen`, `blur`,
 * `render` and `initFramebuffers` samples and renders into, and how the
 * read/write roles of the double buffers move with every `swap`.
 */
module Schedule {
  import opened Colors
  import opened Aspect
  import opened Graphics

  /** The fields of `config` the modelled code reads. */
  datatype Config = Config(
    simSpeed: real,
    simResolution: real,
    dyeResolution: real,
    velocityDissipation: real,
    pressure: real,
    pressureIterations: nat,
    curl: real,
    splatRadius: real,
    splatForce: real,
    paused: bool,
    color: string,
    colorIntensity: real,
    vortexStrength: real)

  /** The initial `config` literal. */
  const Defaults: Config := Config(1.0, 128.0, 1024.0, 0.0, 0.6, 20, 30.0, 0.25, 6000.0, false, "White", 100.0, 0.0)

  /** The framebuffers of the simulation by role. */
  datatype Roles = Roles(velocity: Pair, pressure: Pair, dye: Pair, divergence: Handle, curl: Handle)

  /** A framebuffer named by the role it plays when a pass binds it, or a temporary one by its handle. */
  datatype Slot =
    | VelocityRead | VelocityWrite | PressureRead | PressureWrite | DyeRead | DyeWrite
    | DivergenceBuffer | CurlBuffer | Temporary(handle: Handle)

  function Bind(r: Roles, s: Slot): Handle {
    match s
    case VelocityRead => r.velocity.read
    case VelocityWrite => r.velocity.write
    case PressureRead => r.pressure.read
    case PressureWrite => r.pressure.write
    case DyeRead => r.dye.read
    case DyeWrite => r.dye.write
    case DivergenceBuffer => r.divergence
    case CurlBuffer => r.curl
    case Temporary(h) => h
  }

  function BindAll(r: Roles, ss: seq<Slot>): (hs: seq<Handle>)
    ensures |hs| == |ss| && forall i | 0 <= i < |ss| :: hs[i] == Bind(r, ss[i])
  {
    seq(|ss|, i requires 0 <= i < |ss| => Bind(r, ss[i]))
  }

  /** All eight framebuffers are live in the texture store. */
  predicate LiveRoles(m: map<Handle, Texture>, r: Roles) {
    && r.velocity.read in m && r.velocity.write in m
    && r.pressure.read in m && r.pressure.write in m
    && r.dye.read in m && r.dye.write in m
    && r.divergence in m && r.curl in m
  }

  predicate PairApart(p: Pair, q: Pair) {
    p.read != q.read && p.read != q.write && p.write != q.read && p.write != q.write
  }

  predicate Outside(h: Handle, p: Pair) {
    h != p.read && h != p.write
  }

  /** All eight framebuffers are distinct. */
  predicate Distinct(r: Roles) {
    && r.velocity.read != r.velocity.write
    && r.pressure.read != r.pressure.write
    && r.dye.read != r.dye.write
    && PairApart(r.velocity, r.pressure) && PairApart(r.velocity, r.dye) && PairApart(r.pressure, r.dye)
    && Outside(r.divergence, r.velocity) && Outside(r.divergence, r.pressure) && Outside(r.divergence, r.dye)
    && Outside(r.curl, r.velocity) && Outside(r.curl, r.pressure) && Outside(r.curl, r.dye)
    && r.divergence != r.curl
  }

  /** `h` is none of the eight framebuffers. */
  predicate Unused(r: Roles, h: Handle) {
    Outside(h, r.velocity) && Outside(h, r.pressure) && Outside(h, r.dye) && h != r.divergence && h != r.curl
  }

  /** The roles of a pair after `n` swaps. */
  function Swaps(p: Pair, n: nat): (q: Pair)
    ensures q.read == p.read || q.read == p.write
  {
    if n % 2 == 0 then p else p.Swapped()
  }

  lemma SwappedTwice(p: Pair)
    ensures p.Swapped().Swapped() == p
  {
  }

  /** One more swap exchanges the roles once more. */
  lemma SwapsStep(p: Pair, n: nat)
    ensures Swaps(p, n + 1) == Swaps(p, n).Swapped()
  {
  }

  /** Swapping first and then n times is swapping 1 + n times. */
  lemma SwapsShift(p: Pair, n: nat)
    ensures Swaps(p.Swapped(), n) == Swaps(p, 1 + n)
  {
  }

  /** The number of passes that render something. */
  function DrawCount(cs: seq<Command>): (n: nat)
    ensures n <= |cs|
  {
    if cs == [] then 0 else (if cs[0].Draw? then 1 else 0) + DrawCount(cs[1..])
  }

  lemma {:induction false} DrawCountAppend(a: seq<Command>, b: seq<Command>)
    ensures DrawCount(a + b) == DrawCount(a) + DrawCount(b)
  {
    if a == [] {
      assert a + b == b;
    } else {
      assert (a + b)[1..] == a[1..] + b;
      DrawCountAppend(a[1..], b);
    }
  }

  /** The Jacobi loop of `step`: each iteration samples divergence and pressure.read and renders into pressure.write, then swaps. */
  function JacobiCommands(p: Pair, divergence: Handle, n: nat): seq<Command> {
    if n == 0 then []
    else
      var q := Swaps(p, n - 1);
      JacobiCommands(p, divergence, n - 1) + [Draw(Jacobi, [divergence, q.read], Into(q.write))]
  }

  /** Iteration i of the Jacobi loop uses the roles after i swaps. */
  lemma {:induction false} JacobiShape(p: Pair, divergence: Handle, n: nat)
    ensures |JacobiCommands(p, divergence, n)| == n
    ensures forall i | 0 <= i < n ::
              JacobiCommands(p, divergence, n)[i] == Draw(Jacobi, [divergence, Swaps(p, i).read], Into(Swaps(p, i).write))
  {
    if n > 0 {
      JacobiShape(p, divergence, n - 1);
    }
  }

  /** The Jacobi loop never samples the buffer it renders into. */
  lemma JacobiFeedbackFree(p: Pair, divergence: Handle, n: nat)
    requires p.read != p.write && Outside(divergence, p)
    ensures AllFeedbackFree(JacobiCommands(p, divergence, n))
  {
    JacobiShape(p, divergence, n);
  }

  /** Each Jacobi iteration renders once. */
  lemma {:induction false} JacobiCount(p: Pair, divergence: Handle, n: nat)
    ensures DrawCount(JacobiCommands(p, divergence, n)) == n
  {
    if n > 0 {
      var q := Swaps(p, n - 1);
      JacobiCount(p, divergence, n - 1);
      DrawCountAppend(JacobiCommands(p, divergence, n - 1), [Draw(Jacobi, [divergence, q.read], Into(q.write))]);
    }
  }

  /** `blur(target, temp, iterations)`: a horizontal pass into temp, then a vertical pass back into target, per iteration. */
  function BlurCommands(target: Handle, temp: Handle, n: nat): seq<Command> {
    if n == 0 then []
    else BlurCommands(target, temp, n - 1) + [Draw(BlurHorizontal, [target], Into(temp)), Draw(BlurVertical, [temp], Into(target))]
  }

  /** Blur never samples the framebuffer it renders into, and its last pass lands back in `target`. */
  lemma {:induction false} BlurShape(target: Handle, temp: Handle, n: nat)
    requires target != temp
    ensures |BlurCommands(target, temp, n)| == 2 * n
    ensures AllFeedbackFree(BlurCommands(target, temp, n))
    ensures n > 0 ==> BlurCommands(target, temp, n)[2 * n - 1] == Draw(BlurVertical, [temp], Into(target))
  {
    if n > 0 {
      BlurShape(target, temp, n - 1);
    }
  }

  /** Every blur iteration renders twice. */
  lemma {:induction false} BlurCount(target: Handle, temp: Handle, n: nat)
    ensures |BlurCommands(target, temp, n)| == 2 * n
    ensures DrawCount(BlurCommands(target, temp, n)) == 2 * n
  {
    if n > 0 {
      BlurCount(target, temp, n - 1);
      var last := [Draw(BlurHorizontal, [target], Into(temp)), Draw(BlurVertical, [temp], Into(target))];
      DrawCountAppend(BlurCommands(target, temp, n - 1), last);
    }
  }

  /** `applyVortexForce`: a temporary framebuffer receives the vortex field, which is blended into velocity; then it is deleted. */
  function VortexForceCommands(velocity: Pair, temp: Handle, width: int, height: int, strength: real): seq<Command> {
    [ Create(temp, width, height),
      Draw(Vortex(strength), [velocity.read], Into(temp)),
      Draw(VortexCombine(0.1), [velocity.read, temp], Into(velocity.write)),
      Delete(temp) ]
  }

  /** The curl pass and the vorticity-confinement pass of `step`; velocity swaps once. */
  function CurlCommands(velocity: Pair, curl: Handle, cfg: Config, t: real): seq<Command> {
    [ Draw(CurlOf, [velocity.read], Into(curl)),
      Draw(Vorticity(cfg.curl, t), [velocity.read, curl], Into(velocity.write)) ]
  }

  /** The divergence pass and the pressure clear of `step`; pressure swaps once. */
  function DivergenceCommands(velocity: Pair, pressure: Pair, divergence: Handle, cfg: Config): seq<Command> {
    [ Draw(Divergence, [velocity.read], Into(divergence)),
      Draw(ClearPressure(cfg.pressure), [pressure.read], Into(pressure.write)) ]
  }

  /** Gradient subtraction, velocity advection and dye advection; velocity swaps twice, dye once. */
  function AdvectionCommands(velocity: Pair, pressure: Pair, dye: Pair, cfg: Config, t: real): seq<Command> {
    var advected := velocity.Swapped();
    [ Draw(GradientSubtract, [pressure.read, velocity.read], Into(velocity.write)),
      Draw(AdvectVelocity(t, cfg.velocityDissipation), [advected.read], Into(advected.write)),
      Draw(AdvectDye(t), [velocity.read, dye.read], Into(dye.write)) ]
  }

  /** `step` scales its dt by SIM_SPEED. */
  function ScaledDt(dt: real, cfg: Config): real {
    dt * cfg.simSpeed
  }

  /** The strength `step` passes to `applyVortexForce`. */
  function VortexStrength(cfg: Config, t: real): real {
    cfg.vortexStrength * t * 300.0
  }

  /**
   * The passes of one `step(dt)`, given the roles at its start and the
   * handle its temporary framebuffer gets; dt is first scaled by SIM_SPEED.
   */
  function StepCommands(r: Roles, temp: Handle, width: int, height: int, cfg: Config, dt: real): seq<Command> {
    var t := ScaledDt(dt, cfg);
    CurlCommands(r.velocity, r.curl, cfg, t)
    + VortexForceCommands(r.velocity.Swapped(), temp, width, height, VortexStrength(cfg, t))
    + DivergenceCommands(r.velocity, r.pressure, r.divergence, cfg)
    + JacobiCommands(r.pressure.Swapped(), r.divergence, cfg.pressureIterations)
    + AdvectionCommands(r.velocity, Swaps(r.pressure, 1 + cfg.pressureIterations), r.dye, cfg, t)
    + BlurCommands(r.dye.write, r.dye.read, 1)
  }

  /** The traces of the five phases of `step`, one after the other, make up StepCommands. */
  lemma StepPhases(r: Roles, temp: Handle, width: int, height: int, cfg: Config, dt: real,
                   t0: seq<Command>, t1: seq<Command>, t2: seq<Command>, t3: seq<Command>, t4: seq<Command>, t5: seq<Command>)
    requires t1 == t0 + CurlCommands(r.velocity, r.curl, cfg, ScaledDt(dt, cfg))
    requires t2 == t1 + VortexForceCommands(r.velocity.Swapped(), temp, width, height, VortexStrength(cfg, ScaledDt(dt, cfg)))
    requires t3 == t2 + DivergenceCommands(r.velocity, r.pressure, r.divergence, cfg)
                      + JacobiCommands(r.pressure.Swapped(), r.divergence, cfg.pressureIterations)
    requires t4 == t3 + AdvectionCommands(r.velocity, Swaps(r.pressure, 1 + cfg.pressureIterations), r.dye, cfg, ScaledDt(dt, cfg))
    requires t5 == t4 + BlurCommands(r.dye.write, r.dye.read, 1)
    ensures t5 == t0 + StepCommands(r, temp, width, height, cfg, dt)
  {
  }

  /**
   * The roles after one `step`: velocity swapped four times (back where it
   * was), pressure 1 + PRESSURE_ITERATIONS times, dye once; blur swaps nothing.
   */
  function StepRoles(r: Roles, cfg: Config): Roles {
    r.(velocity := Swaps(r.velocity, 4),
       pressure := Swaps(r.pressure, 1 + cfg.pressureIterations),
       dye := Swaps(r.dye, 1))
  }

  /** Step leaves velocity's roles as they were and exchanges dye's; pressure's are exchanged iff PRESSURE_ITERATIONS is even. */
  lemma StepRolesParity(r: Roles, cfg: Config)
    requires Distinct(r)
    ensures StepRoles(r, cfg).velocity == r.velocity
    ensures StepRoles(r, cfg).dye == r.dye.Swapped() != r.dye
    ensures StepRoles(r, cfg).pressure == r.pressure <==> cfg.pressureIterations % 2 == 1
    ensures Distinct(StepRoles(r, cfg))
  {
  }

  lemma FeedbackFreeAppend(a: seq<Command>, b: seq<Command>)
    requires AllFeedbackFree(a) && AllFeedbackFree(b)
    ensures AllFeedbackFree(a + b)
  {
  }

  /** No pass of a step samples the framebuffer it renders into. */
  lemma StepFeedbackFree(r: Roles, temp: Handle, width: int, height: int, cfg: Config, dt: real)
    requires Distinct(r) && Unused(r, temp)
    ensures AllFeedbackFree(StepCommands(r, temp, width, height, cfg, dt))
  {
    var t := ScaledDt(dt, cfg);
    var a := CurlCommands(r.velocity, r.curl, cfg, t);
    var b := VortexForceCommands(r.velocity.Swapped(), temp, width, height, VortexStrength(cfg, t));
    var c := DivergenceCommands(r.velocity, r.pressure, r.divergence, cfg);
    var d := JacobiCommands(r.pressure.Swapped(), r.divergence, cfg.pressureIterations);
    var e := AdvectionCommands(r.velocity, Swaps(r.pressure, 1 + cfg.pressureIterations), r.dye, cfg, t);
    var f := BlurCommands(r.dye.write, r.dye.read, 1);
    JacobiFeedbackFree(r.pressure.Swapped(), r.divergence, cfg.pressureIterations);
    BlurShape(r.dye.write, r.dye.read, 1);
    FeedbackFreeAppend(a, b);
    FeedbackFreeAppend(a + b, c);
    FeedbackFreeAppend(a + b + c, d);
    FeedbackFreeAppend(a + b + c + d, e);
    FeedbackFreeAppend(a + b + c + d + e, f);
  }

  /** A step renders 11 + PRESSURE_ITERATIONS times among 13 + PRESSURE_ITERATIONS commands. */
  lemma StepDrawCount(r: Roles, temp: Handle, width: int, height: int, cfg: Config, dt: real)
    ensures DrawCount(StepCommands(r, temp, width, height, cfg, dt)) == 11 + cfg.pressureIterations
    ensures |StepCommands(r, temp, width, height, cfg, dt)| == 13 + cfg.pressureIterations
  {
    var t := ScaledDt(dt, cfg);
    var a := CurlCommands(r.velocity, r.curl, cfg, t);
    var b := VortexForceCommands(r.velocity.Swapped(), temp, width, height, VortexStrength(cfg, t));
    var c := DivergenceCommands(r.velocity, r.pressure, r.divergence, cfg);
    var d := JacobiCommands(r.pressure.Swapped(), r.divergence, cfg.pressureIterations);
    var e := AdvectionCommands(r.velocity, Swaps(r.pressure, 1 + cfg.pressureIterations), r.dye, cfg, t);
    var f := BlurCommands(r.dye.write, r.dye.read, 1);
    JacobiCount(r.pressure.Swapped(), r.divergence, cfg.pressureIterations);
    JacobiShape(r.pressure.Swapped(), r.divergence, cfg.pressureIterations);
    BlurCount(r.dye.write, r.dye.read, 1);
    FixedPhaseCounts(r, temp, width, height, cfg, t);
    DrawCountSix(a, b, c, d, e, f);
    assert StepCommands(r, temp, width, height, cfg, dt) == a + b + c + d + e + f;
  }

  /** The passes of curl, vorticity, divergence and advection: two, two, two and three draws. */
  lemma FixedPhaseCounts(r: Roles, temp: Handle, width: int, height: int, cfg: Config, t: real)
    ensures DrawCount(CurlCommands(r.velocity, r.curl, cfg, t)) == 2
    ensures DrawCount(VortexForceCommands(r.velocity.Swapped(), temp, width, height, VortexStrength(cfg, t))) == 2
    ensures DrawCount(DivergenceCommands(r.velocity, r.pressure, r.divergence, cfg)) == 2
    ensures DrawCount(AdvectionCommands(r.velocity, Swaps(r.pressure, 1 + cfg.pressureIterations), r.dye, cfg, t)) == 3
  {
    var a := CurlCommands(r.velocity, r.curl, cfg, t);
    var b := VortexForceCommands(r.velocity.Swapped(), temp, width, height, VortexStrength(cfg, t));
    var c := DivergenceCommands(r.velocity, r.pressure, r.divergence, cfg);
    var e := AdvectionCommands(r.velocity, Swaps(r.pressure, 1 + cfg.pressureIterations), r.dye, cfg, t);
    assert a[1..][1..] == [];
    assert b[3..][1..] == [];
    assert b[2..][1..] == b[3..];
    assert b[1..][1..] == b[2..];
    assert DrawCount(b[2..]) == 1;
    assert c[1..][1..] == [];
    assert e[2..][1..] == [];
    assert e[1..][1..] == e[2..];
    assert DrawCount(e[1..]) == 2;
  }

  /** DrawCount adds up over six runs of commands. */
  lemma DrawCountSix(a: seq<Command>, b: seq<Command>, c: seq<Command>, d: seq<Command>, e: seq<Command>, f: seq<Command>)
    ensures DrawCount(a + b + c + d + e + f) == DrawCount(a) + DrawCount(b) + DrawCount(c) + DrawCount(d) + DrawCount(e) + DrawCount(f)
  {
    DrawCountAppend(a, b);
    DrawCountAppend(a + b, c);
    DrawCountAppend(a + b + c, d);
    DrawCountAppend(a + b + c + d, e);
    DrawCountAppend(a + b + c + d + e, f);
  }

  /** The arguments of one `splat(x, y, dx, dy, color)`. */
  datatype Splat = Splat(x: real, y: real, dx: real, dy: real, color: Rgb)

  /** `splat`: one pass into velocity.write and one into dye.write, each followed by a swap. */
  function SplatCommands(r: Roles, s: Splat, cfg: Config, canvasWidth: int, canvasHeight: int): seq<Command>
    requires canvasHeight > 0
  {
    var aspectRatio := canvasWidth as real / canvasHeight as real;
    var radius := CorrectRadius(cfg.splatRadius / 100.0, canvasWidth, canvasHeight);
    [ Draw(SplatVelocity(aspectRatio, s.x, s.y, s.dx, s.dy, radius), [r.velocity.read], Into(r.velocity.write)),
      Draw(SplatDye(aspectRatio, s.x, s.y, radius, s.color), [r.dye.read], Into(r.dye.write)) ]
  }

  /** The roles after `n` splats: velocity and dye each swapped n times. */
  function AfterSplats(r: Roles, n: nat): Roles {
    r.(velocity := Swaps(r.velocity, n), dye := Swaps(r.dye, n))
  }

  /** A sequence of splats in order, each starting from the roles the previous ones left. */
  function SplatsCommands(r: Roles, ss: seq<Splat>, cfg: Config, canvasWidth: int, canvasHeight: int): seq<Command>
    requires canvasHeight > 0
  {
    if ss == [] then []
    else SplatsCommands(r, ss[..|ss| - 1], cfg, canvasWidth, canvasHeight)
         + SplatCommands(AfterSplats(r, |ss| - 1), ss[|ss| - 1], cfg, canvasWidth, canvasHeight)
  }

  /** Roles after a and then b swaps are those after a + b. */
  lemma AfterSplatsAdd(r: Roles, a: nat, b: nat)
    ensures AfterSplats(AfterSplats(r, a), b) == AfterSplats(r, a + b)
  {
  }

  lemma AfterSplatsSum(r: Roles, a: nat, b: nat, n: nat)
    requires n == a + b
    ensures AfterSplats(AfterSplats(r, a), b) == AfterSplats(r, n)
  {
    AfterSplatsAdd(r, a, b);
  }

  lemma SplatsSnoc(r: Roles, ss: seq<Splat>, s: Splat, cfg: Config, canvasWidth: int, canvasHeight: int)
    requires canvasHeight > 0
    ensures SplatsCommands(r, ss + [s], cfg, canvasWidth, canvasHeight)
         == SplatsCommands(r, ss, cfg, canvasWidth, canvasHeight) + SplatCommands(AfterSplats(r, |ss|), s, cfg, canvasWidth, canvasHeight)
  {
    assert (ss + [s])[..|ss|] == ss;
  }

  /** Two runs of splats one after the other: the second starts from the roles the first leaves. */
  lemma {:induction false} SplatsAppend(r: Roles, a: seq<Splat>, b: seq<Splat>, cfg: Config, canvasWidth: int, canvasHeight: int)
    requires canvasHeight > 0
    ensures SplatsCommands(r, a + b, cfg, canvasWidth, canvasHeight)
         == SplatsCommands(r, a, cfg, canvasWidth, canvasHeight) + SplatsCommands(AfterSplats(r, |a|), b, cfg, canvasWidth, canvasHeight)
  {
    if b == [] {
      assert a + b == a;
    } else {
      var init, last := b[..|b| - 1], b[|b| - 1];
      assert a + b == (a + init) + [last];
      assert b == init + [last];
      SplatsAppend(r, a, init, cfg, canvasWidth, canvasHeight);
      SplatsSnoc(r, a + init, last, cfg, canvasWidth, canvasHeight);
      SplatsSnoc(AfterSplats(r, |a|), init, last, cfg, canvasWidth, canvasHeight);
      AfterSplatsAdd(r, |a|, |init|);
    }
  }

  /**
   * Splats render exactly twice each, never into a buffer they sample, and
   * leave velocity and dye swapped once per splat.
   */
  lemma {:induction false} SplatsShape(r: Roles, ss: seq<Splat>, cfg: Config, canvasWidth: int, canvasHeight: int)
    requires canvasHeight > 0 && Distinct(r)
    ensures |SplatsCommands(r, ss, cfg, canvasWidth, canvasHeight)| == 2 * |ss|
    ensures DrawCount(SplatsCommands(r, ss, cfg, canvasWidth, canvasHeight)) == 2 * |ss|
    ensures AllFeedbackFree(SplatsCommands(r, ss, cfg, canvasWidth, canvasHeight))
  {
    if ss != [] {
      var init := ss[..|ss| - 1];
      SplatsShape(r, init, cfg, canvasWidth, canvasHeight);
      var one := SplatCommands(AfterSplats(r, |init|), ss[|ss| - 1], cfg, canvasWidth, canvasHeight);
      DrawCountAppend(SplatsCommands(r, init, cfg, canvasWidth, canvasHeight), one);
    }
  }

  /** Splats only swap pairs, so the eight framebuffers stay distinct. */
  lemma SplatsKeepDistinct(r: Roles, n: nat)
    requires Distinct(r)
    ensures Distinct(AfterSplats(r, n))
  {
  }

  /** Whether `resizeDoubleFBO` from a width x height pair to w x h does anything. */
  predicate SameSize(width: int, height: int, w: int, h: int) {
    width == w && height == h
  }

  /**
   * The passes of `resizeDoubleFBO`: none for an unchanged size; otherwise
   * a new framebuffer (handle `next`) receives a copy of the old read and a
   * second new one (`next + 1`) is created cleared.
   */
  function ResizeCommands(p: Pair, width: int, height: int, w: int, h: int, next: Handle): seq<Command> {
    if SameSize(width, height, w, h) then []
    else [Create(next, w, h), Draw(Copy, [p.read], Into(next)), Create(next + 1, w, h)]
  }

  /** The pair `resizeDoubleFBO` leaves: the old one, or the two new framebuffers. */
  function Resized(p: Pair, width: int, height: int, w: int, h: int, next: Handle): Pair {
    if SameSize(width, height, w, h) then p else Pair(next, next + 1)
  }

  /** How many framebuffers `resizeDoubleFBO` allocates. */
  function ResizeAllocations(width: int, height: int, w: int, h: int): nat {
    if SameSize(width, height, w, h) then 0 else 2
  }

  /**
   * A repeated `initFramebuffers`: dye and velocity are resized to their
   * new resolutions (dye first), the handles from `next` on are handed out
   * in order, divergence, curl and both pressure buffers are freshly created,
   * and dye.read is painted white.
   */
  function ReinitCommands(r: Roles, dyeWidth: int, dyeHeight: int, dyeRes: Resolution,
                          velocityWidth: int, velocityHeight: int, simRes: Resolution, next: Handle): seq<Command> {
    var n1 := next + ResizeAllocations(dyeWidth, dyeHeight, dyeRes.width, dyeRes.height);
    var n2 := n1 + ResizeAllocations(velocityWidth, velocityHeight, simRes.width, simRes.height);
    var dye := Resized(r.dye, dyeWidth, dyeHeight, dyeRes.width, dyeRes.height, next);
    ResizeCommands(r.dye, dyeWidth, dyeHeight, dyeRes.width, dyeRes.height, next)
    + ResizeCommands(r.velocity, velocityWidth, velocityHeight, simRes.width, simRes.height, n1)
    + [ Create(n2, simRes.width, simRes.height), Create(n2 + 1, simRes.width, simRes.height),
        Create(n2 + 2, simRes.width, simRes.height), Create(n2 + 3, simRes.width, simRes.height),
        Draw(Fill(White), [], Into(dye.read)) ]
  }

  /** The roles after a repeated `initFramebuffers`. */
  function ReinitRoles(r: Roles, dyeWidth: int, dyeHeight: int, dyeRes: Resolution,
                       velocityWidth: int, velocityHeight: int, simRes: Resolution, next: Handle): Roles {
    var n1 := next + ResizeAllocations(dyeWidth, dyeHeight, dyeRes.width, dyeRes.height);
    var n2 := n1 + ResizeAllocations(velocityWidth, velocityHeight, simRes.width, simRes.height);
    Roles(Resized(r.velocity, velocityWidth, velocityHeight, simRes.width, simRes.height, n1),
          Pair(n2 + 2, n2 + 3),
          Resized(r.dye, dyeWidth, dyeHeight, dyeRes.width, dyeRes.height, next),
          n2, n2 + 1)
  }

  /** The first free handle after a repeated `initFramebuffers`: the resizes' allocations and four new framebuffers. */
  function ReinitNext(dyeWidth: int, dyeHeight: int, dyeRes: Resolution,
                      velocityWidth: int, velocityHeight: int, simRes: Resolution, next: Handle): Handle {
    next + ResizeAllocations(dyeWidth, dyeHeight, dyeRes.width, dyeRes.height)
         + ResizeAllocations(velocityWidth, velocityHeight, simRes.width, simRes.height) + 4
  }

  /**
   * The two parts of a repeated `initFramebuffers` (resizing dye and
   * velocity, then replacing the projection buffers and painting dye.read),
   * one after the other, make up ReinitCommands and ReinitRoles.
   */
  lemma ReinitSteps(r: Roles, dyeWidth: int, dyeHeight: int, dyeRes: Resolution,
                    velocityWidth: int, velocityHeight: int, simRes: Resolution, next: Handle,
                    t0: seq<Command>, t1: seq<Command>, t2: seq<Command>, q1: Roles, q2: Roles)
    requires t1 == t0 + ResizeCommands(r.dye, dyeWidth, dyeHeight, dyeRes.width, dyeRes.height, next)
                      + ResizeCommands(r.velocity, velocityWidth, velocityHeight, simRes.width, simRes.height,
                                       next + ResizeAllocations(dyeWidth, dyeHeight, dyeRes.width, dyeRes.height))
    requires q1 == r.(dye := Resized(r.dye, dyeWidth, dyeHeight, dyeRes.width, dyeRes.height, next),
                      velocity := Resized(r.velocity, velocityWidth, velocityHeight, simRes.width, simRes.height,
                                          next + ResizeAllocations(dyeWidth, dyeHeight, dyeRes.width, dyeRes.height)))
    requires var n2 := next + ResizeAllocations(dyeWidth, dyeHeight, dyeRes.width, dyeRes.height)
                            + ResizeAllocations(velocityWidth, velocityHeight, simRes.width, simRes.height);
             && t2 == t1 + [Create(n2, simRes.width, simRes.height), Create(n2 + 1, simRes.width, simRes.height),
                            Create(n2 + 2, simRes.width, simRes.height), Create(n2 + 3, simRes.width, simRes.height),
                            Draw(Fill(White), [], Into(q1.dye.read))]
             && q2 == q1.(pressure := Pair(n2 + 2, n2 + 3), divergence := n2, curl := n2 + 1)
    ensures t2 == t0 + ReinitCommands(r, dyeWidth, dyeHeight, dyeRes, velocityWidth, velocityHeight, simRes, next)
    ensures q2 == ReinitRoles(r, dyeWidth, dyeHeight, dyeRes, velocityWidth, velocityHeight, simRes, next)
  {
  }

  /** Every handle of the roles is below `next`. */
  predicate Below(r: Roles, next: Handle) {
    && r.velocity.read < next && r.velocity.write < next
    && r.pressure.read < next && r.pressure.write < next
    && r.dye.read < next && r.dye.write < next
    && r.divergence < next && r.curl < next
  }

  /**
   * Re-initialising keeps all eight framebuffers distinct, and divergence,
   * curl and pressure never reuse a framebuffer that existed before.
   */
  lemma ReinitDistinct(r: Roles, dyeWidth: int, dyeHeight: int, dyeRes: Resolution,
                       velocityWidth: int, velocityHeight: int, simRes: Resolution, next: Handle)
    requires Distinct(r) && Below(r, next)
    ensures var q := ReinitRoles(r, dyeWidth, dyeHeight, dyeRes, velocityWidth, velocityHeight, simRes, next);
            && Distinct(q)
            && q.divergence >= next && q.curl >= next && q.pressure.read >= next && q.pressure.write >= next
            && (SameSize(velocityWidth, velocityHeight, simRes.width, simRes.height) <==> q.velocity == r.velocity)
  {
  }

  /** `clearScreen`: dye.write is filled white, then dye swaps. */
  function ClearCommands(r: Roles): seq<Command> {
    [Draw(Fill(White), [], Into(r.dye.write))]
  }

  /** `render(null)`: the dye read buffer is displayed on the canvas. */
  function RenderCommands(r: Roles): seq<Command> {
    [Draw(Display, [r.dye.read], Screen)]
  }

  /** Two `clearScreen` calls in a row leave both dye buffers white, where one leaves the read buffer white. */
  lemma ClearTwice(r: Roles, m: map<Handle, Texture>)
    requires r.dye.read in m && r.dye.write in m && r.dye.read != r.dye.write
    ensures var once := Apply(m, ClearCommands(r)[0]);
            var twice := Apply(once, ClearCommands(r.(dye := r.dye.Swapped()))[0]);
            && once[r.dye.write].content == Drawn(Fill(White), [])
            && twice[r.dye.write].content == Drawn(Fill(White), [])
            && twice[r.dye.read].content == Drawn(Fill(White), [])
  {
    assert Lookup(m, []) == [];
  }
}
