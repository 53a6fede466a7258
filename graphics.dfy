/**
 * The WebGL context as the fluid simulation drives it. Shader arithmetic is
 * not modelled: a texture's content is the symbolic term of the kernel that
 * drew it applied to the textures it sampled. Every operation appends its
 * command to the history and changes the texture store exactly as `Apply`
 * says, so the schedule of passes is all that the JavaScript decides.
 */
module Graphics {
  import opened Colors

  /** A framebuffer/texture pair, identified by allocation order. */
  type Handle = nat

  /** The shader programs the simulation binds, with the uniforms it sets that do not depend on texture sizes. */
  datatype Kernel =
    | Copy
    | Fill(color: Rgb)
    | ClearPressure(value: real)
    | CurlOf
    | Vorticity(curl: real, dt: real)
    | Vortex(strength: real)
    | VortexCombine(blend: real)
    | Divergence
    | Jacobi
    | GradientSubtract
    | AdvectVelocity(dt: real, dissipation: real)
    | AdvectDye(dt: real)
    | BlurHorizontal
    | BlurVertical
    | SplatVelocity(aspectRatio: real, x: real, y: real, dx: real, dy: real, radius: real)
    | SplatDye(aspectRatio: real, x: real, y: real, radius: real, color: Rgb)
    | Display

  /** `blit(null)` draws to the canvas, `blit(fbo)` into one framebuffer. */
  datatype Target = Screen | Into(handle: Handle)

  datatype Command =
    | Create(handle: Handle, width: int, height: int)
    | Draw(kernel: Kernel, inputs: seq<Handle>, target: Target)
    | Delete(handle: Handle)

  /** What a texture holds: the clear colour, or a kernel applied to the textures it sampled. */
  datatype Content = Blank | Drawn(kernel: Kernel, sampled: seq<Texture>)
  datatype Texture = Texture(width: int, height: int, content: Content)

  predicate Live(m: map<Handle, Texture>, hs: seq<Handle>) {
    forall h | h in hs :: h in m
  }

  function Lookup(m: map<Handle, Texture>, hs: seq<Handle>): (ts: seq<Texture>)
    requires Live(m, hs)
    ensures |ts| == |hs| && forall i | 0 <= i < |hs| :: ts[i] == m[hs[i]]
  {
    if hs == [] then [] else [m[hs[0]]] + Lookup(m, hs[1..])
  }

  /** The effect of one command on the texture store. */
  function Apply(m: map<Handle, Texture>, c: Command): map<Handle, Texture> {
    match c
    case Create(h, w, ht) => m[h := Texture(w, ht, Blank)]
    case Draw(k, ins, Screen) => m
    case Draw(k, ins, Into(h)) =>
      if h in m && Live(m, ins) then m[h := Texture(m[h].width, m[h].height, Drawn(k, Lookup(m, ins)))] else m
    case Delete(h) => m - {h}
  }

  /** A pass that does not sample the framebuffer it renders into (no WebGL feedback loop). */
  predicate FeedbackFree(c: Command) {
    c.Draw? && c.target.Into? ==> c.target.handle !in c.inputs
  }

  predicate AllFeedbackFree(cs: seq<Command>) {
    forall c | c in cs :: FeedbackFree(c)
  }

  /** Which framebuffer of a double FBO is sampled and which is rendered into. */
  datatype Pair = Pair(read: Handle, write: Handle) {
    function Swapped(): Pair { Pair(write, read) }
  }

  /** The object `createFBO` returns; `attach` is implied by listing the handle among a pass's inputs. */
  datatype Fbo = Fbo(handle: Handle, width: int, height: int, texelSizeX: real, texelSizeY: real)

  class Gpu {
    var contents: map<Handle, Texture>
    var next: Handle
    var trace: seq<Command>

    /** Every live framebuffer was allocated: its handle is below the next one to be handed out. */
    ghost predicate Valid()
      reads this
    {
      forall h | h in contents :: h < next
    }

    constructor ()
      ensures Valid() && trace == [] && next == 0 && contents == map[]
    {
      contents := map[];
      next := 0;
      trace := [];
    }

    /** createFBO: a fresh framebuffer of the given size, cleared, with texel size 1/w by 1/h. */
    method CreateFbo(w: int, h: int) returns (f: Fbo)
      requires Valid() && w > 0 && h > 0
      modifies this
      ensures Valid()
      ensures f == Fbo(old(next), w, h, 1.0 / w as real, 1.0 / h as real)
      ensures next == old(next) + 1
      ensures trace == old(trace) + [Create(f.handle, w, h)]
      ensures contents == Apply(old(contents), Create(f.handle, w, h))
    {
      f := Fbo(next, w, h, 1.0 / w as real, 1.0 / h as real);
      trace := trace + [Create(next, w, h)];
      contents := contents[next := Texture(w, h, Blank)];
      next := next + 1;
    }

    /** blit(target) with a bound program whose samplers are attached to `inputs`. */
    method Draw(k: Kernel, inputs: seq<Handle>, target: Handle)
      requires Valid() && target in contents && Live(contents, inputs)
      modifies this
      ensures Valid() && next == old(next)
      ensures trace == old(trace) + [Command.Draw(k, inputs, Into(target))]
      ensures contents == Apply(old(contents), Command.Draw(k, inputs, Into(target)))
    {
      trace := trace + [Command.Draw(k, inputs, Into(target))];
      contents := contents[target := Texture(contents[target].width, contents[target].height, Drawn(k, Lookup(contents, inputs)))];
    }

    /** blit(null): a pass drawn to the canvas; no framebuffer changes. */
    method DrawToScreen(k: Kernel, inputs: seq<Handle>)
      requires Valid() && Live(contents, inputs)
      modifies this
      ensures Valid() && next == old(next) && contents == Apply(old(contents), Command.Draw(k, inputs, Screen))
      ensures trace == old(trace) + [Command.Draw(k, inputs, Screen)]
    {
      trace := trace + [Command.Draw(k, inputs, Screen)];
    }

    /** deleteFramebuffer / deleteTexture. */
    method DeleteFbo(h: Handle)
      requires Valid()
      modifies this
      ensures Valid() && next == old(next)
      ensures trace == old(trace) + [Delete(h)]
      ensures contents == Apply(old(contents), Delete(h))
    {
      trace := trace + [Delete(h)];
      contents := contents - {h};
    }
  }

  /**
   * The object `createDoubleFBO` returns: two framebuffers of one size, one
   * read and one written, which `swap` exchanges. `swaps` counts the calls
   * to `swap`.
   */
  class DoubleFbo {
    var read: Fbo
    var write: Fbo
    var width: int
    var height: int
    var texelSizeX: real
    var texelSizeY: real
    ghost var swaps: nat

    /** Two distinct live framebuffers, both of the pair's size. */
    ghost predicate Valid(gpu: Gpu)
      reads this, gpu
    {
      && read.handle != write.handle
      && read.handle in gpu.contents && write.handle in gpu.contents
      && width > 0 && height > 0
      && read.width == write.width == width && read.height == write.height == height
    }

    /** createDoubleFBO: two fresh framebuffers, the first one read and the second one written. */
    constructor (gpu: Gpu, w: int, h: int)
      requires gpu.Valid() && w > 0 && h > 0
      modifies gpu
      ensures Valid(gpu) && gpu.Valid() && swaps == 0
      ensures width == w && height == h && TexelSizesMatch()
      ensures read.handle == old(gpu.next) && write.handle == old(gpu.next) + 1
      ensures gpu.next == old(gpu.next) + 2
      ensures gpu.trace == old(gpu.trace) + [Create(old(gpu.next), w, h), Create(old(gpu.next) + 1, w, h)]
      ensures gpu.contents == old(gpu.contents)[read.handle := Texture(w, h, Blank)][write.handle := Texture(w, h, Blank)]
    {
      var fbo1 := gpu.CreateFbo(w, h);
      var fbo2 := gpu.CreateFbo(w, h);
      read, write := fbo1, fbo2;
      width, height := w, h;
      texelSizeX, texelSizeY := fbo1.texelSizeX, fbo1.texelSizeY;
      swaps := 0;
    }

    /** The texel size is one over the pair's size and agrees with both framebuffers'. */
    predicate TexelSizesMatch()
      reads this
    {
      && width > 0 && height > 0
      && texelSizeX == 1.0 / width as real && texelSizeY == 1.0 / height as real
      && read.texelSizeX == write.texelSizeX == texelSizeX
      && read.texelSizeY == write.texelSizeY == texelSizeY
    }

    /** The handles the pair reads from and writes to. */
    function Roles(): Pair
      reads this
    {
      Pair(read.handle, write.handle)
    }

    /** swap: read and write change places; nothing else changes. */
    method Swap()
      modifies this
      ensures read == old(write) && write == old(read)
      ensures width == old(width) && height == old(height)
      ensures texelSizeX == old(texelSizeX) && texelSizeY == old(texelSizeY)
      ensures TexelSizesMatch() == old(TexelSizesMatch())
      ensures swaps == old(swaps) + 1
    {
      read, write := write, read;
      swaps := swaps + 1;
    }

    /**
     * resizeDoubleFBO: nothing happens when the size is unchanged; otherwise
     * `read` becomes a fresh framebuffer of the new size holding a copy of
     * the old read, `write` a fresh cleared one, and width, height and texel
     * size take the new values. The old pair is not deleted.
     */
    method Resize(gpu: Gpu, w: int, h: int)
      requires gpu.Valid() && Valid(gpu) && w > 0 && h > 0
      modifies this, gpu
      ensures gpu.Valid() && Valid(gpu) && swaps == old(swaps)
      ensures old(width) == w && old(height) == h ==>
                read == old(read) && write == old(write) && gpu.trace == old(gpu.trace) && gpu.next == old(gpu.next)
                && gpu.contents == old(gpu.contents)
                && texelSizeX == old(texelSizeX) && texelSizeY == old(texelSizeY)
      ensures width == w && height == h
      ensures (old(width) != w || old(height) != h) ==>
                && read.handle == old(gpu.next) && write.handle == old(gpu.next) + 1
                && gpu.next == old(gpu.next) + 2
                && gpu.trace == old(gpu.trace) + [
                     Create(old(gpu.next), w, h),
                     Command.Draw(Copy, [old(read.handle)], Into(old(gpu.next))),
                     Create(old(gpu.next) + 1, w, h)]
                && gpu.contents == old(gpu.contents)
                     [read.handle := Texture(w, h, Drawn(Copy, [old(gpu.contents)[old(read.handle)]]))]
                     [write.handle := Texture(w, h, Blank)]
                && TexelSizesMatch()
    {
      if width == w && height == h {
        return;
      }
      ghost var before := gpu.contents;
      var moved := gpu.CreateFbo(w, h);
      assert Lookup(gpu.contents, [read.handle]) == [before[read.handle]];
      gpu.Draw(Copy, [read.handle], moved.handle);
      ghost var copied := gpu.contents;
      assert copied == before[moved.handle := Texture(w, h, Drawn(Copy, [before[read.handle]]))];
      read := moved;
      write := gpu.CreateFbo(w, h);
      width, height := w, h;
      texelSizeX, texelSizeY := 1.0 / w as real, 1.0 / h as real;
    }
  }
}
