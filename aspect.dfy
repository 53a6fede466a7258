/**
 * Aspect-ratio rules of the fluid simulation: `correctRadius`,
 * `correctDeltaX`, `correctDeltaY` and `getResolution`. The sizes are passed
 * in: the canvas size for the corrections, and for `getResolution` the
 * drawing-buffer size, which the simulation takes to equal the canvas size.
 */
module Aspect {
  import opened JsNumbers

  /** correctRadius: the splat radius is widened by the aspect ratio when the canvas is wider than tall. */
  function CorrectRadius(radius: real, canvasWidth: int, canvasHeight: int): (r: real)
    requires canvasHeight > 0
    ensures canvasWidth <= canvasHeight ==> r == radius
    ensures canvasWidth > canvasHeight ==> r * canvasHeight as real == radius * canvasWidth as real
    ensures radius >= 0.0 ==> r >= radius
  {
    var aspectRatio := canvasWidth as real / canvasHeight as real;
    if aspectRatio > 1.0 then radius * aspectRatio else radius
  }

  /** correctDeltaX: a horizontal delta is shrunk by the aspect ratio on a canvas taller than wide. */
  function CorrectDeltaX(delta: real, canvasWidth: int, canvasHeight: int): (r: real)
    requires canvasHeight > 0
    ensures canvasWidth >= canvasHeight ==> r == delta
    ensures canvasWidth < canvasHeight ==> r * canvasHeight as real == delta * canvasWidth as real
  {
    var aspectRatio := canvasWidth as real / canvasHeight as real;
    RatioVersusOne(canvasWidth, canvasHeight);
    if aspectRatio < 1.0 then delta * aspectRatio else delta
  }

  /** correctDeltaY: a vertical delta is shrunk by the aspect ratio on a canvas wider than tall. */
  function CorrectDeltaY(delta: real, canvasWidth: int, canvasHeight: int): (r: real)
    requires canvasHeight > 0
    ensures canvasWidth <= canvasHeight ==> r == delta
    ensures canvasWidth > canvasHeight ==> r * canvasWidth as real == delta * canvasHeight as real
  {
    var aspectRatio := canvasWidth as real / canvasHeight as real;
    if aspectRatio > 1.0 then delta / aspectRatio else delta
  }

  lemma RatioVersusOne(w: int, h: int)
    requires h > 0
    ensures (w as real / h as real < 1.0) <==> w < h
    ensures (w as real / h as real > 1.0) <==> w > h
  {
    var a := w as real / h as real;
    assert a * h as real == w as real;
    assert (a - 1.0) * h as real == w as real - h as real;
  }

  function Abs(x: real): real { if x < 0.0 then -x else x }

  /**
   * The corrections never amplify a delta and, on a canvas of positive width,
   * keep a delta zero exactly when it was zero: a pointer counts as moved iff
   * its raw position changed.
   */
  lemma CorrectedDeltasShrink(dx: real, dy: real, canvasWidth: int, canvasHeight: int)
    requires canvasWidth > 0 && canvasHeight > 0
    ensures Abs(CorrectDeltaX(dx, canvasWidth, canvasHeight)) <= Abs(dx)
    ensures Abs(CorrectDeltaY(dy, canvasWidth, canvasHeight)) <= Abs(dy)
    ensures CorrectDeltaX(dx, canvasWidth, canvasHeight) == 0.0 <==> dx == 0.0
    ensures CorrectDeltaY(dy, canvasWidth, canvasHeight) == 0.0 <==> dy == 0.0
  {
    var a := canvasWidth as real / canvasHeight as real;
    RatioPositive(canvasWidth, canvasHeight);
    RatioVersusOne(canvasWidth, canvasHeight);
    if a < 1.0 {
      ShrinkByFactor(dx, a);
    }
    if a > 1.0 {
      ShrinkByDivisor(dy, a);
    }
  }

  lemma RatioPositive(w: int, h: int)
    requires w > 0 && h > 0
    ensures w as real / h as real > 0.0
  {
  }

  /** A factor strictly between zero and one shrinks a number and keeps it zero exactly when it was. */
  lemma ShrinkByFactor(x: real, a: real)
    requires 0.0 < a < 1.0
    ensures Abs(x * a) <= Abs(x)
    ensures x * a == 0.0 <==> x == 0.0
  {
    ProductSign(x, a);
    ProductSign(x, 1.0 - a);
    assert x - x * a == x * (1.0 - a);
  }

  /** A positive factor keeps the sign of a number. */
  lemma ProductSign(x: real, b: real)
    requires b > 0.0
    ensures x > 0.0 ==> x * b > 0.0
    ensures x < 0.0 ==> x * b < 0.0
    ensures x == 0.0 ==> x * b == 0.0
  {
  }

  /** A divisor above one shrinks a number and keeps it zero exactly when it was. */
  lemma ShrinkByDivisor(x: real, a: real)
    requires a > 1.0
    ensures Abs(x / a) <= Abs(x)
    ensures x / a == 0.0 <==> x == 0.0
  {
    var q := x / a;
    assert q * a == x;
    ShrinkByFactor(x, 1.0 / a);
    assert x * (1.0 / a) == q;
  }

  datatype Resolution = Resolution(width: int, height: int)

  /**
   * getResolution: the shorter side gets Math.round(resolution), the longer
   * side Math.round(resolution * aspect) where aspect >= 1; the longer side
   * goes along the wider axis of the drawing buffer (height on a tie).
   */
  function GetResolution(resolution: real, bufferWidth: int, bufferHeight: int): (res: Resolution)
    requires bufferWidth > 0 && bufferHeight > 0
    ensures bufferWidth > bufferHeight ==>
      res.height == Round(resolution) && res.width == Round(resolution * (bufferWidth as real / bufferHeight as real))
    ensures bufferWidth <= bufferHeight ==>
      res.width == Round(resolution) && res.height == Round(resolution * (bufferHeight as real / bufferWidth as real))
  {
    var ratio := bufferWidth as real / bufferHeight as real;
    var aspectRatio := if ratio < 1.0 then 1.0 / ratio else ratio;
    RatioVersusOne(bufferWidth, bufferHeight);
    ReciprocalRatio(bufferWidth, bufferHeight);
    var min := Round(resolution);
    var max := Round(resolution * aspectRatio);
    if bufferWidth > bufferHeight then Resolution(max, min) else Resolution(min, max)
  }

  /** The reciprocal of w/h is h/w, and w/h is one for a square. */
  lemma ReciprocalRatio(w: int, h: int)
    requires w > 0 && h > 0
    ensures 1.0 / (w as real / h as real) == h as real / w as real
    ensures w == h ==> w as real / h as real == 1.0
  {
    var r := w as real / h as real;
    assert r * h as real == w as real;
    assert (h as real / w as real) * r == 1.0 by {
      assert (h as real / w as real) * w as real == h as real;
    }
  }

  /** Scaling a non-negative resolution by a ratio of at least one does not shrink it. */
  lemma ScaleAtLeast(resolution: real, longer: int, shorter: int)
    requires longer >= shorter > 0 && resolution >= 0.0
    ensures resolution * (longer as real / shorter as real) >= resolution
  {
    assert longer as real / shorter as real >= 1.0;
  }

  /** For a non-negative resolution the wider axis of the buffer gets the larger number of cells. */
  lemma GetResolutionOrientation(resolution: real, bufferWidth: int, bufferHeight: int)
    requires bufferWidth > 0 && bufferHeight > 0 && resolution >= 0.0
    ensures var res := GetResolution(resolution, bufferWidth, bufferHeight);
      (bufferWidth > bufferHeight ==> res.width >= res.height) &&
      (bufferWidth < bufferHeight ==> res.height >= res.width) &&
      (bufferWidth == bufferHeight ==> res.width == res.height == Round(resolution))
  {
    if bufferWidth > bufferHeight {
      ScaleAtLeast(resolution, bufferWidth, bufferHeight);
      RoundMonotone(resolution, resolution * (bufferWidth as real / bufferHeight as real));
    } else if bufferWidth < bufferHeight {
      ScaleAtLeast(resolution, bufferHeight, bufferWidth);
      RoundMonotone(resolution, resolution * (bufferHeight as real / bufferWidth as real));
    } else {
      assert bufferHeight as real / bufferWidth as real == 1.0;
    }
  }

  /** Turning the canvas from landscape to portrait (or back) swaps the two grid dimensions. */
  lemma GetResolutionTranspose(resolution: real, bufferWidth: int, bufferHeight: int)
    requires bufferWidth > 0 && bufferHeight > 0 && bufferWidth != bufferHeight
    ensures GetResolution(resolution, bufferHeight, bufferWidth)
         == var res := GetResolution(resolution, bufferWidth, bufferHeight); Resolution(res.height, res.width)
  {
  }
}
