/**
 * Screenshot readback of the fluid simulation: `normalizeTexture` turns a
 * bottom-up float RGBA readback into a top-down byte image: output row i is
 * input row height-1-i, and every channel is clamp01(x) * 255 stored into a
 * Uint8Array.
 */
module Capture {
  import opened JsNumbers

  /** Element `offset` of row `row` in a flat array whose rows are `stride` elements long. */
  function At(stride: nat, row: nat, offset: nat): nat {
    row * stride + offset
  }

  /** The byte one channel becomes. */
  function NormalizedByte(x: real): Byte {
    ToUint8(Clamp01(x) * 255.0)
  }

  /** The stored byte is floor(clamp01(x) * 255), a value in [0, 255]. */
  lemma NormalizedByteValue(x: real)
    ensures NormalizedByte(x) == (Clamp01(x) * 255.0).Floor
    ensures 0 <= NormalizedByte(x) <= 255
  {
    ToUint8InRange(Clamp01(x) * 255.0);
  }

  lemma MulAtLeast(a: nat, b: nat)
    requires a >= 1
    ensures a * b >= b
  {
  }

  /** Within rows of one stride, a later row lies wholly after an earlier one. */
  lemma AtOrder(stride: nat, r1: nat, o1: nat, r2: nat, o2: nat)
    requires o1 < stride && o2 < stride && r1 < r2
    ensures At(stride, r1, o1) < At(stride, r2, o2)
  {
    MulAtLeast(r2 - r1, stride);
    assert r2 * stride - r1 * stride == (r2 - r1) * stride;
  }

  /** Every element of a row below `height` lies inside the array. */
  lemma AtBound(stride: nat, height: nat, row: nat, offset: nat)
    requires row < height && offset < stride
    ensures At(stride, row, offset) < height * stride
  {
    MulAtLeast(height - row, stride);
    assert height * stride - row * stride == (height - row) * stride;
  }

  /** Every index of a height x stride array is element (k / stride, k % stride). */
  lemma AtCovers(stride: nat, height: nat, k: nat)
    requires k < height * stride
    ensures stride > 0 && k / stride < height && k == At(stride, k / stride, k % stride)
  {
    ProductPositive(height, stride, k);
    var row := k / stride;
    assert row * stride <= k;
    assert (height - row) * stride == height * stride - row * stride;
    PositiveFactor(height - row, stride);
  }

  lemma ProductPositive(a: nat, b: nat, k: nat)
    requires k < a * b
    ensures b > 0
  {
  }

  /** A positive product with a positive factor has a positive cofactor. */
  lemma PositiveFactor(a: int, b: nat)
    requires b > 0 && a * b > 0
    ensures a > 0
  {
  }

  /** The inner-loop body: four channels stored at `at`, nothing else touched. */
  method StorePixel(result: array<Byte>, at: nat, pixel: seq<real>)
    requires |pixel| == 4 && at + 3 < result.Length
    modifies result
    ensures forall k | at <= k < at + 4 :: result[k] == NormalizedByte(pixel[k - at])
    ensures forall k | 0 <= k < result.Length && (k < at || at + 3 < k) :: result[k] == old(result[k])
  {
    result[at + 0] := ToUint8(Clamp01(pixel[0]) * 255.0);
    result[at + 1] := ToUint8(Clamp01(pixel[1]) * 255.0);
    result[at + 2] := ToUint8(Clamp01(pixel[2]) * 255.0);
    result[at + 3] := ToUint8(Clamp01(pixel[3]) * 255.0);
  }

  /**
   * The first `upto` elements of output row `row` of `result` hold those of
   * input row height-1-row of `texture`, every channel normalised to a byte.
   */
  ghost predicate RowPrefixFlipped(result: seq<Byte>, texture: seq<real>, stride: nat, height: nat, row: nat, upto: nat)
    requires |result| == |texture| == height * stride && row < height && upto <= stride
  {
    forall o: nat | o < upto ::
      AtBound(stride, height, row, o);
      AtBound(stride, height, height - 1 - row, o);
      result[At(stride, row, o)] == NormalizedByte(texture[At(stride, height - 1 - row, o)])
  }

  /** The whole output row `row` is input row height-1-row, normalised. */
  ghost predicate RowFlipped(result: seq<Byte>, texture: seq<real>, stride: nat, height: nat, row: nat)
    requires |result| == |texture| == height * stride && row < height
  {
    RowPrefixFlipped(result[..], texture, stride, height, row, stride)
  }

  /** A flipped row stays flipped when only elements outside it change. */
  lemma RowFlippedKept(a: seq<Byte>, b: seq<Byte>, texture: seq<real>, stride: nat, height: nat, row: nat, lo: nat, hi: nat)
    requires |a| == |b| == |texture| == height * stride && row < height
    requires hi <= At(stride, row, 0)
    requires forall k | 0 <= k < |a| && !(lo <= k < hi) :: a[k] == b[k]
    requires RowFlipped(a, texture, stride, height, row)
    ensures RowFlipped(b, texture, stride, height, row)
  {
  }

  lemma RowStartMonotone(stride: nat, r1: nat, r2: nat)
    requires r1 <= r2
    ensures At(stride, r1, 0) <= At(stride, r2, 0)
  {
    if r1 < r2 {
      MulAtLeast(r2 - r1, stride);
      assert r2 * stride - r1 * stride == (r2 - r1) * stride;
    }
  }

  /** Storing the next pixel of a row extends the flipped prefix of that row by four channels. */
  lemma PixelStored(a: seq<Byte>, b: seq<Byte>, texture: seq<real>, stride: nat, height: nat, row: nat, upto: nat)
    requires |a| == |b| == |texture| == height * stride && row < height && upto + 4 <= stride
    requires At(stride, row, upto) + 3 < |b| && At(stride, height - 1 - row, upto) + 3 < |texture|
    requires RowPrefixFlipped(a, texture, stride, height, row, upto)
    requires forall k | At(stride, row, upto) <= k < At(stride, row, upto) + 4 ::
               b[k] == NormalizedByte(texture[k - At(stride, row, upto) + At(stride, height - 1 - row, upto)])
    requires forall k | 0 <= k < |a| && !(At(stride, row, upto) <= k < At(stride, row, upto) + 4) :: b[k] == a[k]
    ensures RowPrefixFlipped(b, texture, stride, height, row, upto + 4)
  {
    var out, src := row * stride, (height - 1 - row) * stride;
    forall o: nat | o < upto + 4
      ensures b[At(stride, row, o)] == NormalizedByte(texture[At(stride, height - 1 - row, o)])
    {
      AtBound(stride, height, row, o);
      AtBound(stride, height, height - 1 - row, o);
      assert At(stride, row, o) == out + o && At(stride, height - 1 - row, o) == src + o;
      if o < upto {
        assert b[out + o] == a[out + o];
      } else {
        assert b[out + o] == NormalizedByte(texture[out + o - (out + upto) + (src + upto)]);
      }
    }
  }

  /**
   * The inner loop of normalizeTexture: output row `row` becomes input row
   * height-1-row, normalised; no other element changes.
   */
  method FlipRow(result: array<Byte>, texture: seq<real>, width: nat, height: nat, row: nat)
    requires result.Length == |texture| == height * (width * 4) && row < height
    modifies result
    ensures RowFlipped(result[..], texture, width * 4, height, row)
    ensures forall k | 0 <= k < result.Length && !(At(width * 4, row, 0) <= k < At(width * 4, row + 1, 0)) ::
              result[k] == old(result[k])
  {
    var stride := width * 4;
    var nid := At(stride, row, 0);
    var id := At(stride, height - 1 - row, 0);
    RowsInside(stride, height, row);
    for j := 0 to width
      invariant id == At(stride, height - 1 - row, 0) + j * 4
      invariant RowPrefixFlipped(result[..], texture, stride, height, row, j * 4)
      invariant forall k | 0 <= k < result.Length && !(nid <= k < nid + j * 4) :: result[k] == old(result[k])
    {
      ghost var before := result[..];
      StorePixel(result, nid + j * 4, texture[id..id + 4]);
      PixelStored(before, result[..], texture, stride, height, row, j * 4);
      id := id + 4;
    }
  }

  /** Output row `row` and input row height-1-row both lie inside the array, and the next row starts one stride later. */
  lemma RowsInside(stride: nat, height: nat, row: nat)
    requires row < height
    ensures At(stride, row, 0) + stride <= height * stride
    ensures At(stride, height - 1 - row, 0) + stride <= height * stride
    ensures At(stride, row + 1, 0) == At(stride, row, 0) + stride
  {
    MulAtLeast(height - row, stride);
    assert height * stride - row * stride == (height - row) * stride;
    MulAtLeast(row + 1, stride);
    assert height * stride - (height - 1 - row) * stride == (row + 1) * stride;
  }

  /**
   * normalizeTexture: a fresh byte array of the same length whose row i
   * (width * 4 channels) is row height-1-i of the input, each channel clamped
   * to [0, 1], scaled by 255 and stored as a byte.
   */
  method NormalizeTexture(texture: seq<real>, width: nat, height: nat) returns (result: array<Byte>)
    requires |texture| == width * height * 4
    ensures fresh(result) && result.Length == |texture|
    ensures forall i: nat | i < height :: RowFlipped(result[..], texture, width * 4, height, i)
  {
    result := new Byte[|texture|];
    var stride := width * 4;
    assert |texture| == height * stride;
    var i := height - 1;
    while i >= 0
      invariant -1 <= i < height
      invariant forall r: nat | i < r < height :: RowFlipped(result[..], texture, stride, height, r)
    {
      ghost var before := result[..];
      FlipRow(result, texture, width, height, i);
      forall r: nat | i < r < height
        ensures RowFlipped(result[..], texture, stride, height, r)
      {
        RowStartMonotone(stride, i + 1, r);
        RowFlippedKept(before, result[..], texture, stride, height, r, At(stride, i, 0), At(stride, i + 1, 0));
      }
      i := i - 1;
    }
  }
}
