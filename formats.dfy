/**
 * Texture format selection of the fluid simulation: `getSupportedFormat`
 * probes a render-texture format and falls back R16F -> RG16F -> RGBA16F,
 * giving null when nothing in the chain can be rendered to. The GPU probe
 * `supportRenderTextureFormat` is a parameter.
 */
module Formats {
  import opened Options

  /** The internal formats the source asks for (RGBA is what the WebGL 1 path passes). */
  datatype InternalFormat = R16F | RG16F | RGBA16F | RGBA

  datatype PixelFormat = Red | RG | RGBAFormat

  datatype TextureFormat = TextureFormat(internalFormat: InternalFormat, format: PixelFormat)

  /** The formats getSupportedFormat tries, in order, for a request. */
  function FallbackChain(internalFormat: InternalFormat, format: PixelFormat): (chain: seq<TextureFormat>)
    ensures |chain| >= 1 && chain[0] == TextureFormat(internalFormat, format)
  {
    match internalFormat
    case R16F => [TextureFormat(R16F, format), TextureFormat(RG16F, RG), TextureFormat(RGBA16F, RGBAFormat)]
    case RG16F => [TextureFormat(RG16F, format), TextureFormat(RGBA16F, RGBAFormat)]
    case _ => [TextureFormat(internalFormat, format)]
  }

  /** The reference meaning: the first format of a list that the device supports. */
  function FirstSupported(supported: (InternalFormat, PixelFormat) -> bool, chain: seq<TextureFormat>): (r: Option<TextureFormat>)
    ensures r.Some? ==> r.value in chain && supported(r.value.internalFormat, r.value.format)
    ensures r.None? <==> forall i :: 0 <= i < |chain| ==> !supported(chain[i].internalFormat, chain[i].format)
    ensures r.Some? ==>
              exists k :: 0 <= k < |chain| && chain[k] == r.value &&
                          forall i :: 0 <= i < k ==> !supported(chain[i].internalFormat, chain[i].format)
  {
    if |chain| == 0 then None
    else if supported(chain[0].internalFormat, chain[0].format) then Some(chain[0])
    else FirstSupported(supported, chain[1..])
  }

  function Rank(f: InternalFormat): nat {
    match f
    case R16F => 2
    case RG16F => 1
    case _ => 0
  }

  /** getSupportedFormat: the first supported format of the fallback chain, or null. */
  function GetSupportedFormat(supported: (InternalFormat, PixelFormat) -> bool,
                              internalFormat: InternalFormat, format: PixelFormat): (r: Option<TextureFormat>)
    ensures r == FirstSupported(supported, FallbackChain(internalFormat, format))
    decreases Rank(internalFormat)
  {
    if !supported(internalFormat, format) then
      match internalFormat
      case R16F => GetSupportedFormat(supported, RG16F, RG)
      case RG16F => GetSupportedFormat(supported, RGBA16F, RGBAFormat)
      case _ => None
    else
      Some(TextureFormat(internalFormat, format))
  }
}
