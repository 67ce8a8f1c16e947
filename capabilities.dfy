/** Configuration and capability negotiation: the tunables merged from the
    defaults and the caller's overrides, the render-texture format fallback
    chain, and the downgrade applied when float textures cannot be filtered
    linearly. */
module Capabilities {
  import opened Common
  import opened Colors

  /** The engine's tunables (`FluidConfig`). Counts are integers; the values
      that only reach shaders as uniforms are reals. */
  datatype Config = Config(
    simResolution: int,
    dyeResolution: int,
    densityDissipation: real,
    velocityDissipation: real,
    pressure: real,
    pressureIterations: int,
    curl: real,
    splatRadius: real,
    splatForce: real,
    shading: bool,
    colorful: bool,
    colorUpdateSpeed: real,
    backColor: Rgb,
    transparent: bool,
    bloom: bool,
    bloomIterations: int,
    bloomResolution: int,
    bloomIntensity: real,
    bloomThreshold: real,
    bloomSoftKnee: real,
    sunrays: bool,
    sunraysResolution: int,
    sunraysWeight: real,
    autoSplats: bool,
    splatOnMoveOnly: bool,
    colorPalette: Option<seq<Rgb>>)

  /** `DEFAULT_CONFIG`. */
  const DefaultConfig := Config(
    simResolution := 128,
    dyeResolution := 1024,
    densityDissipation := 1.5,
    velocityDissipation := 0.4,
    pressure := 0.8,
    pressureIterations := 20,
    curl := 30.0,
    splatRadius := 0.15,
    splatForce := 6000.0,
    shading := true,
    colorful := true,
    colorUpdateSpeed := 10.0,
    backColor := Rgb(0.0, 0.0, 0.0),
    transparent := true,
    bloom := true,
    bloomIterations := 8,
    bloomResolution := 256,
    bloomIntensity := 0.6,
    bloomThreshold := 0.6,
    bloomSoftKnee := 0.7,
    sunrays := false,
    sunraysResolution := 196,
    sunraysWeight := 1.0,
    autoSplats := false,
    splatOnMoveOnly := true,
    colorPalette := None)

  /** A `Partial<FluidConfig>`: each key either given or absent. */
  datatype Overrides = Overrides(
    simResolution: Option<int>,
    dyeResolution: Option<int>,
    densityDissipation: Option<real>,
    velocityDissipation: Option<real>,
    pressure: Option<real>,
    pressureIterations: Option<int>,
    curl: Option<real>,
    splatRadius: Option<real>,
    splatForce: Option<real>,
    shading: Option<bool>,
    colorful: Option<bool>,
    colorUpdateSpeed: Option<real>,
    backColor: Option<Rgb>,
    transparent: Option<bool>,
    bloom: Option<bool>,
    bloomIterations: Option<int>,
    bloomResolution: Option<int>,
    bloomIntensity: Option<real>,
    bloomThreshold: Option<real>,
    bloomSoftKnee: Option<real>,
    sunrays: Option<bool>,
    sunraysResolution: Option<int>,
    sunraysWeight: Option<real>,
    autoSplats: Option<bool>,
    splatOnMoveOnly: Option<bool>,
    colorPalette: Option<Option<seq<Rgb>>>)

  const NoOverrides := Overrides(None, None, None, None, None, None, None, None, None, None, None, None, None,
                                 None, None, None, None, None, None, None, None, None, None, None, None, None)

  function Pick<T>(given: Option<T>, fallback: T): T {
    if given.Some? then given.value else fallback
  }

  /** `{ ...DEFAULT_CONFIG, ...config }`: every given key wins over the default.
      Merging the same overrides a second time changes nothing, and merging
      none gives the defaults back. */
  function Merge(d: Config, o: Overrides): (c: Config)
    ensures o == NoOverrides ==> c == d
  {
    Config(
      Pick(o.simResolution, d.simResolution),
      Pick(o.dyeResolution, d.dyeResolution),
      Pick(o.densityDissipation, d.densityDissipation),
      Pick(o.velocityDissipation, d.velocityDissipation),
      Pick(o.pressure, d.pressure),
      Pick(o.pressureIterations, d.pressureIterations),
      Pick(o.curl, d.curl),
      Pick(o.splatRadius, d.splatRadius),
      Pick(o.splatForce, d.splatForce),
      Pick(o.shading, d.shading),
      Pick(o.colorful, d.colorful),
      Pick(o.colorUpdateSpeed, d.colorUpdateSpeed),
      Pick(o.backColor, d.backColor),
      Pick(o.transparent, d.transparent),
      Pick(o.bloom, d.bloom),
      Pick(o.bloomIterations, d.bloomIterations),
      Pick(o.bloomResolution, d.bloomResolution),
      Pick(o.bloomIntensity, d.bloomIntensity),
      Pick(o.bloomThreshold, d.bloomThreshold),
      Pick(o.bloomSoftKnee, d.bloomSoftKnee),
      Pick(o.sunrays, d.sunrays),
      Pick(o.sunraysResolution, d.sunraysResolution),
      Pick(o.sunraysWeight, d.sunraysWeight),
      Pick(o.autoSplats, d.autoSplats),
      Pick(o.splatOnMoveOnly, d.splatOnMoveOnly),
      Pick(o.colorPalette, d.colorPalette))
  }

  /** Merging the same overrides a second time changes nothing. */
  lemma MergeIdempotent(d: Config, o: Overrides)
    ensures Merge(Merge(d, o), o) == Merge(d, o)
  {
  }

  /** The merged value of one key: the caller's value when given, else the default. */
  predicate Wins<T(==)>(given: Option<T>, fallback: T, merged: T) {
    (given.Some? ==> merged == given.value) && (given.None? ==> merged == fallback)
  }

  /** Every key the caller gives reaches the merged configuration, and every
      key it leaves out keeps its default. */
  lemma MergeOverridesWin(d: Config, o: Overrides)
    ensures var c := Merge(d, o);
      && Wins(o.simResolution, d.simResolution, c.simResolution)
      && Wins(o.dyeResolution, d.dyeResolution, c.dyeResolution)
      && Wins(o.densityDissipation, d.densityDissipation, c.densityDissipation)
      && Wins(o.velocityDissipation, d.velocityDissipation, c.velocityDissipation)
      && Wins(o.pressure, d.pressure, c.pressure)
      && Wins(o.pressureIterations, d.pressureIterations, c.pressureIterations)
      && Wins(o.curl, d.curl, c.curl)
      && Wins(o.splatRadius, d.splatRadius, c.splatRadius)
      && Wins(o.splatForce, d.splatForce, c.splatForce)
      && Wins(o.shading, d.shading, c.shading)
      && Wins(o.colorful, d.colorful, c.colorful)
      && Wins(o.colorUpdateSpeed, d.colorUpdateSpeed, c.colorUpdateSpeed)
      && Wins(o.backColor, d.backColor, c.backColor)
      && Wins(o.transparent, d.transparent, c.transparent)
      && Wins(o.bloom, d.bloom, c.bloom)
      && Wins(o.bloomIterations, d.bloomIterations, c.bloomIterations)
      && Wins(o.bloomResolution, d.bloomResolution, c.bloomResolution)
      && Wins(o.bloomIntensity, d.bloomIntensity, c.bloomIntensity)
      && Wins(o.bloomThreshold, d.bloomThreshold, c.bloomThreshold)
      && Wins(o.bloomSoftKnee, d.bloomSoftKnee, c.bloomSoftKnee)
      && Wins(o.sunrays, d.sunrays, c.sunrays)
      && Wins(o.sunraysResolution, d.sunraysResolution, c.sunraysResolution)
      && Wins(o.sunraysWeight, d.sunraysWeight, c.sunraysWeight)
      && Wins(o.autoSplats, d.autoSplats, c.autoSplats)
      && Wins(o.splatOnMoveOnly, d.splatOnMoveOnly, c.splatOnMoveOnly)
      && Wins(o.colorPalette, d.colorPalette, c.colorPalette)
  {
  }

  /** Internal formats a render texture is asked for; `Rgba` is WebGL 1's unsized RGBA. */
  datatype InternalFormat = R16F | RG16F | RGBA16F | Rgba

  datatype PixelFormat = Red | Rg | RgbaPixels

  datatype TextureFormat = TextureFormat(internalFormat: InternalFormat, format: PixelFormat)

  /** How many fallbacks remain after a format. */
  function Rank(f: InternalFormat): nat {
    match f
    case R16F => 2
    case RG16F => 1
    case _ => 0
  }

  /** The formats tried, in order, starting from the requested one:
      R16F falls back to RG16F, RG16F to RGBA16F, anything else to nothing. */
  function FallbackChain(internalFormat: InternalFormat, format: PixelFormat): (chain: seq<TextureFormat>)
    ensures |chain| == Rank(internalFormat) + 1
    ensures chain[0] == TextureFormat(internalFormat, format)
    decreases Rank(internalFormat)
  {
    [TextureFormat(internalFormat, format)] +
    match internalFormat
    case R16F => FallbackChain(RG16F, Rg)
    case RG16F => FallbackChain(RGBA16F, RgbaPixels)
    case _ => []
  }

  /** The reference answer: the first format of a list the probe accepts. */
  function FirstSupported(chain: seq<TextureFormat>, supported: TextureFormat -> bool): Option<TextureFormat> {
    if chain == [] then None
    else if supported(chain[0]) then Some(chain[0])
    else FirstSupported(chain[1..], supported)
  }

  /** `getSupportedFormat`: probe the requested format; on failure, R16F and
      RG16F move one step along the chain and every other format gives null.
      `supported` stands for the render-to-texture probe
      (`supportRenderTextureFormat`), whose outcome depends on the GPU. */
  function GetSupportedFormat(supported: TextureFormat -> bool, internalFormat: InternalFormat, format: PixelFormat)
    : (r: Option<TextureFormat>)
    ensures r == FirstSupported(FallbackChain(internalFormat, format), supported)
    ensures r.Some? ==> supported(r.value) && r.value in FallbackChain(internalFormat, format)
    ensures r.None? <==> forall i :: 0 <= i < |FallbackChain(internalFormat, format)| ==>
                                      !supported(FallbackChain(internalFormat, format)[i])
    decreases Rank(internalFormat)
  {
    var chain := FallbackChain(internalFormat, format);
    assert chain[1..] == match internalFormat
      case R16F => FallbackChain(RG16F, Rg)
      case RG16F => FallbackChain(RGBA16F, RgbaPixels)
      case _ => [];
    if !supported(TextureFormat(internalFormat, format)) then
      match internalFormat
      case R16F => GetSupportedFormat(supported, RG16F, Rg)
      case RG16F => GetSupportedFormat(supported, RGBA16F, RgbaPixels)
      case _ => None
    else
      Some(TextureFormat(internalFormat, format))
  }

  /** The texture type float textures are created with. */
  datatype TexType = HalfFloat | HalfFloatOes | UnsignedByte

  /** What `initWebGL` records in `ext`. */
  datatype Ext = Ext(
    formatRgba: Option<TextureFormat>,
    formatRg: Option<TextureFormat>,
    formatR: Option<TextureFormat>,
    halfFloatTexType: TexType,
    supportLinearFiltering: bool)

  /** Why construction fails: no WebGL context at all, or a render format
      that came back null and is dereferenced when the framebuffers are built. */
  datatype InitError = WebGlNotSupported | MissingTextureFormat

  /** What the browser offers: whether a WebGL 2 or WebGL 1 context can be
      created, which extensions exist, and the render-to-texture probe. */
  datatype Platform = Platform(
    webgl2: bool,
    webgl1: bool,
    halfFloatExtension: bool,
    linearFilteringExtension: bool,
    supported: TextureFormat -> bool)

  /** The capability part of `initWebGL`: no context at all is fatal; WebGL 2
      asks for R16F/RG16F/RGBA16F with fallback, WebGL 1 asks for RGBA three times. */
  function Negotiate(p: Platform): (r: Result<Ext, InitError>)
    ensures r.Failure? <==> !p.webgl2 && !p.webgl1
    ensures r.Success? ==> r.value.supportLinearFiltering == p.linearFilteringExtension
    ensures r.Success? && p.webgl2 ==>
      r.value.halfFloatTexType == HalfFloat &&
      r.value.formatRgba == FirstSupported(FallbackChain(RGBA16F, RgbaPixels), p.supported) &&
      r.value.formatRg == FirstSupported(FallbackChain(RG16F, Rg), p.supported) &&
      r.value.formatR == FirstSupported(FallbackChain(R16F, Red), p.supported)
    ensures r.Success? && !p.webgl2 ==>
      r.value.halfFloatTexType == (if p.halfFloatExtension then HalfFloatOes else UnsignedByte) &&
      r.value.formatRgba == r.value.formatRg == r.value.formatR &&
      (r.value.formatRgba.Some? <==> p.supported(TextureFormat(InternalFormat.Rgba, RgbaPixels)))
  {
    if p.webgl2 then
      Success(Ext(
        GetSupportedFormat(p.supported, RGBA16F, RgbaPixels),
        GetSupportedFormat(p.supported, RG16F, Rg),
        GetSupportedFormat(p.supported, R16F, Red),
        HalfFloat,
        p.linearFilteringExtension))
    else if p.webgl1 then
      var f := GetSupportedFormat(p.supported, InternalFormat.Rgba, RgbaPixels);
      Success(Ext(f, f, f, if p.halfFloatExtension then HalfFloatOes else UnsignedByte, p.linearFilteringExtension))
    else
      Failure(WebGlNotSupported)
  }

  /** The downgrade at the end of `initWebGL`: without linear filtering of float
      textures, dye resolution becomes 512 and shading, bloom and sunrays are
      switched off; nothing else changes, and no feature is ever switched on. */
  function Downgrade(c: Config, supportLinearFiltering: bool): (r: Config)
    ensures supportLinearFiltering ==> r == c
    ensures !supportLinearFiltering ==> r.dyeResolution == 512 && !r.shading && !r.bloom && !r.sunrays
    ensures (r.shading ==> c.shading) && (r.bloom ==> c.bloom) && (r.sunrays ==> c.sunrays)
    ensures r.(dyeResolution := c.dyeResolution, shading := c.shading, bloom := c.bloom, sunrays := c.sunrays) == c
  {
    if supportLinearFiltering then c
    else c.(dyeResolution := 512, shading := false, bloom := false, sunrays := false)
  }

  /** The downgrade sets the dye resolution to 512 whatever it was, so a
      configured resolution below 512 is raised, not lowered. */
  lemma DowngradeCanRaiseDyeResolution()
    ensures var c := Merge(DefaultConfig, NoOverrides.(dyeResolution := Some(256)));
      Downgrade(c, false).dyeResolution > c.dyeResolution
  {
  }
}
