/** Colour helpers of the fluid engine: HSV to RGB conversion, the splat colour
    generator, the background colour normalisation and the timer wrap-around.
    Numbers are modelled as exact reals. */
module Colors {
  import opened Common

  datatype Rgb = Rgb(r: real, g: real, b: real)

  datatype Rgba = Rgba(r: real, g: real, b: real, a: real)

  /** Every splat colour is the chosen colour dimmed to 15%. */
  const Dim: real := 0.15

  function Scale(c: Rgb, k: real): Rgb {
    Rgb(c.r * k, c.g * k, c.b * k)
  }

  predicate InRange(c: Rgb, lo: real, hi: real) {
    lo <= c.r <= hi && lo <= c.g <= hi && lo <= c.b <= hi
  }

  function Max3(x: real, y: real, z: real): real {
    if x >= y && x >= z then x else if y >= z then y else z
  }

  function Min3(x: real, y: real, z: real): real {
    if x <= y && x <= z then x else if y <= z then y else z
  }

  /** Every channel lies in [lo, hi], the brightest is `hi` and the darkest `lo`. */
  predicate Spans(c: Rgb, lo: real, hi: real) {
    InRange(c, lo, hi) && Max3(c.r, c.g, c.b) == hi && Min3(c.r, c.g, c.b) == lo
  }

  /** The sector `Math.floor(h * 6) % 6` with JavaScript's truncating `%`: a
      negative hue whose sector is not a multiple of six gives a negative
      sector, which matches no case and yields black. */
  function Sector(h: real): (k: int)
    ensures -6 < k < 6
    ensures h >= 0.0 ==> 0 <= k
  {
    JsRem((h * 6.0).Floor, 6)
  }

  /** `h * 6 - Math.floor(h * 6)`: the position of the hue within its sector. */
  function Fraction(h: real): (f: real)
    ensures 0.0 <= f < 1.0
  {
    h * 6.0 - (h * 6.0).Floor as real
  }

  function HsvToRgb(h: real, s: real, v: real): Rgb {
    var f := Fraction(h);
    var p := v * (1.0 - s);
    var q := v * (1.0 - f * s);
    var t := v * (1.0 - (1.0 - f) * s);
    SectorColor(Sector(h), v, p, q, t)
  }

  /** Channel assignment of one hue sector; any other sector gives black. */
  function SectorColor(k: int, v: real, p: real, q: real, t: real): Rgb {
    match k
    case 0 => Rgb(v, t, p)
    case 1 => Rgb(q, v, p)
    case 2 => Rgb(p, v, t)
    case 3 => Rgb(p, q, v)
    case 4 => Rgb(t, p, v)
    case 5 => Rgb(v, p, q)
    case _ => Rgb(0.0, 0.0, 0.0)
  }

  /** The darkest intermediate `p`, the two blends `q` and `t`, and the value `v`
      are ordered `p <= q, t <= v`. */
  predicate Ordered(p: real, q: real, t: real, v: real) {
    p <= q <= v && p <= t <= v
  }

  /** The three HSV intermediates lie between `v * (1 - s)` and `v`. */
  lemma ChannelBounds(f: real, s: real, v: real)
    requires 0.0 <= f < 1.0 && 0.0 <= s <= 1.0 && v >= 0.0
    ensures Ordered(v * (1.0 - s), v * (1.0 - f * s), v * (1.0 - (1.0 - f) * s), v)
  {
    assert 0.0 <= f * s <= s by {
      MulMono(0.0, f, s);
      MulMono(f, 1.0, s);
    }
    assert 0.0 <= (1.0 - f) * s <= s by {
      MulMono(0.0, 1.0 - f, s);
      MulMono(1.0 - f, 1.0, s);
    }
    MulMono(1.0 - s, 1.0 - f * s, v);
    MulMono(1.0 - f * s, 1.0, v);
    MulMono(1.0 - s, 1.0 - (1.0 - f) * s, v);
    MulMono(1.0 - (1.0 - f) * s, 1.0, v);
  }

  /** In every valid sector the brightest channel is `v` and the darkest `p`. */
  lemma SectorExtremes(k: int, v: real, p: real, q: real, t: real)
    requires 0 <= k < 6
    requires Ordered(p, q, t, v)
    ensures var c := SectorColor(k, v, p, q, t);
      Spans(c, p, v)
  {
  }

  /** `SectorExtremes` for the intermediates computed from a fraction `f`. */
  lemma HsvSector(k: int, f: real, s: real, v: real)
    requires 0 <= k < 6
    requires 0.0 <= f < 1.0 && 0.0 <= s <= 1.0 && v >= 0.0
    ensures var c := SectorColor(k, v, v * (1.0 - s), v * (1.0 - f * s), v * (1.0 - (1.0 - f) * s));
      Spans(c, v * (1.0 - s), v)
  {
    ChannelBounds(f, s, v);
    SectorExtremes(k, v, v * (1.0 - s), v * (1.0 - f * s), v * (1.0 - (1.0 - f) * s));
  }

  /** For a hue in a valid sector, a saturation in [0, 1] and a non-negative
      value, the brightest channel equals the value, the darkest equals
      `v * (1 - s)`, and the third lies between them. */
  lemma HsvExtremes(h: real, s: real, v: real)
    requires 0.0 <= s <= 1.0 && v >= 0.0
    requires 0 <= Sector(h)
    ensures Spans(HsvToRgb(h, s, v), v * (1.0 - s), v)
  {
    var f := Fraction(h);
    assert HsvToRgb(h, s, v) == SectorColor(Sector(h), v, v * (1.0 - s), v * (1.0 - f * s), v * (1.0 - (1.0 - f) * s));
    HsvSector(Sector(h), f, s, v);
  }

  /** A hue whose sector is negative (and not a multiple of six) gives black. */
  lemma NegativeSectorIsBlack(h: real, s: real, v: real)
    requires Sector(h) < 0
    ensures HsvToRgb(h, s, v) == Rgb(0.0, 0.0, 0.0)
  {
  }

  /** `generateColor`: with a non-empty palette, the entry at
      `floor(random * length)` dimmed; otherwise a fully saturated random hue,
      dimmed. `random` is the value `Math.random()` returned, in [0, 1). */
  function GenerateColor(palette: Option<seq<Rgb>>, random: real): (c: Rgb)
    requires 0.0 <= random < 1.0
    ensures palette.Some? && |palette.value| > 0 ==>
      exists k :: 0 <= k < |palette.value| && c == Scale(palette.value[k], Dim)
    ensures !(palette.Some? && |palette.value| > 0) ==>
      Spans(c, 0.0, Dim)
  {
    if palette.Some? && |palette.value| > 0 then
      var n := |palette.value|;
      MulMono(random, 1.0, n as real);
      var k := (random * n as real).Floor;
      assert k < n;
      Scale(palette.value[k], Dim)
    else
      var c := HsvToRgb(random, 1.0, 1.0);
      HsvExtremes(random, 1.0, 1.0);
      DimExtremes(c);
      Scale(c, Dim)
  }

  lemma DimExtremes(c: Rgb)
    requires Spans(c, 0.0, 1.0)
    ensures Spans(Scale(c, Dim), 0.0, Dim)
  {
  }

  /** `normalizeColor`: a 0..255 colour becomes an opaque 0..1 colour. */
  function NormalizeColor(c: Rgb): (n: Rgba)
    ensures n.a == 1.0
    ensures Rgb(n.r * 255.0, n.g * 255.0, n.b * 255.0) == c
    ensures InRange(c, 0.0, 255.0) ==> 0.0 <= n.r <= 1.0 && 0.0 <= n.g <= 1.0 && 0.0 <= n.b <= 1.0
  {
    Rgba(c.r / 255.0, c.g / 255.0, c.b / 255.0, 1.0)
  }

  /** `wrap(value, min, max)`: `((value - min) % range) + min`, or `min` for an empty range. */
  function Wrap(value: real, min: real, max: real): real {
    var range := max - min;
    if range == 0.0 then min else JsFmod(value - min, range) + min
  }

  /** Wrapping a value at or above `min` lands in [min, max), is never above
      the value, and leaves a value already in range unchanged. */
  lemma WrapInRange(value: real, min: real, max: real)
    requires min < max && min <= value
    ensures min <= Wrap(value, min, max) < max
    ensures Wrap(value, min, max) <= value
    ensures value < max ==> Wrap(value, min, max) == value
  {
    FmodBounds(value - min, max - min);
  }
}
