/** The `FluidSimulation` engine: its pointer, frame clock, colour timer and
    splat queue, the framebuffers it owns, and the per-frame sequence of
    splats, solver step and render, all drawn through the GL context. */
module Simulation {
  import opened Common
  import opened Colors
  import opened Gl
  import opened Capabilities
  import opened Framebuffers
  import opened Shaders
  import opened Passes

  // ---------------------------------------------------------------- pointer

  /** The mouse or touch pointer, in texture coordinates (0..1, y up). */
  datatype Pointer = Pointer(
    id: int,
    texcoordX: real,
    texcoordY: real,
    prevTexcoordX: real,
    prevTexcoordY: real,
    deltaX: real,
    deltaY: real,
    down: bool,
    moved: bool,
    color: Rgb)

  /** `createPointer`. */
  const InitialPointer := Pointer(-1, 0.0, 0.0, 0.0, 0.0, 0.0, 0.0, false, false, Rgb(1.5, 1.5, 1.5))

  /** `correctDeltaX`: a horizontal delta is scaled by the aspect ratio
      `w / h` when that ratio is below 1. A zero height makes the ratio
      infinite or NaN, neither of which is below 1. */
  function CorrectDeltaX(delta: real, w: nat, h: nat): real {
    if h > 0 && (w as real / h as real) < 1.0 then delta * (w as real / h as real) else delta
  }

  /** `correctDeltaY`: a vertical delta is divided by the aspect ratio when it
      is above 1. With a zero height and a non-zero width the ratio is
      infinite and the delta becomes 0; with both zero the ratio is NaN and
      the delta is kept. */
  function CorrectDeltaY(delta: real, w: nat, h: nat): real {
    if h > 0 then (if (w as real / h as real) > 1.0 then delta / (w as real / h as real) else delta)
    else if w > 0 then 0.0
    else delta
  }

  /** On a canvas with both sides positive the correction maps deltas to
      units of the shorter side: the delta along the longer axis is kept and
      the other is scaled by short / long. */
  lemma CorrectDeltaShortSide(dx: real, dy: real, w: nat, h: nat)
    requires w > 0 && h > 0
    ensures w <= h ==> CorrectDeltaX(dx, w, h) == dx * (w as real / h as real) && CorrectDeltaY(dy, w, h) == dy
    ensures w >= h ==> CorrectDeltaX(dx, w, h) == dx && CorrectDeltaY(dy, w, h) == dy * (h as real / w as real)
  {
    var a := w as real / h as real;
    if w > h {
      assert a > 1.0;
      assert dy / a == dy * (h as real / w as real);
    } else if w == h {
      assert a == 1.0;
    }
  }

  /** `correctRadius`: the splat radius is multiplied by the aspect ratio when
      the canvas is wider than tall. A zero height with a non-zero width makes
      the ratio infinite, which no real expresses: that case is `None`. */
  function CorrectRadius(radius: real, w: nat, h: nat): (r: Option<real>)
    ensures r.None? <==> h == 0 && w > 0
    ensures r.Some? && h > 0 && w > h ==> r.value == radius * (w as real / h as real)
    ensures r.Some? && radius >= 0.0 ==> r.value >= radius
    ensures r.Some? && w <= h ==> r.value == radius
  {
    if h > 0 then
      var a := w as real / h as real;
      if a > 1.0 then MulAtLeastOne(radius, a); Some(radius * a) else Some(radius)
    else if w > 0 then None
    else Some(radius)
  }

  /** `updatePointerMoveDataNormalized` on the pointer: the old position
      becomes the previous one, the deltas are the aspect-corrected
      differences, `moved` says whether either is non-zero, and the pointer
      is down. */
  function MovedTo(p: Pointer, x: real, y: real, w: nat, h: nat): Pointer {
    var dx := CorrectDeltaX(x - p.texcoordX, w, h);
    var dy := CorrectDeltaY(y - p.texcoordY, w, h);
    p.(prevTexcoordX := p.texcoordX, prevTexcoordY := p.texcoordY,
       texcoordX := x, texcoordY := y,
       deltaX := dx, deltaY := dy,
       moved := dx != 0.0 || dy != 0.0,
       down := true)
  }

  /** On a canvas with both sides positive a move counts as moved exactly
      when the position changed; the previous position is the old current
      one, and id and colour are untouched. */
  lemma MoveTracksPosition(p: Pointer, x: real, y: real, w: nat, h: nat)
    requires w > 0 && h > 0
    ensures var q := MovedTo(p, x, y, w, h);
      && (q.moved <==> x != p.texcoordX || y != p.texcoordY)
      && q.prevTexcoordX == p.texcoordX && q.prevTexcoordY == p.texcoordY
      && q.texcoordX == x && q.texcoordY == y && q.down
      && q.id == p.id && q.color == p.color
  {
    var a := w as real / h as real;
    assert a > 0.0;
    if a > 1.0 {
      NonZeroQuotient(y - p.texcoordY, a);
    }
  }

  lemma NonZeroQuotient(d: real, a: real)
    requires a > 0.0
    ensures d / a != 0.0 <==> d != 0.0
    ensures d * a != 0.0 <==> d != 0.0
  {
  }

  /** On a zero-width canvas every horizontal delta is scaled by a zero
      aspect ratio, so a purely horizontal move is never registered. */
  lemma ZeroWidthHidesHorizontalMoves(p: Pointer, x: real, h: nat)
    requires h > 0 && x != p.texcoordX
    ensures !MovedTo(p, x, p.texcoordY, 0, h).moved
  {
  }

  /** `updatePointerUpData` on the pointer: only `down` changes. */
  function Released(p: Pointer): (q: Pointer)
    ensures !q.down && q.(down := p.down) == p
  {
    p.(down := false)
  }

  /** `updatePointerMoveData`: page coordinates relative to the canvas's CSS
      size become texture coordinates with y pointing up. */
  function TexcoordOf(posX: real, posY: real, clientWidth: real, clientHeight: real): (t: (real, real))
    requires clientWidth > 0.0 && clientHeight > 0.0
    ensures 0.0 <= posX <= clientWidth ==> 0.0 <= t.0 <= 1.0
    ensures 0.0 <= posY <= clientHeight ==> 0.0 <= t.1 <= 1.0
    ensures posY == 0.0 ==> t.1 == 1.0
    ensures posY == clientHeight ==> t.1 == 0.0
  {
    UnitQuotient(posX, clientWidth);
    UnitQuotient(posY, clientHeight);
    (posX / clientWidth, 1.0 - posY / clientHeight)
  }

  lemma UnitQuotient(a: real, b: real)
    requires b > 0.0
    ensures 0.0 <= a <= b ==> 0.0 <= a / b <= 1.0
    ensures a == b ==> a / b == 1.0
  {
  }

  // ---------------------------------------------------------------- clocks

  /** The largest step `calcDeltaTime` hands to the solver, in seconds. */
  const MaxDeltaTime: real := 0.016666

  /** `calcDeltaTime`: the elapsed milliseconds in seconds, capped at
      `MaxDeltaTime`. There is no lower bound: a clock that went backwards
      gives a negative step. */
  function DeltaTime(last: real, now: real): (dt: real)
    ensures dt <= MaxDeltaTime
    ensures dt == MaxDeltaTime || dt == (now - last) / 1000.0
    ensures (now - last) / 1000.0 <= MaxDeltaTime ==> dt == (now - last) / 1000.0
    ensures now >= last ==> dt >= 0.0
    ensures now < last ==> dt < 0.0
  {
    var dt := (now - last) / 1000.0;
    if dt < MaxDeltaTime then dt else MaxDeltaTime
  }

  /** `window.devicePixelRatio || 1`: a zero ratio falls back to 1. */
  function PixelRatio(devicePixelRatio: real): real {
    if devicePixelRatio == 0.0 then 1.0 else devicePixelRatio
  }

  /** `scaleByPixelRatio`: CSS pixels to device pixels, rounded down. */
  function ScaleByPixelRatio(input: int, devicePixelRatio: real): (r: int)
    ensures r as real <= input as real * PixelRatio(devicePixelRatio) < r as real + 1.0
    ensures devicePixelRatio == 0.0 || devicePixelRatio == 1.0 ==> r == input
    ensures input >= 0 && devicePixelRatio >= 0.0 ==> r >= 0
  {
    var x := input as real * PixelRatio(devicePixelRatio);
    assert input >= 0 && devicePixelRatio >= 0.0 ==> x >= 0.0;
    x.Floor
  }

  /** `updateColors` on the timer: it advances by `dt * COLOR_UPDATE_SPEED`;
      on reaching 1 it wraps back into [0, 1) and the pointer is recoloured.
      The timer is never left at 1 or above; it goes negative only if the
      advance did. */
  function ColorTick(timer: real, advance: real): (r: (real, bool))
    ensures r.1 <==> timer + advance >= 1.0
    ensures r.0 < 1.0
    ensures r.1 ==> 0.0 <= r.0 <= timer + advance - 1.0
    ensures !r.1 ==> r.0 == timer + advance
  {
    var t := timer + advance;
    if t >= 1.0 then
      WrapInRange(t, 0.0, 1.0);
      WrapAboveOne(t);
      (Wrap(t, 0.0, 1.0), true)
    else (t, false)
  }

  /** Wrapping a value of at least 1 into [0, 1) takes off at least 1. */
  lemma WrapAboveOne(t: real)
    requires t >= 1.0
    ensures Wrap(t, 0.0, 1.0) <= t - 1.0
  {
    var q := t / 1.0;
    assert q == t;
    assert Trunc(q) >= 1 by {
      assert t.Floor >= 1;
    }
    assert JsFmod(t, 1.0) == t - Trunc(q) as real;
  }

  /** A timer inside [0, 1) stays inside [0, 1) for any non-negative advance. */
  lemma ColorTimerStaysInUnit(timer: real, advance: real)
    requires 0.0 <= timer < 1.0 && advance >= 0.0
    ensures 0.0 <= ColorTick(timer, advance).0 < 1.0
  {
  }

  /** How far the colour timer moves in a frame of `dt` seconds. */
  function ColorAdvance(c: Config, dt: real): real {
    dt * c.colorUpdateSpeed
  }

  /** The pointer and the colour timer as `updateColors(dt)` leaves them,
      where `advance` is `ColorAdvance(c, dt)`: untouched without
      `COLORFUL`; otherwise the timer advances, and on reaching 1 it wraps
      and the pointer takes a generated colour. */
  function ColorUpdate(c: Config, p: Pointer, timer: real, advance: real, colorRandom: real): (Pointer, real)
    requires 0.0 <= colorRandom < 1.0
  {
    if !c.colorful then (p, timer)
    else
      var t := timer + advance;
      if t >= 1.0 then (p.(color := GenerateColor(c.colorPalette, colorRandom)), Wrap(t, 0.0, 1.0))
      else (p, t)
  }

  /** Without `COLORFUL` nothing changes; with it the timer is the tick of
      `ColorTick`, and the pointer takes a generated colour exactly when the
      timer wraps, keeping everything else. */
  lemma ColorUpdateCases(c: Config, p: Pointer, timer: real, advance: real, colorRandom: real)
    requires 0.0 <= colorRandom < 1.0
    ensures !c.colorful ==> ColorUpdate(c, p, timer, advance, colorRandom) == (p, timer)
    ensures c.colorful ==>
      var t, u := ColorTick(timer, advance), ColorUpdate(c, p, timer, advance, colorRandom);
      && u.1 == t.0
      && u.0 == (if t.1 then p.(color := GenerateColor(c.colorPalette, colorRandom)) else p)
  {
  }

  // ---------------------------------------------------------------- random splats

  /** The five `Math.random()` draws of one random splat, each in [0, 1):
      colour, position and force. */
  datatype SplatRandoms = SplatRandoms(color: real, x: real, y: real, dx: real, dy: real)

  predicate UnitRandoms(r: SplatRandoms) {
    0.0 <= r.color < 1.0 && 0.0 <= r.x < 1.0 && 0.0 <= r.y < 1.0 && 0.0 <= r.dx < 1.0 && 0.0 <= r.dy < 1.0
  }

  /** One iteration of `multipleSplats`: a generated colour at a random
      position with a force of up to 500 in each direction. */
  function RandomSplat(palette: Option<seq<Rgb>>, r: SplatRandoms): (s: SplatDraw)
    requires UnitRandoms(r)
    ensures s.color == GenerateColor(palette, r.color)
    ensures 0.0 <= s.x < 1.0 && 0.0 <= s.y < 1.0
    ensures -500.0 <= s.dx < 500.0 && -500.0 <= s.dy < 500.0
  {
    SplatDraw(r.x, r.y, 1000.0 * (r.dx - 0.5), 1000.0 * (r.dy - 0.5), GenerateColor(palette, r.color))
  }

  function RandomSplats(palette: Option<seq<Rgb>>, rs: seq<SplatRandoms>): (draws: seq<SplatDraw>)
    requires forall i :: 0 <= i < |rs| ==> UnitRandoms(rs[i])
    ensures |draws| == |rs|
    ensures forall i :: 0 <= i < |rs| ==> draws[i] == RandomSplat(palette, rs[i])
  {
    seq(|rs|, i requires 0 <= i < |rs| => RandomSplat(palette, rs[i]))
  }

  /** How often `for (i = 0; i < amount; i++)` runs. */
  function Count(amount: int): nat {
    if amount > 0 then amount else 0
  }

  /** The random splat count at construction, `floor(random * 5) + 5`, is 5 to 9. */
  function AutoSplatCount(random: real): (n: int)
    requires 0.0 <= random < 1.0
    ensures 5 <= n <= 9
  {
    (random * 5.0).Floor + 5
  }

  /** `splatPointer`: a splat at the pointer, pushed by its delta times the
      splat force, in a generated colour. */
  function PointerSplat(p: Pointer, c: Config, colorRandom: real): SplatDraw
    requires 0.0 <= colorRandom < 1.0
  {
    SplatDraw(p.texcoordX, p.texcoordY, p.deltaX * c.splatForce, p.deltaY * c.splatForce,
              GenerateColor(c.colorPalette, colorRandom))
  }

  /** The random splats of the popped amount, or none for an empty queue. */
  function QueuedDraws(stack: seq<int>, c: Config, rs: seq<SplatRandoms>): seq<SplatDraw>
    requires forall i :: 0 <= i < |rs| ==> UnitRandoms(rs[i])
  {
    if |stack| > 0 then RandomSplats(c.colorPalette, rs) else []
  }

  /** One splat at the pointer if it moved, none otherwise. */
  function PointerDraws(p: Pointer, c: Config, colorRandom: real): seq<SplatDraw>
    requires 0.0 <= colorRandom < 1.0
  {
    if p.moved then [PointerSplat(p, c, colorRandom)] else []
  }

  /** The splats `applyInputs` draws, in order: the queued random splats when
      the queue is not empty, then one at the pointer if it moved. */
  function InputDraws(stack: seq<int>, p: Pointer, c: Config, rs: seq<SplatRandoms>, colorRandom: real): seq<SplatDraw>
    requires 0.0 <= colorRandom < 1.0
    requires forall i :: 0 <= i < |rs| ==> UnitRandoms(rs[i])
  {
    QueuedDraws(stack, c, rs) + PointerDraws(p, c, colorRandom)
  }

  /** The stack after `pop()`: the last entry removed, an empty stack kept. */
  function Popped(stack: seq<int>): (r: seq<int>)
    ensures |stack| > 0 ==> r + [stack[|stack| - 1]] == stack
    ensures |stack| == 0 ==> r == []
  {
    if |stack| > 0 then stack[..|stack| - 1] else []
  }

  lemma AppendAssoc<T>(a: seq<T>, b: seq<T>, c: seq<T>)
    ensures (a + b) + c == a + (b + c)
  {
  }

  /** One more iteration of the `multipleSplats` loop. */
  lemma MultiSplatStep(v: PairIds, d: PairIds, f: SplatFrame, draws: seq<SplatDraw>, i: nat, blend: Blend)
    requires i < |draws|
    ensures MultiSplatPasses(v, d, f, draws[..i + 1], blend) ==
      MultiSplatPasses(v, d, f, draws[..i], blend) + SplatPasses(SwappedTimes(v, i), SwappedTimes(d, i), f, draws[i], blend)
    ensures SwappedTimes(v, i + 1) == Swapped(SwappedTimes(v, i))
    ensures SwappedTimes(d, i + 1) == Swapped(SwappedTimes(d, i))
  {
    assert draws[..i + 1] == draws[..i] + [draws[i]];
    MultiSplatSnoc(v, d, f, draws[..i], draws[i], blend);
  }

  // ---------------------------------------------------------------- settings

  /** The bloom uniforms `applyBloom` derives from the configuration. The
      prefilter's third curve coefficient is `0.25 / knee`; the pass records
      the knee it is computed from. */
  function BloomUniformsOf(c: Config): BloomUniforms {
    var knee := c.bloomThreshold * c.bloomSoftKnee + 0.0001;
    BloomUniforms([c.bloomThreshold - knee, knee * 2.0, knee], c.bloomThreshold, c.bloomIntensity)
  }

  /** What `render` reads from the configuration; the background colour is
      normalised to 0..1. */
  function RenderSettingsOf(c: Config): RenderSettings {
    RenderSettings(c.bloom, c.shading, c.transparent, NormalizeColor(c.backColor))
  }

  /** `for (i = 0; i < PRESSURE_ITERATIONS; i++)` runs this often. */
  function Iterations(c: Config): nat {
    Count(c.pressureIterations)
  }

  /** The configured resolutions are positive, so every framebuffer built
      from them has positive sides. */
  predicate PositiveResolutions(c: Config) {
    c.simResolution >= 1 && c.dyeResolution >= 1 && c.bloomResolution >= 1
  }

  /** `getResolution` for a drawing buffer with both sides positive. */
  function Resolution(resolution: int, w: nat, h: nat): (s: Size)
    requires resolution >= 1 && w > 0 && h > 0
    ensures s == GetResolution(resolution as real, w, h).value
    ensures s.width >= 1 && s.height >= 1
  {
    GetResolutionOrientation(resolution as real, w, h);
    GetResolution(resolution as real, w, h).value
  }

  /** What a resize leaves in a texture: the content itself, or its copy when
      the framebuffer was reallocated. */
  function Carried(c: Content, resized: bool): Content {
    if resized then Drawn(Copy, [], [c]) else c
  }

  function PairOf(d: DoubleFbo): PairIds
    reads d
  {
    PairIds(d.read.id, d.write.id)
  }

  /** Size and texel size of a pair are as they were. */
  twostate predicate SameShape(d: DoubleFbo)
    reads d
  {
    && d.width == old(d.width) && d.height == old(d.height)
    && d.texelSizeX == old(d.texelSizeX) && d.texelSizeY == old(d.texelSizeY)
  }

  // ---------------------------------------------------------------- module-level buffer creation

  /** Divergence and curl as `initFramebuffers` creates them: the new
      textures `first` and `first + 1`, both of the simulation size. */
  predicate SolverTargets(divergence: Fbo, curl: Fbo, size: Size, first: nat)
    requires size.width > 0 && size.height > 0
  {
    divergence == NewFbo(first, size.width, size.height) && curl == NewFbo(first + 1, size.width, size.height)
  }

  /** The bloom buffers as `initBloomFramebuffers` creates them for a `w` by
      `h` drawing buffer: the target at the bloom resolution as texture
      `first`, then `LevelCount` levels, each the one before halved, as the
      textures after it. */
  predicate BloomTargets(bloom: Fbo, levels: seq<Fbo>, c: Config, w: nat, h: nat, first: nat)
    requires PositiveResolutions(c) && w > 0 && h > 0
  {
    var res := Resolution(c.bloomResolution, w, h);
    && bloom == NewFbo(first, res.width, res.height)
    && |levels| == LevelCount(res, c.bloomIterations)
    && forall k :: 0 <= k < |levels| ==>
         levels[k].id == first + 1 + k && Size(levels[k].width, levels[k].height) == LevelSize(res, k)
  }

  /** The framebuffers `initFramebuffers` always creates anew: divergence,
      curl (single) and pressure (pair), all of the simulation size. */
  method CreateSolverBuffers(gl: Context, size: Size) returns (divergence: Fbo, curl: Fbo, pressure: DoubleFbo)
    requires gl.Valid() && size.width >= 1 && size.height >= 1
    modifies gl
    ensures gl.Valid() && fresh(pressure)
    ensures var n := old(gl.nextTexture);
      && SolverTargets(divergence, curl, size, n)
      && pressure.read == NewFbo(n + 2, size.width, size.height)
      && pressure.write == NewFbo(n + 3, size.width, size.height)
      && gl.nextTexture == n + 4
    ensures pressure.width == size.width && pressure.height == size.height && pressure.swaps == 0
    ensures pressure.texelSizeX == pressure.read.texelSizeX && pressure.texelSizeY == pressure.read.texelSizeY
    ensures ContentOf(gl.Surfaces(), Texture(pressure.read.id)) == Blank
    ensures gl.passes == old(gl.passes) && SameProgramsAndBlend(gl)
  {
    divergence := gl.CreateFbo(size.width, size.height);
    curl := gl.CreateFbo(size.width, size.height);
    pressure := CreateDoubleFbo(gl, size.width, size.height);
  }

  /** `initBloomFramebuffers`: the bloom target at the bloom resolution, then
      the chain of halving levels. */
  method CreateBloomBuffers(gl: Context, c: Config, w: nat, h: nat) returns (bloom: Fbo, levels: seq<Fbo>)
    requires gl.Valid() && PositiveResolutions(c) && w > 0 && h > 0
    modifies gl
    ensures gl.Valid()
    ensures BloomTargets(bloom, levels, c, w, h, old(gl.nextTexture))
    ensures gl.nextTexture == old(gl.nextTexture) + 1 + |levels|
    ensures gl.passes == old(gl.passes) && SameProgramsAndBlend(gl)
  {
    var res := Resolution(c.bloomResolution, w, h);
    bloom := gl.CreateFbo(res.width, res.height);
    levels := CreateBloomLevels(gl, res, c.bloomIterations);
  }

  /** The texture ids the engine holds: the solver's eight are distinct and
      exist among the first `n` textures, and the bloom buffers form their
      chain. */
  predicate Layout(ids: StepIds, bloom: Fbo, levels: seq<Fbo>, n: nat) {
    && Distinct(ids)
    && ids.velocity.read < n && ids.velocity.write < n && ids.pressure.read < n && ids.pressure.write < n
    && ids.dye.read < n && ids.dye.write < n && ids.curl < n && ids.divergence < n
    && BloomChain(ids.dye, bloom, levels, n)
  }

  /** `initBloomFramebuffers` creates the bloom target and then its levels,
      one id after another; all exist among the first `n`, and the bloom
      target is neither dye texture. */
  predicate BloomChain(dye: PairIds, bloom: Fbo, levels: seq<Fbo>, n: nat) {
    && dye.read != bloom.id && dye.write != bloom.id && bloom.id + |levels| < n
    && forall k :: 0 <= k < |levels| ==> levels[k].id == bloom.id + 1 + k
  }

  /** That chain is what bloom needs to draw without feedback: its source
      is not the target, no level is the target, and each level differs
      from the next. */
  lemma BloomChainApart(dye: PairIds, bloom: Fbo, levels: seq<Fbo>, n: nat)
    requires BloomChain(dye, bloom, levels, n)
    ensures dye.read != bloom.id && bloom.id < n
    ensures forall k :: 0 <= k < |levels| ==> levels[k].id < n && levels[k].id != bloom.id
    ensures forall k :: 0 < k < |levels| ==> levels[k - 1].id != levels[k].id
  {
  }

  /** The texture ids after the velocity, pressure and dye pairs have been
      swapped `a`, `b` and `c` times. */
  function SwapIds(ids: StepIds, a: nat, b: nat, c: nat): StepIds {
    StepIds(SwappedTimes(ids.velocity, a), SwappedTimes(ids.pressure, b), SwappedTimes(ids.dye, c),
            ids.curl, ids.divergence)
  }

  /** Swapping pairs keeps the layout: the same eight ids, in other roles. */
  lemma LayoutSwapped(ids: StepIds, bloom: Fbo, levels: seq<Fbo>, n: nat, a: nat, b: nat, c: nat)
    requires Layout(ids, bloom, levels, n)
    ensures Layout(SwapIds(ids, a, b, c), bloom, levels, n)
  {
    DistinctFacts(ids);
    DistinctFromPairs(SwapIds(ids, a, b, c));
  }

  /** Everything `initFramebuffers` creates on a first run, as the
      constructor needs it: the dye and velocity pairs, the solver buffers
      and the bloom buffers, all blank, with blending switched off. */
  method CreateBuffers(gl: Context, c: Config, w: nat, h: nat)
    returns (dye: DoubleFbo, velocity: DoubleFbo, pressure: DoubleFbo, divergence: Fbo, curl: Fbo,
             bloom: Fbo, levels: seq<Fbo>)
    requires gl.Valid() && PositiveResolutions(c) && w > 0 && h > 0
    modifies gl
    ensures gl.Valid() && fresh(dye) && fresh(velocity) && fresh(pressure)
    ensures dye != velocity && dye != pressure && velocity != pressure
    ensures Layout(StepIds(PairOf(velocity), PairOf(pressure), PairOf(dye), curl.id, divergence.id), bloom, levels,
                   gl.nextTexture)
    ensures var sim, dyeRes := Resolution(c.simResolution, w, h), Resolution(c.dyeResolution, w, h);
      && dye.width == dyeRes.width && dye.height == dyeRes.height
      && velocity.width == sim.width && velocity.height == sim.height
      && pressure.width == sim.width && pressure.height == sim.height
      && SolverTargets(divergence, curl, sim, old(gl.nextTexture) + 4)
    ensures BloomTargets(bloom, levels, c, w, h, old(gl.nextTexture) + 8)
    ensures dye.swaps == 0 && velocity.swaps == 0 && pressure.swaps == 0
    ensures ContentOf(gl.Surfaces(), Texture(dye.read.id)) == Blank
    ensures ContentOf(gl.Surfaces(), Texture(velocity.read.id)) == Blank
    ensures ContentOf(gl.Surfaces(), Texture(pressure.read.id)) == Blank
    ensures gl.passes == old(gl.passes) && gl.blend == Off
    ensures gl.nextProgram == old(gl.nextProgram) && gl.compiled == old(gl.compiled)
  {
    var sim := Resolution(c.simResolution, w, h);
    var dyeRes := Resolution(c.dyeResolution, w, h);
    gl.SetBlend(Off);
    var n := gl.nextTexture;
    dye := CreateDoubleFbo(gl, dyeRes.width, dyeRes.height);
    velocity := CreateDoubleFbo(gl, sim.width, sim.height);
    divergence, curl, pressure := CreateSolverBuffers(gl, sim);
    ghost var surfaces := gl.Surfaces();
    bloom, levels := CreateBloomBuffers(gl, c, w, h);
    assert gl.Surfaces() == surfaces;
    var ids := StepIds(PairOf(velocity), PairOf(pressure), PairOf(dye), curl.id, divergence.id);
    assert ids == StepIds(PairIds(n + 2, n + 3), PairIds(n + 6, n + 7), PairIds(n, n + 1), n + 5, n + 4);
    assert bloom.id == n + 8;
    DistinctFromPairs(ids);
  }

  /** `resizeDoubleFBO` with blending off, as `initFramebuffers` calls it:
      the pair's read texture holds its old content, copied when the size
      changed, and every texture that existed before keeps its content. */
  method ResizeCarrying(gl: Context, d: DoubleFbo, w: int, h: int) returns (resized: bool)
    requires gl.Valid() && gl.blend == Off && w > 0 && h > 0 && d.read.id < gl.nextTexture
    modifies gl, d
    ensures gl.Valid() && gl.blend == Off && d.swaps == old(d.swaps)
    ensures gl.nextProgram == old(gl.nextProgram) && gl.compiled == old(gl.compiled)
    ensures resized <==> old(d.width) != w || old(d.height) != h
    ensures d.width == w && d.height == h
    ensures !resized ==> d.read == old(d.read) && d.write == old(d.write) && gl.nextTexture == old(gl.nextTexture)
    ensures resized ==> d.read.id == old(gl.nextTexture) && d.write.id == old(gl.nextTexture) + 1
                        && gl.nextTexture == old(gl.nextTexture) + 2
    ensures ContentOf(gl.Surfaces(), Texture(d.read.id)) ==
      Carried(ContentOf(old(gl.Surfaces()), Texture(old(d.read.id))), resized)
    ensures forall id: nat :: id < old(gl.nextTexture) ==>
      ContentOf(gl.Surfaces(), Texture(id)) == ContentOf(old(gl.Surfaces()), Texture(id))
  {
    resized := d.width != w || d.height != h;
    ResizeDoubleFbo(gl, d, w, h);
  }

  // ---------------------------------------------------------------- bloom

  /** The body of `applyBloom`: nothing when fewer than two levels exist;
      otherwise, with blending off, the prefilter from `source` into
      `destination`, the downsampling walk, the additive upsampling walk,
      and with blending off again the final pass from level 0 into
      `destination`. */
  method DrawBloom(gl: Context, source: Fbo, destination: Fbo, levels: seq<Fbo>, c: Config)
    requires gl.Valid() && source.id < gl.nextTexture && destination.id < gl.nextTexture
    requires forall k :: 0 <= k < |levels| ==> levels[k].id < gl.nextTexture
    requires source.id != destination.id
    requires forall k :: 0 <= k < |levels| ==> levels[k].id != destination.id
    requires forall k :: 0 < k < |levels| ==> levels[k - 1].id != levels[k].id
    modifies gl
    ensures gl.Valid()
    ensures gl.passes == old(gl.passes) + BloomPasses(source.id, destination, levels, BloomUniformsOf(c))
    ensures gl.blend == if |levels| < 2 then old(gl.blend) else Off
    ensures gl.nextTexture == old(gl.nextTexture)
    ensures gl.nextProgram == old(gl.nextProgram) && gl.compiled == old(gl.compiled)
  {
    var n := |levels|;
    if n < 2 {
      return;
    }
    var u := BloomUniformsOf(c);
    gl.SetBlend(Off);
    gl.Blit(BloomPrefilter, u.curve + [u.threshold], [source.id], Texture(destination.id));
    ghost var prefiltered := gl.passes;
    assert prefiltered == old(gl.passes) + [PrefilterPass(source.id, destination, u)];
    DownWalk(gl, destination, levels);
    ghost var down := gl.passes;
    gl.SetBlend(Additive);
    UpWalk(gl, levels);
    ghost var up := gl.passes;
    gl.SetBlend(Off);
    var last := levels[0];
    gl.Blit(BloomFinal, Texel(last) + [u.intensity], [last.id], Texture(destination.id));
    assert gl.passes == up + [FinalPass(levels, destination, u)];
    BloomPassesAfter(old(gl.passes), source.id, destination, levels, u);
  }

  /** Appending the rendering passes to a log, one group at a time. */
  lemma RenderPassesAfter(log: seq<Pass>, s: RenderSettings, dyeRead: nat, bloom: Fbo, levels: seq<Fbo>,
                          u: BloomUniforms, w: real, h: real)
    ensures log + RenderPasses(s, dyeRead, bloom, levels, u, w, h) ==
      log + (if s.bloom then BloomPasses(dyeRead, bloom, levels, u) else [])
      + (if s.transparent then [] else [Pass(Color, [s.backColor.r, s.backColor.g, s.backColor.b, s.backColor.a], [], Screen, Over)])
      + [DisplayPass(s, dyeRead, bloom, w, h)]
  {
  }

  /** Appending the bloom passes to a log, one group at a time. */
  lemma BloomPassesAfter(log: seq<Pass>, source: nat, destination: Fbo, levels: seq<Fbo>, u: BloomUniforms)
    requires |levels| >= 2
    ensures log + BloomPasses(source, destination, levels, u) ==
      log + [PrefilterPass(source, destination, u)] + DownPasses(destination, levels, |levels|)
      + UpPasses(levels, |levels| - 1) + [FinalPass(levels, destination, u)]
  {
  }

  /** The downsampling loop of `applyBloom`: each level in turn is drawn
      from the one before it, the first from the destination. */
  method DownWalk(gl: Context, destination: Fbo, levels: seq<Fbo>)
    requires gl.Valid() && gl.blend == Off && destination.id < gl.nextTexture
    requires forall k :: 0 <= k < |levels| ==> levels[k].id < gl.nextTexture
    requires forall k :: 0 <= k < |levels| ==> levels[k].id != destination.id
    requires forall k :: 0 < k < |levels| ==> levels[k - 1].id != levels[k].id
    modifies gl
    ensures gl.Valid()
    ensures gl.passes == old(gl.passes) + DownPasses(destination, levels, |levels|)
    ensures gl.blend == Off && gl.nextTexture == old(gl.nextTexture)
    ensures gl.nextProgram == old(gl.nextProgram) && gl.compiled == old(gl.compiled)
  {
    var last := destination;
    var i := 0;
    while i < |levels|
      invariant 0 <= i <= |levels| && last == DownSource(destination, levels, i)
      invariant gl.Valid() && gl.blend == Off
      invariant gl.passes == old(gl.passes) + DownPasses(destination, levels, i)
      invariant gl.nextTexture == old(gl.nextTexture)
      invariant gl.nextProgram == old(gl.nextProgram) && gl.compiled == old(gl.compiled)
    {
      var dest := levels[i];
      DownSnoc(destination, levels, i);
      gl.Blit(BloomBlur, [last.texelSizeX, last.texelSizeY], [last.id], Texture(dest.id));
      AppendAssoc(old(gl.passes), DownPasses(destination, levels, i), [BlurPass(last, dest, Off)]);
      last := dest;
      i := i + 1;
    }
  }

  /** The upsampling loop of `applyBloom`: from the second-to-last level
      down to level 0, each level is drawn from the one above it. */
  method UpWalk(gl: Context, levels: seq<Fbo>)
    requires gl.Valid() && gl.blend == Additive && |levels| >= 1
    requires forall k :: 0 <= k < |levels| ==> levels[k].id < gl.nextTexture
    requires forall k :: 0 < k < |levels| ==> levels[k - 1].id != levels[k].id
    modifies gl
    ensures gl.Valid()
    ensures gl.passes == old(gl.passes) + UpPasses(levels, |levels| - 1)
    ensures gl.blend == Additive && gl.nextTexture == old(gl.nextTexture)
    ensures gl.nextProgram == old(gl.nextProgram) && gl.compiled == old(gl.compiled)
  {
    var n := |levels|;
    var last := levels[n - 1];
    var j := n - 2;
    while j >= 0
      invariant -1 <= j <= n - 2 && last == levels[j + 1]
      invariant gl.Valid() && gl.blend == Additive
      invariant gl.passes == old(gl.passes) + UpPasses(levels, n - 2 - j)
      invariant gl.nextTexture == old(gl.nextTexture)
      invariant gl.nextProgram == old(gl.nextProgram) && gl.compiled == old(gl.compiled)
    {
      var baseTex := levels[j];
      gl.Blit(BloomBlur, [last.texelSizeX, last.texelSizeY], [last.id], Texture(baseTex.id));
      UpSnoc(levels, n - 2 - j);
      AppendAssoc(old(gl.passes), UpPasses(levels, n - 2 - j), [BlurPass(last, baseTex, Additive)]);
      last := baseTex;
      j := j - 1;
    }
  }

  // ---------------------------------------------------------------- animation frames

  /** The browser's animation-frame queue as the engine uses it: a request
      returns a new id, which stays pending until its callback runs or it is
      cancelled. */
  class FrameQueue {
    var pending: set<nat>
    var next: nat

    predicate Valid()
      reads this
    {
      forall id :: id in pending ==> id < next
    }

    constructor ()
      ensures Valid() && pending == {} && next == 1
    {
      pending, next := {}, 1;
    }

    /** `requestAnimationFrame`. */
    method Request() returns (id: nat)
      requires Valid()
      modifies this
      ensures Valid() && id == old(next) && id !in old(pending)
      ensures pending == old(pending) + {id} && next == old(next) + 1
    {
      id := next;
      pending := pending + {id};
      next := next + 1;
    }

    /** `cancelAnimationFrame`, and also what the browser does when a frame's
        callback runs: the id is no longer pending. Unknown ids are ignored. */
    method Cancel(id: nat)
      requires Valid()
      modifies this
      ensures Valid() && pending == old(pending) - {id} && next == old(next)
    {
      pending := pending - {id};
    }
  }

  // ---------------------------------------------------------------- the engine

  /** Every variable field of the engine as one value, to say what an
      operation changes and what it leaves alone. */
  datatype State = State(
    config: Config,
    ext: Ext,
    pointer: Pointer,
    splatStack: seq<int>,
    canvasWidth: nat,
    canvasHeight: nat,
    dye: DoubleFbo,
    velocity: DoubleFbo,
    pressure: DoubleFbo,
    divergence: Fbo,
    curl: Fbo,
    bloom: Fbo,
    bloomLevels: seq<Fbo>,
    animationId: nat,
    lastUpdateTime: real,
    colorUpdateTimer: real,
    destroyed: bool)

  /** `FluidSimulation`. There is always exactly one pointer (the constructor
      pushes one and nothing else adds any), so `pointers` is one field. The
      canvas size is also the drawing-buffer size. */
  class FluidSimulation {
    const gl: Context
    const frames: FrameQueue
    const displayMaterial: Material
    var config: Config
    var ext: Ext
    var pointer: Pointer
    var splatStack: seq<int>
    var canvasWidth: nat
    var canvasHeight: nat
    var dye: DoubleFbo
    var velocity: DoubleFbo
    var pressure: DoubleFbo
    var divergence: Fbo
    var curl: Fbo
    var bloom: Fbo
    var bloomLevels: seq<Fbo>
    var animationId: nat
    var lastUpdateTime: real
    var colorUpdateTimer: real
    var destroyed: bool

    function Fields(): State
      reads this
    {
      State(config, ext, pointer, splatStack, canvasWidth, canvasHeight, dye, velocity, pressure,
             divergence, curl, bloom, bloomLevels, animationId, lastUpdateTime, colorUpdateTimer, destroyed)
    }

    /** The texture ids the solver step draws with. */
    function Ids(): StepIds
      reads this, velocity, pressure, dye
    {
      StepIds(PairOf(velocity), PairOf(pressure), PairOf(dye), curl.id, divergence.id)
    }

    predicate Valid()
      reads this, gl, frames, velocity, pressure, dye
    {
      && gl.Valid() && frames.Valid()
      && displayMaterial.gl == gl
      && dye != velocity && dye != pressure && velocity != pressure
      && Layout(Ids(), bloom, bloomLevels, gl.nextTexture)
      && PositiveResolutions(config)
      && canvasWidth > 0 && canvasHeight > 0
    }

    /** Every framebuffer at the size the canvas and the configuration call
        for, with divergence, curl and the bloom buffers new textures from
        id `first` on. */
    predicate Fitted(first: nat)
      requires PositiveResolutions(config) && canvasWidth > 0 && canvasHeight > 0
      reads this, dye, velocity, pressure
    {
      var sim, dyeRes := Resolution(config.simResolution, canvasWidth, canvasHeight),
                         Resolution(config.dyeResolution, canvasWidth, canvasHeight);
      && dye.width == dyeRes.width && dye.height == dyeRes.height
      && velocity.width == sim.width && velocity.height == sim.height
      && pressure.width == sim.width && pressure.height == sim.height
      && first <= divergence.id && SolverTargets(divergence, curl, sim, divergence.id)
      && first <= bloom.id && BloomTargets(bloom, bloomLevels, config, canvasWidth, canvasHeight, bloom.id)
    }

    function StepUniformsFor(dt: real): StepUniforms
      reads this, velocity, dye
    {
      StepUniforms([velocity.texelSizeX, velocity.texelSizeY], [dye.texelSizeX, dye.texelSizeY], dt,
                   config.curl, config.pressure, config.velocityDissipation, config.densityDissipation,
                   ext.supportLinearFiltering)
    }

    /** The uniforms both splat passes share. */
    function Frame(): SplatFrame
      requires canvasHeight > 0
      reads this
    {
      SplatFrame(canvasWidth as real / canvasHeight as real,
                 CorrectRadius(config.splatRadius / 100.0, canvasWidth, canvasHeight).value)
    }

    function ContentOfFbo(f: Fbo): Content
      reads gl
    {
      ContentOf(gl.Surfaces(), Texture(f.id))
    }

    /** The constructor after capability negotiation: one pointer, blending
        off, the dye and velocity pairs and the other framebuffers created
        blank at the sizes the canvas calls for, the display material with
        nothing compiled, and the clock started at `now`. */
    constructor (gl: Context, frames: FrameQueue, config: Config, ext: Ext, w: nat, h: nat,
                 now: real, displayShaderSource: string)
      requires gl.Valid() && frames.Valid() && PositiveResolutions(config) && w > 0 && h > 0
      modifies gl
      ensures Valid()
      ensures this.gl == gl && this.frames == frames && this.config == config && this.ext == ext
      ensures fresh(dye) && fresh(velocity) && fresh(pressure) && fresh(displayMaterial)
      ensures pointer == InitialPointer && splatStack == [] && canvasWidth == w && canvasHeight == h
      ensures animationId == 0 && lastUpdateTime == now && colorUpdateTimer == 0.0 && !destroyed
      ensures displayMaterial.State() == MaterialState(map[], None, None)
      ensures Fitted(old(gl.nextTexture))
      ensures ContentOfFbo(dye.read) == Blank && ContentOfFbo(velocity.read) == Blank
      ensures ContentOfFbo(pressure.read) == Blank
      ensures gl.passes == old(gl.passes) && gl.blend == Off
    {
      var d, v, p, dv, c, b, levels := CreateBuffers(gl, config, w, h);
      this.gl, this.frames, this.config, this.ext := gl, frames, config, ext;
      displayMaterial := new Material(gl, displayShaderSource);
      pointer, splatStack, canvasWidth, canvasHeight := InitialPointer, [], w, h;
      dye, velocity, pressure, divergence, curl, bloom, bloomLevels := d, v, p, dv, c, b, levels;
      animationId, lastUpdateTime, colorUpdateTimer, destroyed := 0, now, 0.0, false;
      new;
    }
  
    // ------------------------------------------------------------ splats

    /** `splat`: the force is drawn into velocity, which is swapped, then the
        colour into dye, which is swapped; both passes use whatever blending
        is in force. */
    method Splat(s: SplatDraw)
      requires Valid()
      modifies gl, velocity, dye
      ensures Valid()
      ensures gl.passes == old(gl.passes) + SplatPasses(old(PairOf(velocity)), old(PairOf(dye)), Frame(), s, old(gl.blend))
      ensures PairOf(velocity) == Swapped(old(PairOf(velocity))) && PairOf(dye) == Swapped(old(PairOf(dye)))
      ensures velocity.swaps == old(velocity.swaps) + 1 && dye.swaps == old(dye.swaps) + 1
      ensures SameShape(velocity) && SameShape(dye)
      ensures gl.nextTexture == old(gl.nextTexture) && SameProgramsAndBlend(gl)
    {
      DistinctFacts(Ids());
      var aspectRatio := canvasWidth as real / canvasHeight as real;
      var radius := CorrectRadius(config.splatRadius / 100.0, canvasWidth, canvasHeight).value;
      gl.Blit(Program.Splat, [aspectRatio, s.x, s.y, s.dx, s.dy, 0.0, radius], [velocity.read.id], Texture(velocity.write.id));
      velocity.Swap();
      gl.Blit(Program.Splat, [aspectRatio, s.x, s.y, s.color.r, s.color.g, s.color.b, radius], [dye.read.id], Texture(dye.write.id));
      dye.Swap();
      DistinctFromPairs(Ids());
    }

    /** `multipleSplats(amount)`: `amount` random splats, the `i`-th drawn
        from `rs[i]`; each swaps velocity and dye once. */
    method MultipleSplats(amount: int, rs: seq<SplatRandoms>)
      requires Valid() && |rs| == Count(amount) && forall i :: 0 <= i < |rs| ==> UnitRandoms(rs[i])
      modifies gl, velocity, dye
      ensures Valid()
      ensures gl.passes == old(gl.passes) +
        MultiSplatPasses(old(PairOf(velocity)), old(PairOf(dye)), Frame(), RandomSplats(config.colorPalette, rs), old(gl.blend))
      ensures PairOf(velocity) == SwappedTimes(old(PairOf(velocity)), |rs|)
      ensures PairOf(dye) == SwappedTimes(old(PairOf(dye)), |rs|)
      ensures velocity.swaps == old(velocity.swaps) + |rs| && dye.swaps == old(dye.swaps) + |rs|
      ensures SameShape(velocity) && SameShape(dye)
      ensures gl.nextTexture == old(gl.nextTexture) && SameProgramsAndBlend(gl)
    {
      ghost var draws := RandomSplats(config.colorPalette, rs);
      ghost var v0, d0, f, blend := PairOf(velocity), PairOf(dye), Frame(), gl.blend;
      var i := 0;
      while i < amount
        invariant 0 <= i <= |rs| && Valid()
        invariant gl.passes == old(gl.passes) + MultiSplatPasses(v0, d0, f, draws[..i], blend)
        invariant PairOf(velocity) == SwappedTimes(v0, i) && PairOf(dye) == SwappedTimes(d0, i)
        invariant velocity.swaps == old(velocity.swaps) + i && dye.swaps == old(dye.swaps) + i
        invariant SameShape(velocity) && SameShape(dye)
        invariant gl.nextTexture == old(gl.nextTexture) && gl.blend == blend && SameProgramsAndBlend(gl)
      {
        var color := GenerateColor(config.colorPalette, rs[i].color);
        var x := rs[i].x;
        var y := rs[i].y;
        var dx := 1000.0 * (rs[i].dx - 0.5);
        var dy := 1000.0 * (rs[i].dy - 0.5);
        assert SplatDraw(x, y, dx, dy, color) == draws[i];
        Splat(SplatDraw(x, y, dx, dy, color));
        MultiSplatStep(v0, d0, f, draws, i, blend);
        AppendAssoc(old(gl.passes), MultiSplatPasses(v0, d0, f, draws[..i], blend),
                    SplatPasses(SwappedTimes(v0, i), SwappedTimes(d0, i), f, draws[i], blend));
        i := i + 1;
      }
      assert draws[..i] == draws;
    }
  
    /** `applyInputs`: pop at most one queued amount and draw that many random
        splats, then splat once at the pointer if it moved, clearing `moved`.
        Nothing in the engine pushes onto the queue, so the first branch is
        only taken for a queue built by other means. */
    method ApplyInputs(rs: seq<SplatRandoms>, colorRandom: real)
      requires Valid() && 0.0 <= colorRandom < 1.0
      requires forall i :: 0 <= i < |rs| ==> UnitRandoms(rs[i])
      requires |splatStack| > 0 ==> |rs| == Count(splatStack[|splatStack| - 1])
      modifies this, gl, velocity, dye
      ensures Valid()
      ensures Fields() == old(Fields()).(splatStack := Popped(old(splatStack)), pointer := old(pointer).(moved := false))
      ensures var draws := InputDraws(old(splatStack), old(pointer), old(config), rs, colorRandom);
        && gl.passes == old(gl.passes) + MultiSplatPasses(old(PairOf(velocity)), old(PairOf(dye)), old(Frame()), draws, old(gl.blend))
        && PairOf(velocity) == SwappedTimes(old(PairOf(velocity)), |draws|)
        && PairOf(dye) == SwappedTimes(old(PairOf(dye)), |draws|)
      ensures SameShape(velocity) && SameShape(dye)
      ensures gl.nextTexture == old(gl.nextTexture) && SameProgramsAndBlend(gl)
    {
      ghost var v0, d0, f, blend := PairOf(velocity), PairOf(dye), Frame(), gl.blend;
      ghost var passes0 := gl.passes;
      ghost var queued := QueuedDraws(splatStack, config, rs);
      ghost var atPointer := PointerDraws(pointer, config, colorRandom);
      ghost var draws := queued + atPointer;
      assert draws == InputDraws(splatStack, pointer, config, rs, colorRandom);
      assert |draws| == |queued| + |atPointer|;
      ApplyQueued(rs);
      ghost var passes1 := gl.passes;
      ghost var v1, d1 := SwappedTimes(v0, |queued|), SwappedTimes(d0, |queued|);
      assert passes1 == passes0 + MultiSplatPasses(v0, d0, f, queued, blend);
      assert PairOf(velocity) == v1 && PairOf(dye) == d1;
      assert Frame() == f && gl.blend == blend;
      ApplyPointer(colorRandom);
      assert gl.passes == passes1 + MultiSplatPasses(v1, d1, f, atPointer, blend);
      assert PairOf(velocity) == SwappedTimes(SwappedTimes(v0, |queued|), |atPointer|);
      assert PairOf(dye) == SwappedTimes(SwappedTimes(d0, |queued|), |atPointer|);
      MultiSplatAppend(v0, d0, f, queued, atPointer, blend);
      SwappedTimesAdd(v0, |queued|, |atPointer|);
      SwappedTimesAdd(d0, |queued|, |atPointer|);
      AppendAssoc(passes0, MultiSplatPasses(v0, d0, f, queued, blend),
                  MultiSplatPasses(SwappedTimes(v0, |queued|), SwappedTimes(d0, |queued|), f, atPointer, blend));
      assert PairOf(velocity) == SwappedTimes(v0, |draws|);
      assert PairOf(dye) == SwappedTimes(d0, |draws|);
      assert gl.passes == passes0 + MultiSplatPasses(v0, d0, f, draws, blend);
    }

    /** The first half of `applyInputs`: the queue pop and its random splats. */
    method ApplyQueued(rs: seq<SplatRandoms>)
      requires Valid()
      requires forall i :: 0 <= i < |rs| ==> UnitRandoms(rs[i])
      requires |splatStack| > 0 ==> |rs| == Count(splatStack[|splatStack| - 1])
      modifies this, gl, velocity, dye
      ensures Valid()
      ensures Fields() == old(Fields()).(splatStack := Popped(old(splatStack)))
      ensures var draws := QueuedDraws(old(splatStack), old(config), rs);
        && gl.passes == old(gl.passes) + MultiSplatPasses(old(PairOf(velocity)), old(PairOf(dye)), old(Frame()), draws, old(gl.blend))
        && PairOf(velocity) == SwappedTimes(old(PairOf(velocity)), |draws|)
        && PairOf(dye) == SwappedTimes(old(PairOf(dye)), |draws|)
      ensures SameShape(velocity) && SameShape(dye)
      ensures gl.nextTexture == old(gl.nextTexture) && SameProgramsAndBlend(gl)
    {
      if |splatStack| > 0 {
        var amount := PopSplatStack();
        MultipleSplats(amount, rs);
      } else {
        assert MultiSplatPasses(PairOf(velocity), PairOf(dye), Frame(), [], gl.blend) == [];
      }
    }

    /** The second half of `applyInputs`: a moved pointer is splatted once and
        marked as no longer moved. */
    method ApplyPointer(colorRandom: real)
      requires Valid() && 0.0 <= colorRandom < 1.0
      modifies this, gl, velocity, dye
      ensures Valid()
      ensures Fields() == old(Fields()).(pointer := old(pointer).(moved := false))
      ensures var draws := PointerDraws(old(pointer), old(config), colorRandom);
        && gl.passes == old(gl.passes) + MultiSplatPasses(old(PairOf(velocity)), old(PairOf(dye)), old(Frame()), draws, old(gl.blend))
        && PairOf(velocity) == SwappedTimes(old(PairOf(velocity)), |draws|)
        && PairOf(dye) == SwappedTimes(old(PairOf(dye)), |draws|)
      ensures SameShape(velocity) && SameShape(dye)
      ensures gl.nextTexture == old(gl.nextTexture) && SameProgramsAndBlend(gl)
    {
      if pointer.moved {
        var p := pointer;
        ghost var v0, d0, f, blend := PairOf(velocity), PairOf(dye), Frame(), gl.blend;
        ClearMoved();
        SplatPointer(p, colorRandom);
        assert MultiSplatPasses(v0, d0, f, [PointerSplat(p, config, colorRandom)], blend)
          == SplatPasses(v0, d0, f, PointerSplat(p, config, colorRandom), blend);
      }
    }

    /** `splatStack.pop()`. */
    method PopSplatStack() returns (amount: int)
      requires Valid() && |splatStack| > 0
      modifies this
      ensures Valid() && amount == old(splatStack[|splatStack| - 1])
      ensures Fields() == old(Fields()).(splatStack := old(splatStack[..|splatStack| - 1]))
    {
      amount := splatStack[|splatStack| - 1];
      splatStack := splatStack[..|splatStack| - 1];
    }

    /** `p.moved = false`. */
    method ClearMoved()
      requires Valid()
      modifies this
      ensures Valid() && Fields() == old(Fields()).(pointer := old(pointer).(moved := false))
    {
      pointer := pointer.(moved := false);
    }

    /** `splatPointer`: a splat at the pointer, pushed by its delta times the
        splat force, in a generated colour. */
    method SplatPointer(p: Pointer, colorRandom: real)
      requires Valid() && 0.0 <= colorRandom < 1.0
      modifies gl, velocity, dye
      ensures Valid()
      ensures gl.passes == old(gl.passes) +
        SplatPasses(old(PairOf(velocity)), old(PairOf(dye)), Frame(), PointerSplat(p, config, colorRandom), old(gl.blend))
      ensures PairOf(velocity) == Swapped(old(PairOf(velocity))) && PairOf(dye) == Swapped(old(PairOf(dye)))
      ensures SameShape(velocity) && SameShape(dye)
      ensures gl.nextTexture == old(gl.nextTexture) && SameProgramsAndBlend(gl)
    {
      Splat(PointerSplat(p, config, colorRandom));
    }

    /** `splatAtPoint`: one splat at the given point and force, in the given
        colour or else a generated one. */
    method SplatAtPoint(x: real, y: real, dx: real, dy: real, color: Option<Rgb>, colorRandom: real)
      requires Valid() && 0.0 <= colorRandom < 1.0
      modifies gl, velocity, dye
      ensures Valid()
      ensures var c := if color.Some? then color.value else GenerateColor(config.colorPalette, colorRandom);
        gl.passes == old(gl.passes) + SplatPasses(old(PairOf(velocity)), old(PairOf(dye)), Frame(),
                                                  SplatDraw(x, y, dx, dy, c), old(gl.blend))
      ensures PairOf(velocity) == Swapped(old(PairOf(velocity))) && PairOf(dye) == Swapped(old(PairOf(dye)))
      ensures SameShape(velocity) && SameShape(dye)
      ensures gl.nextTexture == old(gl.nextTexture) && SameProgramsAndBlend(gl)
    {
      var c := if color.Some? then color.value else GenerateColor(config.colorPalette, colorRandom);
      Splat(SplatDraw(x, y, dx, dy, c));
    }

    /** `addRandomSplats`: `multipleSplats(count)`. */
    method AddRandomSplats(count: int, rs: seq<SplatRandoms>)
      requires Valid() && |rs| == Count(count) && forall i :: 0 <= i < |rs| ==> UnitRandoms(rs[i])
      modifies gl, velocity, dye
      ensures Valid()
      ensures gl.passes == old(gl.passes) +
        MultiSplatPasses(old(PairOf(velocity)), old(PairOf(dye)), Frame(), RandomSplats(config.colorPalette, rs), old(gl.blend))
      ensures PairOf(velocity) == SwappedTimes(old(PairOf(velocity)), |rs|)
      ensures PairOf(dye) == SwappedTimes(old(PairOf(dye)), |rs|)
      ensures SameShape(velocity) && SameShape(dye)
      ensures gl.nextTexture == old(gl.nextTexture) && SameProgramsAndBlend(gl)
    {
      MultipleSplats(count, rs);
    }

    // ------------------------------------------------------------ step

    /** `step(dt)`: with blending off, curl, vorticity confinement, divergence,
        the pressure clear, `PRESSURE_ITERATIONS` Jacobi iterations, gradient
        subtraction, then advection of velocity and of dye. Velocity and dye
        end swapped, pressure swapped once per clear and iteration. */
    method Step(dt: real)
      requires Valid()
      modifies gl, velocity, pressure, dye
      ensures Valid()
      ensures gl.passes == old(gl.passes) + StepPasses(old(Ids()), Iterations(config), old(StepUniformsFor(dt)))
      ensures PairOf(velocity) == Swapped(old(PairOf(velocity))) && PairOf(dye) == Swapped(old(PairOf(dye)))
      ensures PairOf(pressure) == SwappedTimes(Swapped(old(PairOf(pressure))), Iterations(config))
      ensures velocity.swaps == old(velocity.swaps) + 3 && dye.swaps == old(dye.swaps) + 1
      ensures pressure.swaps == old(pressure.swaps) + 1 + Iterations(config)
      ensures SameShape(velocity) && SameShape(pressure) && SameShape(dye)
      ensures gl.nextTexture == old(gl.nextTexture) && gl.blend == Off
      ensures gl.nextProgram == old(gl.nextProgram) && gl.compiled == old(gl.compiled)
    {
      ghost var ids, u, n := Ids(), StepUniformsFor(dt), Iterations(config);
      ghost var passes0 := gl.passes;
      ghost var pre, jac := StepPrologue(ids, u), JacobiPasses(ids.divergence, Swapped(ids.pressure), n, u.velocityTexel);
      ghost var post := StepEpilogue(ids, SwappedTimes(Swapped(ids.pressure), n), u);
      gl.SetBlend(Off);
      StepProject(dt);
      ghost var passes2 := gl.passes;
      assert passes2 == passes0 + pre + jac;
      ghost var v2, p2, d2 := PairOf(velocity), PairOf(pressure), PairOf(dye);
      assert Swapped(v2) == ids.velocity && d2 == ids.dye && p2 == SwappedTimes(Swapped(ids.pressure), n);
      StepAdvect(dt);
      assert StepEpilogue(StepIds(Swapped(v2), p2, d2, curl.id, divergence.id), p2, u) == post;
      assert gl.passes == passes2 + post;
    }

    /** The first five passes of `step` and its Jacobi loop: the velocity
        field is made divergence-free up to the pressure solve. */
    method StepProject(dt: real)
      requires Valid() && gl.blend == Off
      modifies gl, velocity, pressure
      ensures Valid()
      ensures gl.passes == old(gl.passes) + StepPrologue(old(Ids()), old(StepUniformsFor(dt))) +
        JacobiPasses(divergence.id, Swapped(old(PairOf(pressure))), Iterations(config), old(StepUniformsFor(dt)).velocityTexel)
      ensures PairOf(velocity) == Swapped(old(PairOf(velocity)))
      ensures PairOf(pressure) == SwappedTimes(Swapped(old(PairOf(pressure))), Iterations(config))
      ensures velocity.swaps == old(velocity.swaps) + 1 && pressure.swaps == old(pressure.swaps) + 1 + Iterations(config)
      ensures SameShape(velocity) && SameShape(pressure)
      ensures gl.nextTexture == old(gl.nextTexture) && SameProgramsAndBlend(gl)
    {
      StepForces(dt);
      SolvePressure();
    }

    /** The first four passes of `step`. */
    method StepForces(dt: real)
      requires Valid() && gl.blend == Off
      modifies gl, velocity, pressure
      ensures Valid()
      ensures gl.passes == old(gl.passes) + StepPrologue(old(Ids()), old(StepUniformsFor(dt)))
      ensures PairOf(velocity) == Swapped(old(PairOf(velocity))) && PairOf(pressure) == Swapped(old(PairOf(pressure)))
      ensures velocity.swaps == old(velocity.swaps) + 1 && pressure.swaps == old(pressure.swaps) + 1
      ensures SameShape(velocity) && SameShape(pressure)
      ensures gl.nextTexture == old(gl.nextTexture) && SameProgramsAndBlend(gl)
    {
      ghost var ids, u := Ids(), StepUniformsFor(dt);
      StepVorticity(dt);
      StepDivergence();
      assert gl.passes == old(gl.passes) + [CurlPass(ids, u), VorticityPass(ids, u)] + [DivergencePass(ids, u), ClearPass(ids, u)];
    }

    /** Curl, then vorticity confinement into velocity, which is swapped. */
    method StepVorticity(dt: real)
      requires Valid() && gl.blend == Off
      modifies gl, velocity
      ensures Valid()
      ensures gl.passes == old(gl.passes) + [CurlPass(old(Ids()), old(StepUniformsFor(dt))), VorticityPass(old(Ids()), old(StepUniformsFor(dt)))]
      ensures PairOf(velocity) == Swapped(old(PairOf(velocity))) && velocity.swaps == old(velocity.swaps) + 1
      ensures SameShape(velocity)
      ensures gl.nextTexture == old(gl.nextTexture) && SameProgramsAndBlend(gl)
    {
      ghost var ids := Ids();
      DistinctFacts(ids);
      LayoutSwapped(ids, bloom, bloomLevels, gl.nextTexture, 1, 0, 0);
      var texel := [velocity.texelSizeX, velocity.texelSizeY];
      gl.Blit(Program.Curl, texel, [velocity.read.id], Texture(curl.id));
      gl.Blit(Vorticity, texel + [config.curl, dt], [velocity.read.id, curl.id], Texture(velocity.write.id));
      velocity.Swap();
      assert Ids() == SwapIds(ids, 1, 0, 0);
    }

    /** The divergence of the velocity, then the pressure clear into the
        pressure pair, which is swapped. Run after `StepVorticity`, the
        velocity read here is the one written there. */
    method StepDivergence()
      requires Valid() && gl.blend == Off
      modifies gl, pressure
      ensures Valid()
      ensures gl.passes == old(gl.passes) +
        [Pass(Divergence, [velocity.texelSizeX, velocity.texelSizeY], [velocity.read.id], Texture(divergence.id), Off),
         Pass(Clear, [config.pressure], [old(pressure.read.id)], Texture(old(pressure.write.id)), Off)]
      ensures PairOf(pressure) == Swapped(old(PairOf(pressure))) && pressure.swaps == old(pressure.swaps) + 1
      ensures SameShape(pressure)
      ensures gl.nextTexture == old(gl.nextTexture) && SameProgramsAndBlend(gl)
    {
      ghost var ids := Ids();
      DistinctFacts(ids);
      LayoutSwapped(ids, bloom, bloomLevels, gl.nextTexture, 0, 1, 0);
      var texel := [velocity.texelSizeX, velocity.texelSizeY];
      gl.Blit(Divergence, texel, [velocity.read.id], Texture(divergence.id));
      gl.Blit(Clear, [config.pressure], [pressure.read.id], Texture(pressure.write.id));
      pressure.Swap();
      assert Ids() == SwapIds(ids, 0, 1, 0);
    }

    /** The Jacobi loop of `step`: `PRESSURE_ITERATIONS` passes of the
        pressure program, each sampling the divergence and the current
        pressure and swapping the pressure pair. */
    method SolvePressure()
      requires Valid() && gl.blend == Off
      modifies gl, pressure
      ensures Valid()
      ensures gl.passes == old(gl.passes) +
        JacobiPasses(divergence.id, old(PairOf(pressure)), Iterations(config), [velocity.texelSizeX, velocity.texelSizeY])
      ensures PairOf(pressure) == SwappedTimes(old(PairOf(pressure)), Iterations(config))
      ensures pressure.swaps == old(pressure.swaps) + Iterations(config)
      ensures SameShape(pressure)
      ensures gl.nextTexture == old(gl.nextTexture) && SameProgramsAndBlend(gl)
    {
      DistinctFacts(Ids());
      ghost var p0 := PairOf(pressure);
      var texel := [velocity.texelSizeX, velocity.texelSizeY];
      var i := 0;
      while i < config.pressureIterations
        invariant 0 <= i <= Iterations(config)
        invariant Valid() && gl.blend == Off
        invariant gl.passes == old(gl.passes) + JacobiPasses(divergence.id, p0, i, texel)
        invariant PairOf(pressure) == SwappedTimes(p0, i) && pressure.swaps == old(pressure.swaps) + i
        invariant SameShape(pressure)
        invariant gl.nextTexture == old(gl.nextTexture) && SameProgramsAndBlend(gl)
      {
        DistinctFacts(Ids());
        ghost var prev := gl.passes;
        gl.Blit(Pressure, texel, [divergence.id, pressure.read.id], Texture(pressure.write.id));
        pressure.Swap();
        SwappedStep(p0, i);
        AppendAssoc(old(gl.passes), JacobiPasses(divergence.id, p0, i, texel),
                    [Pass(Pressure, texel, [divergence.id, SwappedTimes(p0, i).read], Texture(SwappedTimes(p0, i).write), Off)]);
        DistinctFromPairs(Ids());
        i := i + 1;
      }
    }

    /** The last three passes of `step`. `p` is the pressure pair as the
        Jacobi loop left it. */
    method StepAdvect(dt: real)
      requires Valid() && gl.blend == Off
      modifies gl, velocity, dye
      ensures Valid()
      ensures gl.passes == old(gl.passes) +
        StepEpilogue(StepIds(Swapped(old(PairOf(velocity))), old(PairOf(pressure)), old(PairOf(dye)), curl.id, divergence.id),
                     PairOf(pressure), old(StepUniformsFor(dt)))
      ensures PairOf(velocity) == old(PairOf(velocity)) && PairOf(dye) == Swapped(old(PairOf(dye)))
      ensures velocity.swaps == old(velocity.swaps) + 2 && dye.swaps == old(dye.swaps) + 1
      ensures SameShape(velocity) && SameShape(dye)
      ensures gl.nextTexture == old(gl.nextTexture) && SameProgramsAndBlend(gl)
    {
      DistinctFacts(Ids());
      var texel := [velocity.texelSizeX, velocity.texelSizeY];
      gl.Blit(GradientSubtract, texel, [pressure.read.id, velocity.read.id], Texture(velocity.write.id));
      velocity.Swap();
      var dyeTexel := if ext.supportLinearFiltering then [] else texel;
      gl.Blit(Advection, texel + dyeTexel + [dt, config.velocityDissipation], [velocity.read.id, velocity.read.id],
              Texture(velocity.write.id));
      velocity.Swap();
      dyeTexel := if ext.supportLinearFiltering then [] else [dye.texelSizeX, dye.texelSizeY];
      gl.Blit(Advection, texel + dyeTexel + [dt, config.densityDissipation], [velocity.read.id, dye.read.id],
              Texture(dye.write.id));
      dye.Swap();
      DistinctFromPairs(Ids());
    }

    // ------------------------------------------------------------ rendering

    /** `applyBloom(source, destination)` on the bloom levels with the
        configured threshold, knee and intensity. */
    method ApplyBloom(source: Fbo, destination: Fbo)
      requires Valid() && source.id < gl.nextTexture && destination.id < gl.nextTexture
      requires source.id != destination.id
      requires forall k :: 0 <= k < |bloomLevels| ==> bloomLevels[k].id != destination.id
      modifies gl
      ensures Valid()
      ensures gl.passes == old(gl.passes) + BloomPasses(source.id, destination, bloomLevels, BloomUniformsOf(config))
      ensures gl.blend == if |bloomLevels| < 2 then old(gl.blend) else Off
      ensures gl.nextTexture == old(gl.nextTexture)
      ensures gl.nextProgram == old(gl.nextProgram) && gl.compiled == old(gl.compiled)
    {
      BloomChainApart(PairOf(dye), bloom, bloomLevels, gl.nextTexture);
      DrawBloom(gl, source, destination, bloomLevels, config);
    }

    /** `render(null)`: bloom from the dye into the bloom target when
        enabled; then, with over-blending, the background colour unless the
        canvas is transparent, and the display pass onto the screen. */
    method Render()
      requires Valid()
      modifies gl
      ensures Valid()
      ensures gl.passes == old(gl.passes) + RenderPasses(RenderSettingsOf(config), dye.read.id, bloom, bloomLevels,
                                                         BloomUniformsOf(config), canvasWidth as real, canvasHeight as real)
      ensures gl.blend == Over && gl.nextTexture == old(gl.nextTexture)
      ensures gl.nextProgram == old(gl.nextProgram) && gl.compiled == old(gl.compiled)
    {
      ghost var s := RenderSettingsOf(config);
      if config.bloom {
        BloomChainApart(PairOf(dye), bloom, bloomLevels, gl.nextTexture);
        ApplyBloom(dye.read, bloom);
      }
      ghost var bloomed := gl.passes;
      gl.SetBlend(Over);
      if !config.transparent {
        DrawColor(NormalizeColor(config.backColor));
      }
      DrawDisplay();
      RenderPassesAfter(old(gl.passes), s, dye.read.id, bloom, bloomLevels, BloomUniformsOf(config),
                        canvasWidth as real, canvasHeight as real);
    }

    /** `drawColor(null, color)`: the colour program fills the screen. */
    method DrawColor(color: Rgba)
      requires gl.Valid()
      modifies gl
      ensures gl.Valid()
      ensures gl.passes == old(gl.passes) + [Pass(Color, [color.r, color.g, color.b, color.a], [], Screen, old(gl.blend))]
      ensures gl.blend == old(gl.blend) && gl.nextTexture == old(gl.nextTexture)
      ensures gl.nextProgram == old(gl.nextProgram) && gl.compiled == old(gl.compiled)
    {
      gl.Blit(Color, [color.r, color.g, color.b, color.a], [], Screen);
    }

    /** `drawDisplay(null)`: the display program samples the dye, and the
        bloom when enabled; with shading or bloom it gets uniforms derived
        from the drawing-buffer size. */
    method DrawDisplay()
      requires gl.Valid() && gl.blend == Over
      modifies gl
      ensures gl.Valid()
      ensures gl.passes == old(gl.passes) + [DisplayPass(RenderSettingsOf(config), dye.read.id, bloom,
                                                         canvasWidth as real, canvasHeight as real)]
      ensures gl.blend == Over && gl.nextTexture == old(gl.nextTexture)
      ensures gl.nextProgram == old(gl.nextProgram) && gl.compiled == old(gl.compiled)
    {
      var size := if config.shading || config.bloom then [canvasWidth as real, canvasHeight as real] else [];
      var sources := [dye.read.id] + if config.bloom then [bloom.id] else [];
      gl.Blit(Display, size, sources, Screen);
    }

    // ------------------------------------------------------------ framebuffers and lifecycle

    /** `initFramebuffers` on a running engine: blending off, the dye and
        velocity pairs resized to the resolutions the canvas now calls for
        (each keeping its picture, copied when its size changed), the
        divergence, curl, pressure and bloom buffers created anew. */
    method InitFramebuffers()
      requires Valid() && canvasWidth > 0 && canvasHeight > 0
      modifies this, gl, dye, velocity
      ensures Valid() && fresh(pressure)
      ensures Fields() == old(Fields()).(pressure := pressure, divergence := divergence, curl := curl,
                                         bloom := bloom, bloomLevels := bloomLevels)
      ensures Fitted(old(gl.nextTexture))
      ensures var sim, dyeRes := Resolution(config.simResolution, canvasWidth, canvasHeight),
                                 Resolution(config.dyeResolution, canvasWidth, canvasHeight);
        && ContentOfFbo(dye.read) ==
             Carried(old(ContentOfFbo(dye.read)), old(dye.width) != dyeRes.width || old(dye.height) != dyeRes.height)
        && ContentOfFbo(velocity.read) ==
             Carried(old(ContentOfFbo(velocity.read)), old(velocity.width) != sim.width || old(velocity.height) != sim.height)
      ensures ContentOfFbo(pressure.read) == Blank
      ensures gl.blend == Off && gl.nextProgram == old(gl.nextProgram) && gl.compiled == old(gl.compiled)
    {
      ResizePairs();
      ghost var n1 := gl.nextTexture;
      ghost var dyeSize, velocitySize := (dye.width, dye.height), (velocity.width, velocity.height);
      RecreateSolverBuffers();
      ghost var solver := (divergence, curl, pressure.width, pressure.height);
      InitBloomFramebuffers();
      assert (divergence, curl, pressure.width, pressure.height) == solver;
      assert (dye.width, dye.height) == dyeSize && (velocity.width, velocity.height) == velocitySize;
      assert divergence.id == n1;
    }

    /** The first half of `initFramebuffers`: blending off, then the dye
        and velocity pairs resized, each keeping its picture. */
    method ResizePairs()
      requires Valid() && canvasWidth > 0 && canvasHeight > 0
      modifies gl, dye, velocity
      ensures Valid()
      ensures var sim, dyeRes := Resolution(config.simResolution, canvasWidth, canvasHeight),
                                 Resolution(config.dyeResolution, canvasWidth, canvasHeight);
        && dye.width == dyeRes.width && dye.height == dyeRes.height
        && velocity.width == sim.width && velocity.height == sim.height
        && ContentOfFbo(dye.read) ==
             Carried(old(ContentOfFbo(dye.read)), old(dye.width) != dyeRes.width || old(dye.height) != dyeRes.height)
        && ContentOfFbo(velocity.read) ==
             Carried(old(ContentOfFbo(velocity.read)), old(velocity.width) != sim.width || old(velocity.height) != sim.height)
      ensures dye.swaps == old(dye.swaps) && velocity.swaps == old(velocity.swaps)
      ensures gl.nextTexture >= old(gl.nextTexture)
      ensures gl.blend == Off && gl.nextProgram == old(gl.nextProgram) && gl.compiled == old(gl.compiled)
    {
      DistinctFacts(Ids());
      var sim := Resolution(config.simResolution, canvasWidth, canvasHeight);
      var dyeRes := Resolution(config.dyeResolution, canvasWidth, canvasHeight);
      gl.SetBlend(Off);
      var dyeResized := ResizeCarrying(gl, dye, dyeRes.width, dyeRes.height);
      ghost var dyeContent := ContentOfFbo(dye.read);
      var velocityResized := ResizeCarrying(gl, velocity, sim.width, sim.height);
      assert ContentOfFbo(dye.read) == dyeContent;
      DistinctFromPairs(Ids());
    }

    /** The solver buffers of `initFramebuffers`: divergence, curl and
        pressure created anew, blank, at the simulation resolution. */
    method RecreateSolverBuffers()
      requires Valid() && canvasWidth > 0 && canvasHeight > 0
      modifies this, gl
      ensures Valid() && fresh(pressure)
      ensures Fields() == old(Fields()).(pressure := pressure, divergence := divergence, curl := curl)
      ensures var sim := Resolution(config.simResolution, canvasWidth, canvasHeight);
        && SolverTargets(divergence, curl, sim, old(gl.nextTexture))
        && pressure.read.id == old(gl.nextTexture) + 2 && pressure.write.id == old(gl.nextTexture) + 3
        && pressure.width == sim.width && pressure.height == sim.height
      ensures gl.nextTexture == old(gl.nextTexture) + 4
      ensures ContentOfFbo(pressure.read) == Blank
      ensures gl.passes == old(gl.passes) && SameProgramsAndBlend(gl)
    {
      DistinctFacts(Ids());
      var sim := Resolution(config.simResolution, canvasWidth, canvasHeight);
      var dv, c, p := CreateSolverBuffers(gl, sim);
      ghost var ids := StepIds(PairOf(velocity), PairOf(p), PairOf(dye), c.id, dv.id);
      DistinctFromPairs(ids);
      pressure, divergence, curl := p, dv, c;
      assert Ids() == ids;
    }

    /** `initBloomFramebuffers`: the bloom target and its levels created
        anew at the bloom resolution. */
    method InitBloomFramebuffers()
      requires Valid() && canvasWidth > 0 && canvasHeight > 0
      modifies this, gl
      ensures Valid()
      ensures Fields() == old(Fields()).(bloom := bloom, bloomLevels := bloomLevels)
      ensures BloomTargets(bloom, bloomLevels, config, canvasWidth, canvasHeight, old(gl.nextTexture))
      ensures gl.nextTexture > old(gl.nextTexture)
      ensures gl.passes == old(gl.passes) && SameProgramsAndBlend(gl)
    {
      var b, levels := CreateBloomBuffers(gl, config, canvasWidth, canvasHeight);
      bloom, bloomLevels := b, levels;
    }

    /** `resize`: the canvas takes the size of its bounding rectangle,
        truncated to whole pixels, and the framebuffers are rebuilt unless
        the canvas already had exactly that size. A fractional rectangle
        never equals the whole-pixel canvas, so it rebuilds them every time. */
    method Resize(rectWidth: real, rectHeight: real)
      requires Valid() && rectWidth >= 1.0 && rectHeight >= 1.0
      modifies this, gl, dye, velocity
      ensures Valid()
      ensures Fields() == old(Fields()).(canvasWidth := Trunc(rectWidth), canvasHeight := Trunc(rectHeight),
                                         pressure := pressure, divergence := divergence, curl := curl,
                                         bloom := bloom, bloomLevels := bloomLevels)
      ensures old(canvasWidth) as real == rectWidth && old(canvasHeight) as real == rectHeight ==>
        && Fields() == old(Fields()) && unchanged(dye, velocity)
        && gl.passes == old(gl.passes) && gl.nextTexture == old(gl.nextTexture)
      ensures !(old(canvasWidth) as real == rectWidth && old(canvasHeight) as real == rectHeight) ==>
        && fresh(pressure) && Fitted(old(gl.nextTexture))
        && ContentOfFbo(dye.read) == Carried(old(ContentOfFbo(dye.read)), old(dye.width) != dye.width || old(dye.height) != dye.height)
        && ContentOfFbo(velocity.read) ==
             Carried(old(ContentOfFbo(velocity.read)), old(velocity.width) != velocity.width || old(velocity.height) != velocity.height)
      ensures rectWidth != Trunc(rectWidth) as real || rectHeight != Trunc(rectHeight) as real ==> fresh(pressure)
      ensures gl.nextProgram == old(gl.nextProgram) && gl.compiled == old(gl.compiled)
    {
      if canvasWidth as real != rectWidth || canvasHeight as real != rectHeight {
        canvasWidth, canvasHeight := Trunc(rectWidth), Trunc(rectHeight);
        InitFramebuffers();
      }
    }

    /** `updateKeywords`: the display material switches to the variant for
        the configured SHADING and BLOOM flags, compiling it on first use. */
    method UpdateKeywords()
      requires Valid()
      modifies displayMaterial, gl
      ensures Valid()
      ensures displayMaterial.State() ==
        AfterSetKeywords(old(displayMaterial.State()), KeySum(DisplayKeywords(config.shading, config.bloom)),
                         old(gl.nextProgram))
      ensures gl.nextTexture == old(gl.nextTexture) && gl.passes == old(gl.passes) && gl.blend == old(gl.blend)
    {
      var keywords: seq<string> := [];
      if config.shading {
        keywords := keywords + ["SHADING"];
      }
      if config.bloom {
        keywords := keywords + ["BLOOM"];
      }
      assert keywords == DisplayKeywords(config.shading, config.bloom);
      displayMaterial.SetKeywords(keywords);
    }

    /** `start`: resize, select the display variant, and request the first
        animation frame. */
    method Start(rectWidth: real, rectHeight: real)
      requires Valid() && rectWidth >= 1.0 && rectHeight >= 1.0
      modifies this, gl, dye, velocity, displayMaterial, frames
      ensures Valid()
      ensures canvasWidth == Trunc(rectWidth) && canvasHeight == Trunc(rectHeight)
      ensures displayMaterial.State() ==
        AfterSetKeywords(old(displayMaterial.State()), KeySum(DisplayKeywords(config.shading, config.bloom)),
                         old(gl.nextProgram))
      ensures animationId == old(frames.next) && frames.pending == old(frames.pending) + {animationId}
      ensures frames.next == old(frames.next) + 1
      ensures config == old(config) && destroyed == old(destroyed)
      ensures Fields() == old(Fields()).(canvasWidth := Trunc(rectWidth), canvasHeight := Trunc(rectHeight),
                                         pressure := pressure, divergence := divergence, curl := curl,
                                         bloom := bloom, bloomLevels := bloomLevels, animationId := animationId)
      ensures old(canvasWidth) as real == rectWidth && old(canvasHeight) as real == rectHeight ==>
        && Fields() == old(Fields()).(animationId := animationId) && unchanged(dye, velocity)
        && gl.passes == old(gl.passes) && gl.nextTexture == old(gl.nextTexture)
      ensures !(old(canvasWidth) as real == rectWidth && old(canvasHeight) as real == rectHeight) ==>
        && fresh(pressure) && Fitted(old(gl.nextTexture))
        && ContentOfFbo(dye.read) == Carried(old(ContentOfFbo(dye.read)), old(dye.width) != dye.width || old(dye.height) != dye.height)
        && ContentOfFbo(velocity.read) ==
             Carried(old(ContentOfFbo(velocity.read)), old(velocity.width) != velocity.width || old(velocity.height) != velocity.height)
    {
      Resize(rectWidth, rectHeight);
      ghost var resized := Fields();
      ghost var same := old(canvasWidth) as real == rectWidth && old(canvasHeight) as real == rectHeight;
      assert !same ==> Fitted(old(gl.nextTexture));
      ghost var pictures := (ContentOfFbo(dye.read), ContentOfFbo(velocity.read));
      UpdateKeywords();
      assert (ContentOfFbo(dye.read), ContentOfFbo(velocity.read)) == pictures;
      RequestFrame();
      assert Fields() == resized.(animationId := animationId);
      assert (config, canvasWidth, canvasHeight, dye, velocity, pressure, divergence, curl, bloom, bloomLevels) ==
             (resized.config, resized.canvasWidth, resized.canvasHeight, resized.dye, resized.velocity, resized.pressure,
              resized.divergence, resized.curl, resized.bloom, resized.bloomLevels);
    }

    /** `this.animationId = requestAnimationFrame(step)`: the next frame id
        is recorded and pending; nothing else in the engine changes. */
    method RequestFrame()
      requires Valid()
      modifies this, frames
      ensures Valid()
      ensures Fields() == old(Fields()).(animationId := old(frames.next))
      ensures frames.pending == old(frames.pending) + {animationId} && frames.next == old(frames.next) + 1
    {
      animationId := frames.Request();
    }

    /** `stop`: cancel the pending animation frame. */
    method Stop()
      requires Valid()
      modifies frames
      ensures Valid() && frames.pending == old(frames.pending) - {animationId} && frames.next == old(frames.next)
    {
      frames.Cancel(animationId);
    }

    /** `destroy`: mark the engine destroyed and cancel its frame, so no
        further frame runs an update. */
    method Destroy()
      requires Valid()
      modifies this, frames
      ensures Valid() && destroyed
      ensures Fields() == old(Fields()).(destroyed := true)
      ensures frames.pending == old(frames.pending) - {animationId} && frames.next == old(frames.next)
    {
      destroyed := true;
      Stop();
    }

    // ------------------------------------------------------------ pointer and clocks

    /** `updatePointerMoveDataNormalized`: whatever the id, pointer 0 moves to
        the given texture coordinates. */
    method UpdatePointerMoveDataNormalized(id: int, texX: real, texY: real)
      modifies this
      ensures Fields() == old(Fields()).(pointer := MovedTo(old(pointer), texX, texY, canvasWidth, canvasHeight))
    {
      var dx := CorrectDeltaX(texX - pointer.texcoordX, canvasWidth, canvasHeight);
      var dy := CorrectDeltaY(texY - pointer.texcoordY, canvasWidth, canvasHeight);
      pointer := pointer.(prevTexcoordX := pointer.texcoordX, prevTexcoordY := pointer.texcoordY);
      pointer := pointer.(texcoordX := texX, texcoordY := texY);
      pointer := pointer.(deltaX := dx, deltaY := dy);
      pointer := pointer.(moved := dx != 0.0 || dy != 0.0, down := true);
    }

    /** `updatePointerMoveData`: the same move, from page coordinates over the
        canvas's CSS size. */
    method UpdatePointerMoveData(id: int, posX: real, posY: real, clientWidth: real, clientHeight: real)
      requires clientWidth > 0.0 && clientHeight > 0.0
      modifies this
      ensures var t := TexcoordOf(posX, posY, clientWidth, clientHeight);
        Fields() == old(Fields()).(pointer := MovedTo(old(pointer), t.0, t.1, canvasWidth, canvasHeight))
    {
      UpdatePointerMoveDataNormalized(id, posX / clientWidth, 1.0 - posY / clientHeight);
    }

    /** `updatePointerUpData`. */
    method UpdatePointerUpData()
      modifies this
      ensures Fields() == old(Fields()).(pointer := Released(old(pointer)))
    {
      pointer := pointer.(down := false);
    }

    /** `calcDeltaTime`: the capped step since the last frame; the clock
        moves to `now`. */
    method CalcDeltaTime(now: real) returns (dt: real)
      modifies this
      ensures dt == DeltaTime(old(lastUpdateTime), now)
      ensures Fields() == old(Fields()).(lastUpdateTime := now)
    {
      dt := (now - lastUpdateTime) / 1000.0;
      if MaxDeltaTime < dt {
        dt := MaxDeltaTime;
      }
      lastUpdateTime := now;
    }

    /** `resizeCanvas`: the canvas takes the client size in device pixels;
        the result says whether that changed anything. */
    method ResizeCanvas(clientWidth: nat, clientHeight: nat, devicePixelRatio: real) returns (changed: bool)
      requires devicePixelRatio >= 0.0
      modifies this
      ensures var w, h := ScaleByPixelRatio(clientWidth, devicePixelRatio), ScaleByPixelRatio(clientHeight, devicePixelRatio);
        && (changed <==> old(canvasWidth) != w || old(canvasHeight) != h)
        && Fields() == old(Fields()).(canvasWidth := w, canvasHeight := h)
    {
      var w := ScaleByPixelRatio(clientWidth, devicePixelRatio);
      var h := ScaleByPixelRatio(clientHeight, devicePixelRatio);
      if canvasWidth != w || canvasHeight != h {
        canvasWidth, canvasHeight := w, h;
        return true;
      }
      return false;
    }

    /** `updateColors`: with `COLORFUL` set the timer advances, and when it
        reaches 1 it wraps and the pointer gets a new colour. */
    method UpdateColors(dt: real, colorRandom: real)
      requires 0.0 <= colorRandom < 1.0
      modifies this
      ensures var u := ColorUpdate(old(config), old(pointer), old(colorUpdateTimer), ColorAdvance(old(config), dt), colorRandom);
        Fields() == old(Fields()).(pointer := u.0, colorUpdateTimer := u.1)
    {
      if !config.colorful {
        return;
      }
      var timer := colorUpdateTimer + ColorAdvance(config, dt);
      if timer >= 1.0 {
        timer := Wrap(timer, 0.0, 1.0);
        pointer := pointer.(color := GenerateColor(config.colorPalette, colorRandom));
      }
      colorUpdateTimer := timer;
    }

    // ------------------------------------------------------------ the frame loop

    /** `update`: the clock, a resize when the canvas's device-pixel size
        changed, the colour timer, the queued and pointer splats, one
        simulation step and the render. The frame ends with the render
        passes of the state it leaves. `now`, the client size, the pixel
        ratio and the random draws are what the browser supplies. */
    method Update(now: real, clientWidth: nat, clientHeight: nat, devicePixelRatio: real,
                  colorRandom: real, rs: seq<SplatRandoms>, pointerRandom: real)
      requires Valid() && devicePixelRatio >= 0.0
      requires ScaleByPixelRatio(clientWidth, devicePixelRatio) > 0 && ScaleByPixelRatio(clientHeight, devicePixelRatio) > 0
      requires 0.0 <= colorRandom < 1.0 && 0.0 <= pointerRandom < 1.0
      requires forall i :: 0 <= i < |rs| ==> UnitRandoms(rs[i])
      requires |splatStack| > 0 ==> |rs| == Count(splatStack[|splatStack| - 1])
      modifies this, gl, dye, velocity, pressure
      ensures Valid()
      ensures canvasWidth == ScaleByPixelRatio(clientWidth, devicePixelRatio)
      ensures canvasHeight == ScaleByPixelRatio(clientHeight, devicePixelRatio)
      ensures var colored := ColorUpdate(old(config), old(pointer), old(colorUpdateTimer),
                                         ColorAdvance(old(config), DeltaTime(old(lastUpdateTime), now)), colorRandom);
        Fields() == old(Fields()).(lastUpdateTime := now, canvasWidth := canvasWidth, canvasHeight := canvasHeight,
                                   pointer := colored.0.(moved := false), colorUpdateTimer := colored.1,
                                   splatStack := Popped(old(splatStack)), pressure := pressure,
                                   divergence := divergence, curl := curl, bloom := bloom, bloomLevels := bloomLevels)
      ensures old(canvasWidth) != canvasWidth || old(canvasHeight) != canvasHeight ==>
        fresh(pressure) && Fitted(old(gl.nextTexture))
      ensures old(canvasWidth) == canvasWidth && old(canvasHeight) == canvasHeight ==>
        && Fields() == old(Fields()).(lastUpdateTime := now, pointer := pointer, colorUpdateTimer := colorUpdateTimer,
                                      splatStack := splatStack)
        && SameShape(dye) && SameShape(velocity) && SameShape(pressure) && gl.nextTexture == old(gl.nextTexture)
      ensures gl.blend == Over
      ensures var r := RenderPasses(RenderSettingsOf(config), dye.read.id, bloom, bloomLevels, BloomUniformsOf(config),
                                    canvasWidth as real, canvasHeight as real);
        |r| <= |gl.passes| && gl.passes[|gl.passes| - |r|..] == r
    {
      var dt := Prepare(now, clientWidth, clientHeight, devicePixelRatio, colorRandom);
      ghost var resized := old(canvasWidth) != canvasWidth || old(canvasHeight) != canvasHeight;
      assert resized ==> Fitted(old(gl.nextTexture));
      ghost var prepared := Fields();
      assert prepared.splatStack == old(splatStack);
      StepAndRender(dt, rs, pointerRandom);
      assert Fields() == prepared.(splatStack := Popped(old(splatStack)), pointer := prepared.pointer.(moved := false));
      assert resized ==> Fitted(old(gl.nextTexture));
    }

    /** The second half of `update`: the inputs, one step and the render.
        Among the engine's fields only the queue and the pointer's `moved`
        flag change, no pair changes size, and the frame ends with the
        render passes of the state it leaves. */
    method StepAndRender(dt: real, rs: seq<SplatRandoms>, pointerRandom: real)
      requires Valid() && 0.0 <= pointerRandom < 1.0
      requires forall i :: 0 <= i < |rs| ==> UnitRandoms(rs[i])
      requires |splatStack| > 0 ==> |rs| == Count(splatStack[|splatStack| - 1])
      modifies this, gl, dye, velocity, pressure
      ensures Valid()
      ensures Fields() == old(Fields()).(splatStack := Popped(old(splatStack)), pointer := old(pointer).(moved := false))
      ensures SameShape(velocity) && SameShape(pressure) && SameShape(dye)
      ensures gl.nextTexture == old(gl.nextTexture) && gl.blend == Over
      ensures var r := RenderPasses(RenderSettingsOf(config), dye.read.id, bloom, bloomLevels, BloomUniformsOf(config),
                                    canvasWidth as real, canvasHeight as real);
        |r| <= |gl.passes| && gl.passes[|gl.passes| - |r|..] == r
    {
      Advance(dt, rs, pointerRandom);
      ghost var advanced := gl.passes;
      Render();
      ghost var r := RenderPasses(RenderSettingsOf(config), dye.read.id, bloom, bloomLevels, BloomUniformsOf(config),
                                  canvasWidth as real, canvasHeight as real);
      assert gl.passes[|advanced|..] == r;
    }

    /** The first half of `update`: the clock, the canvas size, the
        framebuffers rebuilt exactly when that size changed (the dye and
        velocity pictures carried over), and the colour timer. */
    method Prepare(now: real, clientWidth: nat, clientHeight: nat, devicePixelRatio: real, colorRandom: real)
      returns (dt: real)
      requires Valid() && devicePixelRatio >= 0.0
      requires ScaleByPixelRatio(clientWidth, devicePixelRatio) > 0 && ScaleByPixelRatio(clientHeight, devicePixelRatio) > 0
      requires 0.0 <= colorRandom < 1.0
      modifies this, gl, dye, velocity
      ensures Valid() && dt == DeltaTime(old(lastUpdateTime), now)
      ensures canvasWidth == ScaleByPixelRatio(clientWidth, devicePixelRatio)
      ensures canvasHeight == ScaleByPixelRatio(clientHeight, devicePixelRatio)
      ensures var colored := ColorUpdate(old(config), old(pointer), old(colorUpdateTimer), ColorAdvance(old(config), dt), colorRandom);
        Fields() == old(Fields()).(lastUpdateTime := now, canvasWidth := canvasWidth, canvasHeight := canvasHeight,
                                   pointer := colored.0, colorUpdateTimer := colored.1, pressure := pressure,
                                   divergence := divergence, curl := curl, bloom := bloom, bloomLevels := bloomLevels)
      ensures old(canvasWidth) != canvasWidth || old(canvasHeight) != canvasHeight ==>
        && fresh(pressure) && Fitted(old(gl.nextTexture))
        && ContentOfFbo(dye.read) == Carried(old(ContentOfFbo(dye.read)), old(dye.width) != dye.width || old(dye.height) != dye.height)
        && ContentOfFbo(velocity.read) ==
             Carried(old(ContentOfFbo(velocity.read)), old(velocity.width) != velocity.width || old(velocity.height) != velocity.height)
      ensures old(canvasWidth) == canvasWidth && old(canvasHeight) == canvasHeight ==>
        && pressure == old(pressure) && divergence == old(divergence) && curl == old(curl)
        && bloom == old(bloom) && bloomLevels == old(bloomLevels) && unchanged(dye, velocity)
        && gl.passes == old(gl.passes) && gl.nextTexture == old(gl.nextTexture)
    {
      dt := CalcDeltaTime(now);
      FitCanvas(clientWidth, clientHeight, devicePixelRatio);
      ghost var fitted := Fields();
      ghost var resized := old(canvasWidth) != canvasWidth || old(canvasHeight) != canvasHeight;
      assert fitted.pointer == old(pointer) && fitted.colorUpdateTimer == old(colorUpdateTimer);
      assert fitted.config == old(config);
      assert resized ==> Fitted(old(gl.nextTexture));
      UpdateColors(dt, colorRandom);
      assert Fields() == fitted.(pointer := pointer, colorUpdateTimer := colorUpdateTimer);
      assert resized ==> Fitted(old(gl.nextTexture));
    }

    /** `if (this.resizeCanvas()) this.initFramebuffers()`: the canvas takes
        the device-pixel client size, and the framebuffers are rebuilt, the
        dye and velocity pictures carried over, exactly when that changed it. */
    method FitCanvas(clientWidth: nat, clientHeight: nat, devicePixelRatio: real)
      requires Valid() && devicePixelRatio >= 0.0
      requires ScaleByPixelRatio(clientWidth, devicePixelRatio) > 0 && ScaleByPixelRatio(clientHeight, devicePixelRatio) > 0
      modifies this, gl, dye, velocity
      ensures Valid()
      ensures canvasWidth == ScaleByPixelRatio(clientWidth, devicePixelRatio)
      ensures canvasHeight == ScaleByPixelRatio(clientHeight, devicePixelRatio)
      ensures Fields() == old(Fields()).(canvasWidth := canvasWidth, canvasHeight := canvasHeight, pressure := pressure,
                                         divergence := divergence, curl := curl, bloom := bloom, bloomLevels := bloomLevels)
      ensures old(canvasWidth) != canvasWidth || old(canvasHeight) != canvasHeight ==>
        && fresh(pressure) && Fitted(old(gl.nextTexture))
        && ContentOfFbo(dye.read) == Carried(old(ContentOfFbo(dye.read)), old(dye.width) != dye.width || old(dye.height) != dye.height)
        && ContentOfFbo(velocity.read) ==
             Carried(old(ContentOfFbo(velocity.read)), old(velocity.width) != velocity.width || old(velocity.height) != velocity.height)
      ensures old(canvasWidth) == canvasWidth && old(canvasHeight) == canvasHeight ==>
        && Fields() == old(Fields()) && unchanged(dye, velocity)
        && gl.passes == old(gl.passes) && gl.nextTexture == old(gl.nextTexture)
    {
      var changed := ResizeCanvas(clientWidth, clientHeight, devicePixelRatio);
      if changed {
        InitFramebuffers();
      }
    }

    /** The middle of `update`: the queued and pointer splats, then one
        simulation step on the pairs as the splats left them. */
    method Advance(dt: real, rs: seq<SplatRandoms>, pointerRandom: real)
      requires Valid() && 0.0 <= pointerRandom < 1.0
      requires forall i :: 0 <= i < |rs| ==> UnitRandoms(rs[i])
      requires |splatStack| > 0 ==> |rs| == Count(splatStack[|splatStack| - 1])
      modifies this, gl, dye, velocity, pressure
      ensures Valid()
      ensures Fields() == old(Fields()).(splatStack := Popped(old(splatStack)), pointer := old(pointer).(moved := false))
      ensures var draws := InputDraws(old(splatStack), old(pointer), old(config), rs, pointerRandom);
        var k := |draws|;
        && gl.passes == old(gl.passes)
             + MultiSplatPasses(old(PairOf(velocity)), old(PairOf(dye)), old(Frame()), draws, old(gl.blend))
             + StepPasses(SwapIds(old(Ids()), k, 0, k), Iterations(config), old(StepUniformsFor(dt)))
        && PairOf(velocity) == Swapped(SwappedTimes(old(PairOf(velocity)), k))
        && PairOf(dye) == Swapped(SwappedTimes(old(PairOf(dye)), k))
        && PairOf(pressure) == SwappedTimes(Swapped(old(PairOf(pressure))), Iterations(config))
      ensures SameShape(velocity) && SameShape(pressure) && SameShape(dye)
      ensures gl.nextTexture == old(gl.nextTexture) && gl.blend == Off
    {
      ghost var passes0, ids0, u0 := gl.passes, Ids(), StepUniformsFor(dt);
      ApplyInputs(rs, pointerRandom);
      ghost var passes1 := gl.passes;
      ghost var k := |InputDraws(old(splatStack), old(pointer), old(config), rs, pointerRandom)|;
      assert Ids() == SwapIds(ids0, k, 0, k);
      assert StepUniformsFor(dt) == u0;
      Step(dt);
      assert gl.passes == passes1 + StepPasses(SwapIds(ids0, k, 0, k), Iterations(config), u0);
    }

    /** The `step` callback of `start`, run when frame `id` fires: the frame
        is consumed; a destroyed engine stops there, a live one updates and
        requests the next frame. */
    method OnFrame(id: nat, now: real, clientWidth: nat, clientHeight: nat, devicePixelRatio: real,
                   colorRandom: real, rs: seq<SplatRandoms>, pointerRandom: real)
      requires Valid() && id in frames.pending && devicePixelRatio >= 0.0
      requires ScaleByPixelRatio(clientWidth, devicePixelRatio) > 0 && ScaleByPixelRatio(clientHeight, devicePixelRatio) > 0
      requires 0.0 <= colorRandom < 1.0 && 0.0 <= pointerRandom < 1.0
      requires forall i :: 0 <= i < |rs| ==> UnitRandoms(rs[i])
      requires |splatStack| > 0 ==> |rs| == Count(splatStack[|splatStack| - 1])
      modifies this, gl, dye, velocity, pressure, frames
      ensures Valid()
      ensures old(destroyed) ==>
        && Fields() == old(Fields()) && gl.passes == old(gl.passes)
        && frames.pending == old(frames.pending) - {id} && frames.next == old(frames.next)
      ensures !old(destroyed) ==>
        && lastUpdateTime == now && !destroyed
        && animationId == old(frames.next) && frames.pending == old(frames.pending) - {id} + {animationId}
        && frames.next == old(frames.next) + 1
      ensures !old(destroyed) ==>
        && canvasWidth == ScaleByPixelRatio(clientWidth, devicePixelRatio)
        && canvasHeight == ScaleByPixelRatio(clientHeight, devicePixelRatio)
        && var colored := ColorUpdate(old(config), old(pointer), old(colorUpdateTimer),
                                      ColorAdvance(old(config), DeltaTime(old(lastUpdateTime), now)), colorRandom);
           Fields() == old(Fields()).(lastUpdateTime := now, canvasWidth := canvasWidth, canvasHeight := canvasHeight,
                                      pointer := colored.0.(moved := false), colorUpdateTimer := colored.1,
                                      splatStack := Popped(old(splatStack)), pressure := pressure,
                                      divergence := divergence, curl := curl, bloom := bloom, bloomLevels := bloomLevels,
                                      animationId := animationId)
      ensures !old(destroyed) && (old(canvasWidth) != canvasWidth || old(canvasHeight) != canvasHeight) ==>
        fresh(pressure) && Fitted(old(gl.nextTexture))
      ensures !old(destroyed) && old(canvasWidth) == canvasWidth && old(canvasHeight) == canvasHeight ==>
        && Fields() == old(Fields()).(lastUpdateTime := now, pointer := pointer, colorUpdateTimer := colorUpdateTimer,
                                      splatStack := splatStack, animationId := animationId)
        && SameShape(dye) && SameShape(velocity) && SameShape(pressure) && gl.nextTexture == old(gl.nextTexture)
      ensures !old(destroyed) ==>
        && gl.blend == Over
        && var r := RenderPasses(RenderSettingsOf(config), dye.read.id, bloom, bloomLevels, BloomUniformsOf(config),
                                 canvasWidth as real, canvasHeight as real);
           |r| <= |gl.passes| && gl.passes[|gl.passes| - |r|..] == r
    {
      frames.Cancel(id);
      if destroyed {
        return;
      }
      Update(now, clientWidth, clientHeight, devicePixelRatio, colorRandom, rs, pointerRandom);
      ghost var updated := Fields();
      RequestFrame();
      assert Fields() == updated.(animationId := animationId);
      assert (config, dye, bloom, bloomLevels, canvasWidth, canvasHeight) ==
             (updated.config, updated.dye, updated.bloom, updated.bloomLevels, updated.canvasWidth, updated.canvasHeight);
    }
  }

  /** Why every format must be present: `initFramebuffers` dereferences all
      three render formats. */
  predicate FormatsPresent(e: Ext) {
    e.formatRgba.Some? && e.formatRg.Some? && e.formatR.Some?
  }

  /** `new FluidSimulation(canvas, config)`: the merged configuration, the
      WebGL negotiation (failing without a context, or when a render format
      is missing and the framebuffers cannot be built), the downgrade, the
      framebuffers on a `w` by `h` drawing buffer, the clock at `now`, and
      with `AUTO_SPLATS` 5 to 9 random splats drawn with blending off. */
  method Create(platform: Platform, overrides: Overrides, w: nat, h: nat, now: real, displayShaderSource: string,
                autoRandom: real, rs: seq<SplatRandoms>)
    returns (r: Result<FluidSimulation, InitError>)
    requires PositiveResolutions(Merge(DefaultConfig, overrides)) && w > 0 && h > 0
    requires 0.0 <= autoRandom < 1.0 && |rs| == AutoSplatCount(autoRandom)
    requires forall i :: 0 <= i < |rs| ==> UnitRandoms(rs[i])
    ensures Negotiate(platform).Failure? ==> r == Failure(WebGlNotSupported)
    ensures Negotiate(platform).Success? && !FormatsPresent(Negotiate(platform).value) ==> r == Failure(MissingTextureFormat)
    ensures r.Success? <==> Negotiate(platform).Success? && FormatsPresent(Negotiate(platform).value)
    ensures r.Success? ==>
      var sim, e := r.value, Negotiate(platform).value;
      && fresh(sim) && fresh(sim.gl) && fresh(sim.frames) && sim.Valid()
      && Initial(sim, Downgrade(Merge(DefaultConfig, overrides), e.supportLinearFiltering), e, w, h, now)
    ensures r.Success? && r.value.config.autoSplats ==>
      var sim := r.value;
      sim.gl.passes == MultiSplatPasses(SwappedTimes(PairOf(sim.velocity), |rs|), SwappedTimes(PairOf(sim.dye), |rs|),
                                        sim.Frame(), RandomSplats(sim.config.colorPalette, rs), Off)
    ensures r.Success? && !r.value.config.autoSplats ==> r.value.gl.passes == []
  {
    var negotiated := Negotiate(platform);
    if negotiated.Failure? {
      return Failure(WebGlNotSupported);
    }
    var e := negotiated.value;
    var config := Downgrade(Merge(DefaultConfig, overrides), e.supportLinearFiltering);
    if !FormatsPresent(e) {
      return Failure(MissingTextureFormat);
    }
    var sim := Build(config, e, w, h, now, displayShaderSource);
    if config.autoSplats {
      sim.MultipleSplats(AutoSplatCount(autoRandom), rs);
    }
    return Success(sim);
  }

  /** The engine's own fields as construction leaves them, whatever has
      been drawn since. */
  predicate Initial(sim: FluidSimulation, config: Config, e: Ext, w: nat, h: nat, now: real)
    reads sim, sim.frames, sim.gl
  {
    && sim.ext == e && sim.config == config
    && sim.pointer == InitialPointer && sim.splatStack == [] && sim.canvasWidth == w && sim.canvasHeight == h
    && sim.animationId == 0 && sim.lastUpdateTime == now && sim.colorUpdateTimer == 0.0 && !sim.destroyed
    && sim.frames.pending == {} && sim.gl.blend == Off
  }

  /** The engine on a new context and frame queue, as the constructor leaves
      it before any splat. */
  method Build(config: Config, e: Ext, w: nat, h: nat, now: real, displayShaderSource: string)
    returns (sim: FluidSimulation)
    requires PositiveResolutions(config) && w > 0 && h > 0
    ensures fresh(sim) && fresh(sim.gl) && fresh(sim.frames) && fresh(sim.dye) && fresh(sim.velocity) && sim.Valid()
    ensures Initial(sim, config, e, w, h, now) && sim.gl.passes == []
  {
    var gl := new Context();
    var frames := new FrameQueue();
    sim := new FluidSimulation(gl, frames, config, e, w, h, now, displayShaderSource);
  }
}
