# Ink-blob fluid engine and dot-grid background, modelled in Dafny

This project models the two pieces of the portfolio site that hold real
control logic.

**The `FluidSimulation` engine** (`InkBlobCursor/fluidSimulation.ts`) is the
host side of a WebGL Navier–Stokes fluid.

- It merges its configuration with the defaults.
- It negotiates render-texture formats and downgrades the configuration when
  float textures cannot be filtered linearly.
- It keeps a pool of framebuffers:
  - ping-pong pairs that are swapped after each pass;
  - a copying resize;
  - a chain of ever-halving bloom levels.
- It caches display-shader variants by a sum of keyword hashes.
- It tracks one pointer, a colour timer and a queue of pending splat amounts.
- Every animation frame runs the clock, a resize check, the colour timer, the
  queued and pointer splats, one solver step and the render.

The GPU arithmetic lives in GLSL and is not modelled. Each draw call is a
`Pass` value:

- the program;
- the scalar uniforms it reads;
- the textures it samples;
- the target it draws into;
- the blend state.

The context (`Gl.Context`) logs the passes in order. What a texture holds is
the symbolic term of the passes that produced it (`Gl.Content`), obtained by
replaying the log. This is what lets the model state pass counts, pass order,
swap counts, the absence of feedback loops (a pass never samples its own
target) and the data flow through one solver step.

**The `DotGrid` background** (`DotGrid.tsx`):

- lays out dots every 40 pixels;
- prunes the page's shared ripple queue while its head has expired;
- paints each dot with a size and opacity grown by the mouse and by the
  ripples;
- joins the close pairs of the dots near the mouse with lines.

Sine/cosine drift, `Math.sqrt`, clocks and random numbers are inputs.

Modules, one file each:

- `Common` (`common.dfy`): Option/Result and the JavaScript number operations
  (ToInt32, `>>`, `Math.round`, the truncating `%`).
- `Colors` (`colors.dfy`): HSV to RGB, `generateColor`, `normalizeColor`,
  `wrap`.
- `Capabilities` (`capabilities.dfy`): the configuration, its merge, the
  format fallback chain, `initWebGL`'s negotiation and downgrade.
- `Gl` (`gl.dfy`): passes, symbolic texture contents, the context class.
- `Shaders` (`shaders.dfy`): `hashCode`, the `#define` prefixing, the material
  class and its variant cache.
- `Framebuffers` (`framebuffers.dfy`): `getResolution`, the `DoubleFbo` class,
  the resizes, the bloom chain.
- `Passes` (`passes.dfy`): the pass sequences of `step`, `applyBloom`,
  `splat`/`multipleSplats` and `render` as functions, with their lemmas.
- `Simulation` (`simulation.dfy`): the `FluidSimulation` class, its pointer,
  its clocks and its frame loop.
- `DotGrid` (`dotgrid.dfy`): the grid, the ripple queue, the paints, the
  nearby dots, the connection lines and the `Background` class.

Numbers are exact reals, so there is no floating-point rounding. Integer
effects the code relies on are written out: `hash |= 0` wraps to 32 bits,
`>>` truncates, `Math.round` and `Math.floor` round, and JavaScript's `%`
truncates.

## Model

In the source column, `fluidSimulation.ts` stands for
`src/components/InkBlobCursor/fluidSimulation.ts` and `DotGrid.tsx` for
`src/components/DotGrid.tsx`.

| member | source | states |
|---|---|---|
| Common.ToInt32 | src/components/InkBlobCursor/fluidSimulation.ts:516 | `x \| 0` gives a signed 32-bit value congruent to `x` modulo 2^32, and `x` itself when it is already in range |
| Common.ToInt32Congruent | src/components/InkBlobCursor/fluidSimulation.ts:515-516 | values congruent modulo 2^32 wrap to the same 32-bit integer |
| Common.ShrBounds | src/components/InkBlobCursor/fluidSimulation.ts:953-954 | `x >> k` of a non-negative 32-bit size lies between 0 and `x` |
| Common.ShrStep | src/components/InkBlobCursor/fluidSimulation.ts:953-954 | one more bit of shift halves the previous result, rounding down |
| Common.Round | src/components/InkBlobCursor/fluidSimulation.ts:838-839 | `Math.round` lands within one half of its argument, with halves going up |
| Common.RoundMonotonic | src/components/InkBlobCursor/fluidSimulation.ts:838-839 | `Math.round` is monotonic, so the long side is never rounded below the short side |
| Common.JsRem | src/components/InkBlobCursor/fluidSimulation.ts:540 | JavaScript `%` takes the dividend's sign: within (-m, 0] for a negative dividend, [0, m) otherwise |
| Common.Trunc | src/components/InkBlobCursor/fluidSimulation.ts:1122 | truncation toward zero lies within one unit of the value, on the zero side |
| Common.TruncMulBounds | src/components/InkBlobCursor/fluidSimulation.ts:1122 | truncating a non-negative quotient `a / r` loses less than one `r` of `a`, and nothing when `a < r` |
| Common.FmodBounds | src/components/InkBlobCursor/fluidSimulation.ts:1122 | `a % r` for `a >= 0 < r` lies in [0, r), is at most `a`, and is `a` when `a < r` |
| Colors.Sector | src/components/InkBlobCursor/fluidSimulation.ts:535-540 | the sector `floor(6h) % 6` lies in (-6, 6), and is non-negative for a non-negative hue |
| Colors.Fraction | src/components/InkBlobCursor/fluidSimulation.ts:536 | the position within the sector lies in [0, 1) |
| Colors.ChannelBounds | src/components/InkBlobCursor/fluidSimulation.ts:537-539 | for `s` in [0, 1] and `v >= 0` the intermediates are ordered `p <= q, t <= v` |
| Colors.SectorExtremes | src/components/InkBlobCursor/fluidSimulation.ts:540-548 | in each of the six sectors the brightest channel is `v` and the darkest `p` |
| Colors.HsvExtremes | src/components/InkBlobCursor/fluidSimulation.ts:533-550 | for a non-negative sector the brightest channel of `HSVtoRGB` is `v`, the darkest `v(1-s)`, and the third lies between them |
| Colors.NegativeSectorIsBlack | src/components/InkBlobCursor/fluidSimulation.ts:540-547 | a hue whose sector comes out negative matches no case and gives black |
| Colors.GenerateColor | src/components/InkBlobCursor/fluidSimulation.ts:521-531 | with a non-empty palette: some palette entry scaled by 0.15; otherwise a colour whose channels span exactly [0, 0.15] |
| Colors.NormalizeColor | src/components/InkBlobCursor/fluidSimulation.ts:1278-1280 | alpha is 1, multiplying the channels by 255 gives the input back, and a 0..255 colour maps into 0..1 |
| Colors.WrapInRange | src/components/InkBlobCursor/fluidSimulation.ts:1119-1123 | `wrap` of a value at least `min` lands in [min, max), never above the value, and leaves an in-range value unchanged |
| Capabilities.Merge | src/components/InkBlobCursor/fluidSimulation.ts:603 | merging no overrides gives the defaults back |
| Capabilities.MergeIdempotent | src/components/InkBlobCursor/fluidSimulation.ts:603 | merging the same overrides again changes nothing |
| Capabilities.MergeOverridesWin | src/components/InkBlobCursor/fluidSimulation.ts:603 | for each of the 26 keys, a value the caller gives wins and a key left out keeps its default |
| Capabilities.FallbackChain | src/components/InkBlobCursor/fluidSimulation.ts:672-682 | the chain starts at the requested format: R16F → RG16F → RGBA16F, and any other format has no fallback |
| Capabilities.GetSupportedFormat | src/components/InkBlobCursor/fluidSimulation.ts:672-682 | the first supported format along the chain; null exactly when no format on the chain is supported; terminates |
| Capabilities.Negotiate | src/components/InkBlobCursor/fluidSimulation.ts:617-662 | fails exactly when neither WebGL 2 nor WebGL 1 exists; WebGL 2 uses half floats and probes the RGBA16F, RG16F and R16F chains; on WebGL 1 all three formats are one RGBA probe and the texel type is `HALF_FLOAT_OES` with the extension, `UNSIGNED_BYTE` without; linear filtering is what the extension says |
| Capabilities.Downgrade | src/components/InkBlobCursor/fluidSimulation.ts:664-669 | with linear filtering nothing changes; without it dye resolution becomes 512 and shading, bloom and sunrays go off; nothing else changes and nothing is switched on |
| Capabilities.DowngradeCanRaiseDyeResolution | src/components/InkBlobCursor/fluidSimulation.ts:664-665 | a configured dye resolution of 256 is raised to 512 by the downgrade |
| Shaders.Utf16 | src/components/InkBlobCursor/fluidSimulation.ts:515 | `charCodeAt` reads a character of the Basic Multilingual Plane as one unit, its code point, and any other as a high then a low surrogate; every unit is below 0x10000 |
| Shaders.SurrogatePairDecodes | src/components/InkBlobCursor/fluidSimulation.ts:515 | the surrogate pair of a character beyond U+FFFF decodes back to that character |
| Shaders.CodeUnits | src/components/InkBlobCursor/fluidSimulation.ts:512-515 | `s.length` counts code units, at least one per character, each below 0x10000 |
| Shaders.BmpCodeUnits | src/components/InkBlobCursor/fluidSimulation.ts:512-515 | a string within the Basic Multilingual Plane has one code unit per character, equal to its code point |
| Shaders.HashOf | src/components/InkBlobCursor/fluidSimulation.ts:511-519 | the hash of every string is a signed 32-bit integer |
| Shaders.HashCode | src/components/InkBlobCursor/fluidSimulation.ts:511-519 | the loop computes `HashOf(s)` (0 for the empty string) and stays within 32 bits |
| Shaders.HashStepIsLinear | src/components/InkBlobCursor/fluidSimulation.ts:515-516 | `(h << 5) - h + c` wrapped is `31h + c` reduced to 32 bits, whatever the shift wraps |
| Shaders.HashUnitsPolynomial | src/components/InkBlobCursor/fluidSimulation.ts:513-518 | folding the steps over any code units is their base-31 polynomial reduced to signed 32 bits |
| Shaders.HashIsJavaHash | src/components/InkBlobCursor/fluidSimulation.ts:511-519 | `hashCode(s)` is Java's `String.hashCode`: the base-31 polynomial of the string's UTF-16 code units (a surrogate pair for each character beyond U+FFFF), reduced to signed 32 bits; within the Basic Multilingual Plane the units are the code points |
| Shaders.KeySumAppend | src/components/InkBlobCursor/fluidSimulation.ts:761-762 | the key of two keyword lists joined is the sum of their keys |
| Shaders.KeySumPermutation | src/components/InkBlobCursor/fluidSimulation.ts:761-762 | any reordering of the same keywords gives the same key |
| Shaders.VariantKey | src/components/InkBlobCursor/fluidSimulation.ts:761-762 | the key loop computes the unwrapped sum of the keyword hashes |
| Shaders.DefinesAppend | src/components/InkBlobCursor/fluidSimulation.ts:705-706 | the `#define` prefix of two lists joined is the two prefixes concatenated |
| Shaders.ShaderText | src/components/InkBlobCursor/fluidSimulation.ts:704-708 | the compiled text ends with the source; without keywords (or with none) it is the source; otherwise it starts with `#define` of the first keyword |
| Shaders.PrefixKeywords | src/components/InkBlobCursor/fluidSimulation.ts:704-708 | the `forEach` loop and concatenation build exactly `ShaderText`: one `#define k` line per keyword, in order, then the source |
| Shaders.AfterSetKeywords | src/components/InkBlobCursor/fluidSimulation.ts:760-772 | the key is added to the cache and no existing entry is replaced; a miss stores the new program; the key's program becomes active; uniforms are refetched only when the active program changes |
| Shaders.SetKeywordsIdempotent | src/components/InkBlobCursor/fluidSimulation.ts:760-772 | setting the same keywords again, in any order, leaves programs, active program and uniforms unchanged |
| Shaders.Material.constructor | src/components/InkBlobCursor/fluidSimulation.ts:752-759 | a new material has no programs, no active program and no uniforms |
| Shaders.Material.SetKeywords | src/components/InkBlobCursor/fluidSimulation.ts:760-772 | the cache becomes `AfterSetKeywords` of the old one; the prefixed source is compiled exactly on a miss; no texture or pass changes |
| Shaders.DisplayKeywords | src/components/InkBlobCursor/fluidSimulation.ts:983-986 | `SHADING` is present exactly when shading is on, `BLOOM` exactly when bloom is on, and nothing else |
| Shaders.HashOfShading | src/components/InkBlobCursor/fluidSimulation.ts:511-519 | `hashCode("SHADING")` is -1523179638 |
| Shaders.HashOfBloom | src/components/InkBlobCursor/fluidSimulation.ts:511-519 | `hashCode("BLOOM")` is 63294947 |
| Shaders.DisplayKeySum | src/components/InkBlobCursor/fluidSimulation.ts:983-987 | a display variant's key is the hash of `SHADING` when shading is on plus that of `BLOOM` when bloom is on |
| Shaders.DisplayKeysDistinct | src/components/InkBlobCursor/fluidSimulation.ts:983-987 | two display variants share a cache key only when they are the same variant, so the four get four different keys |
| Gl.NewFbo | src/components/InkBlobCursor/fluidSimulation.ts:860-868 | a framebuffer keeps its size, and its texel size is `1/w, 1/h` |
| Gl.Inputs | src/components/InkBlobCursor/fluidSimulation.ts:869-873 | a pass sees the current contents of the textures it attaches, in sampler order |
| Gl.Apply | src/components/InkBlobCursor/fluidSimulation.ts:818-831 | a draw replaces (or, with blending, blends over) its target's content and leaves every other target alone |
| Gl.ReplaySnoc | src/components/InkBlobCursor/fluidSimulation.ts:818-831 | drawing one more pass applies it to what the earlier passes left |
| Gl.ReplayAppend | src/components/InkBlobCursor/fluidSimulation.ts:818-831 | drawing two pass sequences in turn is drawing their concatenation |
| Gl.ReplayUntouched | src/components/InkBlobCursor/fluidSimulation.ts:818-831 | a target no pass draws into keeps its content |
| Gl.Context.constructor | src/components/InkBlobCursor/fluidSimulation.ts:619-625 | a new context has no textures, no passes, no programs and blending off |
| Gl.Context.CreateFbo | src/components/InkBlobCursor/fluidSimulation.ts:844-875 | a fresh texture id of the given size with texel size `1/w, 1/h`, reading as cleared; no pass is logged |
| Gl.Context.SetBlend | src/components/InkBlobCursor/fluidSimulation.ts:1259-1262 | only the blend state changes |
| Gl.Context.Blit | src/components/InkBlobCursor/fluidSimulation.ts:818-831 | exactly one pass is appended, carrying the current blend state |
| Gl.Context.CompileProgram | src/components/InkBlobCursor/fluidSimulation.ts:702-728 | a new program id, with the compiled source recorded |
| Framebuffers.GetResolution | src/components/InkBlobCursor/fluidSimulation.ts:834-842 | the short side is `round(res)` and the long side `round(res * aspect)`, oriented like the drawing buffer; none for a zero-sided buffer |
| Framebuffers.GetResolutionOrientation | src/components/InkBlobCursor/fluidSimulation.ts:834-842 | the chosen size has the buffer's orientation, and its short side is `round(res)` |
| Framebuffers.DoubleFbo.constructor | src/components/InkBlobCursor/fluidSimulation.ts:877-888 | the pair's read and write are the two buffers given; its size is the given size; its texel size is the first buffer's |
| Framebuffers.DoubleFbo.Swap | src/components/InkBlobCursor/fluidSimulation.ts:889 | read and write are exchanged; size and texel size are kept |
| Framebuffers.SwapTwice | src/components/InkBlobCursor/fluidSimulation.ts:889 | two swaps restore the pair |
| Framebuffers.CreateDoubleFbo | src/components/InkBlobCursor/fluidSimulation.ts:877-891 | two fresh, blank framebuffers of the same size; the pair's texel size is the first one's |
| Framebuffers.ResizeFbo | src/components/InkBlobCursor/fluidSimulation.ts:893-899 | a fresh framebuffer of the new size into which one copy pass draws the old texture; with blending off it holds exactly that copy |
| Framebuffers.ResizeDoubleFbo | src/components/InkBlobCursor/fluidSimulation.ts:901-910 | an unchanged size leaves the target untouched; otherwise read becomes a resized copy of the old read, write is fresh, and the texel sizes are `1/w, 1/h` |
| Framebuffers.LevelCountFromShape | src/components/InkBlobCursor/fluidSimulation.ts:952-958 | from level `i` on, the loop adds levels only while fewer than the iteration count exist and each is at least 2 × 2, and it stops at the first smaller one |
| Framebuffers.BloomChainShape | src/components/InkBlobCursor/fluidSimulation.ts:951-958 | at most `BLOOM_ITERATIONS` levels, each at least 2 × 2; stopping early means the next level would be too small |
| Framebuffers.LevelsHalve | src/components/InkBlobCursor/fluidSimulation.ts:953-954 | each bloom level is the previous one halved, rounding down |
| Framebuffers.CreateBloomLevels | src/components/InkBlobCursor/fluidSimulation.ts:951-958 | one fresh framebuffer per level; level `k` is sized `res >> (k + 1)`; the count is `LevelCount` |
| Passes.JacobiShape | src/components/InkBlobCursor/fluidSimulation.ts:1216-1220 | `n` Jacobi passes; pass `i` samples the divergence and the pair's read after `i` swaps, and draws into that pair's write |
| Passes.StepPassCount | src/components/InkBlobCursor/fluidSimulation.ts:1179-1251 | one step draws `PRESSURE_ITERATIONS + 7` passes, and exactly those after the first four use the pressure program |
| Passes.StepNoFeedback | src/components/InkBlobCursor/fluidSimulation.ts:1179-1251 | with eight distinct textures, no pass of the step samples its own target |
| Passes.JacobiReplay | src/components/InkBlobCursor/fluidSimulation.ts:1212-1220 | after `n` iterations the pair's current read holds the `n`-times iterated pressure, and nothing outside the pair changed |
| Passes.JacobiStep | src/components/InkBlobCursor/fluidSimulation.ts:1216-1220 | one more Jacobi iteration keeps that invariant |
| Passes.PressurePass | src/components/InkBlobCursor/fluidSimulation.ts:1217-1219 | one Jacobi pass draws pressure from divergence and current pressure into write, and touches nothing else |
| Passes.AfterCurl | src/components/InkBlobCursor/fluidSimulation.ts:1183-1187 | the curl texture gets the curl of the velocity; velocity, pressure and dye are untouched |
| Passes.AfterVorticity | src/components/InkBlobCursor/fluidSimulation.ts:1189-1196 | the velocity write gets the confinement of velocity and curl; the curl is untouched |
| Passes.AfterDivergence | src/components/InkBlobCursor/fluidSimulation.ts:1199-1203 | the divergence texture gets the divergence of the confined velocity |
| Passes.AfterClear | src/components/InkBlobCursor/fluidSimulation.ts:1205-1209 | the pressure write gets the scaled old pressure; divergence and velocity are untouched |
| Passes.PrologueReplay | src/components/InkBlobCursor/fluidSimulation.ts:1183-1210 | after the first four passes: curl, confined velocity, its divergence and the cleared pressure are in place, and the dye is untouched |
| Passes.AfterGradient | src/components/InkBlobCursor/fluidSimulation.ts:1222-1227 | the velocity read gets the confined velocity minus the pressure gradient |
| Passes.AfterVelocityAdvection | src/components/InkBlobCursor/fluidSimulation.ts:1230-1241 | the velocity write gets the projected velocity advected by itself |
| Passes.AfterDyeAdvection | src/components/InkBlobCursor/fluidSimulation.ts:1244-1249 | the dye write gets the old dye advected by the new velocity |
| Passes.EpilogueReplay | src/components/InkBlobCursor/fluidSimulation.ts:1222-1250 | what the last three passes leave, from the solved pressure and the confined velocity; divergence and pressure are untouched |
| Passes.StepDataflow | src/components/InkBlobCursor/fluidSimulation.ts:1179-1251 | the step's data flow: the divergence is written before the Jacobi loop reads it; the gradient uses the pressure after `n` iterations; the advected velocity and dye come from the projected velocity |
| Passes.DownSnoc | src/components/InkBlobCursor/fluidSimulation.ts:1322-1328 | one more downsampling iteration blurs the previous level (first the destination) into the next |
| Passes.UpSnoc | src/components/InkBlobCursor/fluidSimulation.ts:1333-1340 | one more upsampling iteration adds level `n-1-j` into level `n-2-j` |
| Passes.BloomOrder | src/components/InkBlobCursor/fluidSimulation.ts:1304-1348 | with fewer than 2 levels nothing is drawn; otherwise `2n + 1` passes: prefilter, downsample 0..n-1, additive upsample n-2..0, final into the destination |
| Passes.BloomNoFeedback | src/components/InkBlobCursor/fluidSimulation.ts:1304-1348 | with distinct bloom textures no bloom pass samples its own target |
| Passes.MultiSplatShape | src/components/InkBlobCursor/fluidSimulation.ts:1145-1171 | `k` splats draw `2k` passes, alternating velocity and dye on the pairs as swapped so far; none samples its own target |
| Passes.SwappedTimesAdd | src/components/InkBlobCursor/fluidSimulation.ts:889 | `a` swaps then `b` swaps are `a + b` swaps |
| Passes.MultiSplatAppend | src/components/InkBlobCursor/fluidSimulation.ts:1145-1154 | two batches of splats are one batch; the second starts on the pairs as the first left them |
| Passes.MultiSplatSnoc | src/components/InkBlobCursor/fluidSimulation.ts:1145-1154 | one more splat appends its two passes on the pairs as swapped by the splats before it |
| Passes.RenderShape | src/components/InkBlobCursor/fluidSimulation.ts:1253-1270 | the screen is drawn once or twice and last by the display pass; the background comes first exactly when not transparent; all other passes are bloom passes, present only with bloom on |
| Simulation.CorrectDeltaShortSide | src/components/InkBlobCursor/fluidSimulation.ts:1060-1070 | on a canvas with two positive sides the delta along the longer axis is kept and the other is scaled by short/long |
| Simulation.ZeroWidthHidesHorizontalMoves | src/components/InkBlobCursor/fluidSimulation.ts:1060-1064 | on a zero-width canvas a purely horizontal move is never registered as moved |
| Simulation.CorrectRadius | src/components/InkBlobCursor/fluidSimulation.ts:1173-1177 | the radius is scaled by the aspect ratio when the canvas is wider than tall and kept otherwise; a non-negative radius is never reduced; a zero height with a non-zero width has no finite result |
| Simulation.MoveTracksPosition | src/components/InkBlobCursor/fluidSimulation.ts:1022-1032 | a move registers exactly when the position changed; prev becomes the old current; the pointer is down; id and colour are kept |
| Simulation.Released | src/components/InkBlobCursor/fluidSimulation.ts:1047-1049 | pointer up changes only `down`, to false |
| Simulation.TexcoordOf | src/components/InkBlobCursor/fluidSimulation.ts:1039-1040 | positions inside the element map into [0, 1] with y flipped: the top edge gives 1 and the bottom edge 0 |
| Simulation.DeltaTime | src/components/InkBlobCursor/fluidSimulation.ts:1084-1090 | the elapsed seconds capped at 0.016666; negative exactly when the clock went back |
| Simulation.ScaleByPixelRatio | src/components/InkBlobCursor/fluidSimulation.ts:1103-1106 | the floor of the size times the pixel ratio; a ratio of 0 counts as 1 |
| Simulation.ColorTick | src/components/InkBlobCursor/fluidSimulation.ts:1108-1116 | the timer advances, recolours exactly when it reaches 1, and is then wrapped below 1, shrinking by at least 1 |
| Simulation.WrapAboveOne | src/components/InkBlobCursor/fluidSimulation.ts:1111-1112 | wrapping a timer of at least 1 into [0, 1) takes off at least 1 |
| Simulation.ColorTimerStaysInUnit | src/components/InkBlobCursor/fluidSimulation.ts:1108-1116 | a timer in [0, 1) stays in [0, 1) for any non-negative advance |
| Simulation.RandomSplat | src/components/InkBlobCursor/fluidSimulation.ts:1146-1152 | a random splat gets a generated colour, a position in [0, 1)² and a force in [-500, 500)² |
| Simulation.RandomSplats | src/components/InkBlobCursor/fluidSimulation.ts:1145-1154 | one splat per loop iteration, each from its own random draws |
| Simulation.AutoSplatCount | src/components/InkBlobCursor/fluidSimulation.ts:612-614 | construction with `AUTO_SPLATS` adds between 5 and 9 splats |
| Simulation.Popped | src/components/InkBlobCursor/fluidSimulation.ts:1126-1128 | `pop` removes the last entry of a non-empty stack |
| Simulation.MultiSplatStep | src/components/InkBlobCursor/fluidSimulation.ts:1146-1153 | one more loop iteration appends one splat's passes and swaps both pairs once |
| Simulation.Resolution | src/components/InkBlobCursor/fluidSimulation.ts:834-842 | for a positive resolution and buffer both chosen sides are at least 1 |
| Simulation.CreateSolverBuffers | src/components/InkBlobCursor/fluidSimulation.ts:936-938 | divergence and curl are the next two new textures and the pressure pair the two after, all of the simulation size; pressure reads blank |
| Simulation.CreateBloomBuffers | src/components/InkBlobCursor/fluidSimulation.ts:943-959 | the bloom target at the bloom resolution, then `LevelCount` halving levels with consecutive ids |
| Simulation.BloomChainApart | src/components/InkBlobCursor/fluidSimulation.ts:950-958 | the bloom target is not the dye, no level is the target, and neighbouring levels differ |
| Simulation.LayoutSwapped | src/components/InkBlobCursor/fluidSimulation.ts:889 | swapping pairs keeps the texture layout, with the ids only changing roles |
| Simulation.CreateBuffers | src/components/InkBlobCursor/fluidSimulation.ts:912-959 | a first `initFramebuffers`: blending off; dye and velocity pairs at their resolutions; divergence and curl as new textures of the simulation size; the bloom target at the bloom resolution followed by its `LevelCount` halving levels; all blank, with eight distinct ids |
| Simulation.ResizeCarrying | src/components/InkBlobCursor/fluidSimulation.ts:901-910 | with blending off the pair's read holds its old content, copied exactly when the size changed, and older textures keep theirs |
| Simulation.DrawBloom | src/components/InkBlobCursor/fluidSimulation.ts:1305-1347 | draws exactly `BloomPasses` and leaves blending off when it drew anything |
| Simulation.DownWalk | src/components/InkBlobCursor/fluidSimulation.ts:1321-1328 | the downsampling loop draws `DownPasses` |
| Simulation.UpWalk | src/components/InkBlobCursor/fluidSimulation.ts:1330-1340 | the additive upsampling loop draws `UpPasses` |
| Simulation.FrameQueue.Request | src/components/InkBlobCursor/fluidSimulation.ts:1000 | `requestAnimationFrame` returns a new id, which becomes pending |
| Simulation.FrameQueue.Cancel | src/components/InkBlobCursor/fluidSimulation.ts:1004 | `cancelAnimationFrame` makes the id no longer pending, and ignores unknown ids |
| Simulation.FluidSimulation.constructor | src/components/InkBlobCursor/fluidSimulation.ts:601-611 | one pointer, an empty splat queue, blank framebuffers that fit the canvas (dye, velocity and pressure at their resolutions, divergence and curl new at the simulation size, the bloom target and its `LevelCount` levels at the bloom resolution), a display material with nothing compiled, the clock at `now`, not destroyed |
| Simulation.FluidSimulation.Splat | src/components/InkBlobCursor/fluidSimulation.ts:1156-1171 | the force pass into velocity, a velocity swap, the colour pass into dye, a dye swap; both passes carry the aspect ratio `width / height` and `correctRadius(SPLAT_RADIUS / 100)` |
| Simulation.FluidSimulation.MultipleSplats | src/components/InkBlobCursor/fluidSimulation.ts:1145-1154 | `amount` random splats; velocity and dye each swapped once per splat |
| Simulation.FluidSimulation.ApplyInputs | src/components/InkBlobCursor/fluidSimulation.ts:1125-1136 | at most one queue entry is popped and splatted; the pointer is splatted once if it moved and is left unmoved; nothing else in the engine changes |
| Simulation.FluidSimulation.ApplyQueued | src/components/InkBlobCursor/fluidSimulation.ts:1126-1128 | pop one amount, if any, and draw that many random splats |
| Simulation.FluidSimulation.ApplyPointer | src/components/InkBlobCursor/fluidSimulation.ts:1130-1135 | a moved pointer is splatted once and marked unmoved |
| Simulation.FluidSimulation.PopSplatStack | src/components/InkBlobCursor/fluidSimulation.ts:1127 | returns and removes the last queue entry |
| Simulation.FluidSimulation.ClearMoved | src/components/InkBlobCursor/fluidSimulation.ts:1132 | only the pointer's `moved` flag changes |
| Simulation.FluidSimulation.SplatPointer | src/components/InkBlobCursor/fluidSimulation.ts:1138-1143 | one splat at the pointer with force `delta * SPLAT_FORCE` and a generated colour |
| Simulation.FluidSimulation.SplatAtPoint | src/components/InkBlobCursor/fluidSimulation.ts:1051-1054 | one splat in the given colour, or else a generated one |
| Simulation.FluidSimulation.AddRandomSplats | src/components/InkBlobCursor/fluidSimulation.ts:1056-1058 | the same as `multipleSplats(count)` |
| Simulation.FluidSimulation.Step | src/components/InkBlobCursor/fluidSimulation.ts:1179-1251 | blending off, then exactly `StepPasses`; velocity is swapped 3 times, pressure `1 + PRESSURE_ITERATIONS` times and dye once; sizes are kept |
| Simulation.FluidSimulation.StepProject | src/components/InkBlobCursor/fluidSimulation.ts:1181-1220 | the four prologue passes, then the Jacobi passes on the cleared pressure pair |
| Simulation.FluidSimulation.StepForces | src/components/InkBlobCursor/fluidSimulation.ts:1183-1210 | curl, vorticity, divergence and clear; velocity and pressure swapped once each |
| Simulation.FluidSimulation.StepVorticity | src/components/InkBlobCursor/fluidSimulation.ts:1183-1197 | the curl pass, then vorticity into the velocity write and a velocity swap |
| Simulation.FluidSimulation.StepDivergence | src/components/InkBlobCursor/fluidSimulation.ts:1199-1210 | the divergence of the current velocity read, then the pressure clear and a pressure swap |
| Simulation.FluidSimulation.SolvePressure | src/components/InkBlobCursor/fluidSimulation.ts:1212-1220 | exactly `PRESSURE_ITERATIONS` pressure passes (none for a non-positive count), one pressure swap after each |
| Simulation.FluidSimulation.StepAdvect | src/components/InkBlobCursor/fluidSimulation.ts:1222-1250 | gradient subtraction and velocity advection (two velocity swaps), then dye advection (one dye swap) |
| Simulation.FluidSimulation.ApplyBloom | src/components/InkBlobCursor/fluidSimulation.ts:1304-1348 | draws exactly `BloomPasses` with the configured curve, threshold and intensity |
| Simulation.FluidSimulation.Render | src/components/InkBlobCursor/fluidSimulation.ts:1253-1270 | draws exactly `RenderPasses` and leaves over-blending on |
| Simulation.FluidSimulation.DrawColor | src/components/InkBlobCursor/fluidSimulation.ts:1272-1276 | one colour pass onto the screen |
| Simulation.FluidSimulation.DrawDisplay | src/components/InkBlobCursor/fluidSimulation.ts:1282-1302 | one display pass sampling the dye, and the bloom when enabled |
| Simulation.FluidSimulation.InitFramebuffers | src/components/InkBlobCursor/fluidSimulation.ts:912-959 | dye and velocity are resized and keep their picture (copied when the size changed); pressure is a new blank pair and divergence and curl new textures, at the simulation size; the bloom target and its `LevelCount` halving levels are new, at the bloom resolution; no other field changes |
| Simulation.FluidSimulation.ResizePairs | src/components/InkBlobCursor/fluidSimulation.ts:922-934 | blending off, then dye and velocity resized to their resolutions, each keeping its picture |
| Simulation.FluidSimulation.RecreateSolverBuffers | src/components/InkBlobCursor/fluidSimulation.ts:936-938 | divergence, curl and the pressure pair are the next four new textures, at the simulation resolution; pressure reads blank; no other field changes |
| Simulation.FluidSimulation.InitBloomFramebuffers | src/components/InkBlobCursor/fluidSimulation.ts:943-959 | the bloom target is the next new texture at the bloom resolution, followed by `LevelCount` levels of halving sizes with consecutive ids; no other field changes |
| Simulation.FluidSimulation.Resize | src/components/InkBlobCursor/fluidSimulation.ts:1012-1019 | the canvas takes the rectangle's size truncated to whole pixels; a rectangle exactly the canvas's size changes nothing and draws nothing; any other, including every fractional one, rebuilds the framebuffers to fit the new canvas, with dye and velocity keeping their picture |
| Simulation.FluidSimulation.UpdateKeywords | src/components/InkBlobCursor/fluidSimulation.ts:983-988 | the display material switches to the `SHADING`/`BLOOM` variant, compiling it on first use |
| Simulation.FluidSimulation.Start | src/components/InkBlobCursor/fluidSimulation.ts:992-1001 | the canvas takes the truncated rectangle size; when that size is unchanged no buffer or picture changes and nothing is drawn, and otherwise the buffers are rebuilt to fit it with dye and velocity keeping their picture; the display variant is selected; the next frame id is recorded and pending; pointer, queue, clock, colour timer, configuration and `destroyed` are kept |
| Simulation.FluidSimulation.RequestFrame | src/components/InkBlobCursor/fluidSimulation.ts:998-1000 | the next frame id is recorded and pending; nothing else in the engine changes |
| Simulation.FluidSimulation.Stop | src/components/InkBlobCursor/fluidSimulation.ts:1003-1005 | the recorded frame is no longer pending, and the next id to be handed out is unchanged |
| Simulation.FluidSimulation.Destroy | src/components/InkBlobCursor/fluidSimulation.ts:1007-1010 | only the `destroyed` flag changes, and the recorded frame is cancelled without changing the next id |
| Simulation.FluidSimulation.UpdatePointerMoveDataNormalized | src/components/InkBlobCursor/fluidSimulation.ts:1022-1032 | whatever the id, the one pointer moves to the given coordinates; nothing else changes |
| Simulation.FluidSimulation.UpdatePointerMoveData | src/components/InkBlobCursor/fluidSimulation.ts:1035-1045 | the same move, from page coordinates over the client size |
| Simulation.FluidSimulation.UpdatePointerUpData | src/components/InkBlobCursor/fluidSimulation.ts:1047-1049 | only the pointer's `down` changes |
| Simulation.FluidSimulation.CalcDeltaTime | src/components/InkBlobCursor/fluidSimulation.ts:1084-1090 | returns the capped step, and the clock moves to `now` |
| Simulation.FluidSimulation.ResizeCanvas | src/components/InkBlobCursor/fluidSimulation.ts:1092-1101 | the canvas takes the device-pixel client size; the result is true exactly when that size differs |
| Simulation.FluidSimulation.UpdateColors | src/components/InkBlobCursor/fluidSimulation.ts:1108-1117 | the pointer and the timer become `ColorUpdate` of the old ones; no other field changes |
| Simulation.ColorUpdateCases | src/components/InkBlobCursor/fluidSimulation.ts:1108-1117 | without `COLORFUL` nothing changes; otherwise the timer is the `ColorTick` of `dt * COLOR_UPDATE_SPEED`, and the pointer takes a generated colour exactly when that tick wraps, keeping everything else |
| Simulation.FluidSimulation.Update | src/components/InkBlobCursor/fluidSimulation.ts:1074-1082 | the clock is at `now`; the canvas has the device-pixel size; the pointer and colour timer are `ColorUpdate` of the old ones, with `moved` cleared; the queue is popped; when the size changed the buffers are rebuilt to fit it, and otherwise no buffer is recreated or reshaped and no texture created; the frame ends with the render passes |
| Simulation.FluidSimulation.Prepare | src/components/InkBlobCursor/fluidSimulation.ts:1075-1078 | returns the capped step; the canvas has the device-pixel size; pointer and timer are `ColorUpdate` of the old ones; when the size changed the buffers are rebuilt to fit it with dye and velocity keeping their picture, and otherwise the buffers, the pass log and the texture count are untouched |
| Simulation.FluidSimulation.FitCanvas | src/components/InkBlobCursor/fluidSimulation.ts:1076 | the canvas has the device-pixel size; when it changed the buffers are rebuilt to fit it with dye and velocity keeping their picture, and otherwise nothing else changes |
| Simulation.FluidSimulation.Advance | src/components/InkBlobCursor/fluidSimulation.ts:1079-1080 | the pass log grows by the input splats' passes followed by one step's passes on the ids those swaps leave; velocity and dye are swapped once per splat and once more by the step, pressure once plus once per Jacobi iteration; only the queue and the pointer's `moved` change among the engine's fields |
| Simulation.FluidSimulation.StepAndRender | src/components/InkBlobCursor/fluidSimulation.ts:1079-1081 | the queue is popped and `moved` cleared, nothing else among the engine's fields changes, no pair changes size, and the pass log ends with the render passes |
| Simulation.FluidSimulation.OnFrame | src/components/InkBlobCursor/fluidSimulation.ts:995-999 | the fired frame is consumed; a destroyed engine changes and draws nothing more and requests no new frame; a live one has every effect of `Update` (clock, device-pixel canvas, `ColorUpdate` of pointer and timer, popped queue, buffers fitted after a resize and kept in shape otherwise, the render passes at the end of the log) and records the next frame id as pending |
| Simulation.Create | src/components/InkBlobCursor/fluidSimulation.ts:601-615 | fails without WebGL or with a missing render format; otherwise the merged and downgraded configuration, the initial state, and with `AUTO_SPLATS` exactly the 5–9 random splats drawn with blending off |
| Simulation.Build | src/components/InkBlobCursor/fluidSimulation.ts:601-611 | a fresh engine on a fresh context, in the initial state, with no pass drawn |
| DotGrid.GridCount | src/components/DotGrid.tsx:39-40 | `ceil(n / 40) + 1` is the fewest dots from 0, one every 40 pixels, that reach `n` |
| DotGrid.GridCovers | src/components/DotGrid.tsx:39-40 | the last column and row reach the far edges, and one dot fewer would not |
| DotGrid.GridLayout | src/components/DotGrid.tsx:37-53 | the dot at row `r`, column `c` is entry `r * cols + c` of the grid, at `(40c, 40r)`, with the phase drawn for it |
| DotGrid.GridRowMajor | src/components/DotGrid.tsx:41-50 | row-major order: the next dot is 40 pixels to the right, or starts the next row at x = 0 |
| DotGrid.BuildDots | src/components/DotGrid.tsx:37-51 | the nested loops build exactly `Grid(w, h)` |
| DotGrid.Pruned | src/components/DotGrid.tsx:102-108 | only the maximal leading run of expired ripples is removed; the rest keep their order; the new head, if any, has not expired |
| DotGrid.PrunedIdempotent | src/components/DotGrid.tsx:105-107 | pruning twice at the same time removes nothing more |
| DotGrid.PrunedLater | src/components/DotGrid.tsx:105-107 | pruning at an earlier and then a later time is pruning at the later time |
| DotGrid.RippleQueue.Prune | src/components/DotGrid.tsx:102-108 | the `shift` loop leaves exactly `Pruned` |
| DotGrid.RingBoost | src/components/DotGrid.tsx:147-156 | a ring's boost lies in [0, fade] and is positive only within 120 pixels of the ring |
| DotGrid.RippleGlow | src/components/DotGrid.tsx:140-170 | the glow is non-negative, opacity is a tenth of size, and a ripple older than 2 s gives none |
| DotGrid.GlowSum | src/components/DotGrid.tsx:136-171 | the summed glow is non-negative and its opacity is a tenth of its size |
| DotGrid.ExpiredGlowNothing | src/components/DotGrid.tsx:140-141 | ripples all older than 2 s add no glow |
| DotGrid.RippleIntensity | src/components/DotGrid.tsx:174-177 | the intensity lies in [0, 1] and equals added opacity / 0.15 when that is in range |
| DotGrid.Tint | src/components/DotGrid.tsx:179-189 | red stays in [26, 224], green = blue in [26, 82], and intensity ≤ 0.05 gives the grey (26, 26, 26) |
| DotGrid.PaintGlow | src/components/DotGrid.tsx:124-177 | ripples only add to size and opacity, in a 10 : 1 ratio; without ripples, or with only expired ones, a dot is painted as without the queue, in grey |
| DotGrid.DotGlow | src/components/DotGrid.tsx:136-171 | the ripple loop with its `continue` computes `GlowSum` |
| DotGrid.PaintDot | src/components/DotGrid.tsx:113-194 | one iteration paints `PaintOf` and reports whether the dot is near the mouse |
| DotGrid.Positions | src/components/DotGrid.tsx:114-117 | one drifted position per dot |
| DotGrid.NearOnes | src/components/DotGrid.tsx:192-194 | `nearby` is no longer than the dot list |
| DotGrid.NearOnesMembers | src/components/DotGrid.tsx:119-122 | a position is in `nearby` exactly when it is a dot's position strictly within 120 pixels of the mouse |
| DotGrid.NearOnesAppend | src/components/DotGrid.tsx:192-194 | `nearby` follows dot order |
| DotGrid.Paints | src/components/DotGrid.tsx:112-195 | one paint per dot |
| DotGrid.PaintDots | src/components/DotGrid.tsx:112-195 | the dot loop makes exactly `Paints` and fills `nearby` with exactly `NearOnes` |
| DotGrid.Row | src/components/DotGrid.tsx:202 | row `i` of the pair loop examines `n - i - 1` pairs |
| DotGrid.PairsBeforeMembers | src/components/DotGrid.tsx:201-202 | the first `i` rows examine exactly the pairs `a < b < n` with `a < i` |
| DotGrid.PairsBeforeSorted | src/components/DotGrid.tsx:201-202 | pairs are examined in strictly increasing order |
| DotGrid.PairsBeforeCount | src/components/DotGrid.tsx:201-202 | the first `i` rows examine `i(2n - i - 1)/2` pairs |
| DotGrid.PairsBeforeWithin | src/components/DotGrid.tsx:201-202 | every examined index is within `nearby` |
| DotGrid.PairOrderExactlyOnce | src/components/DotGrid.tsx:201-212 | every unordered pair `i < j` is examined exactly once, `n(n-1)/2` in all |
| DotGrid.LinesOfMembers | src/components/DotGrid.tsx:203-210 | a line is drawn for an examined pair exactly when its squared distance is below 100² |
| DotGrid.LinesOfSnoc | src/components/DotGrid.tsx:205-210 | one more examined pair draws at most one more line |
| DotGrid.LinesJoinClosePairs | src/components/DotGrid.tsx:198-213 | the lines are exactly the segments between close pairs `i < j` of nearby dots |
| DotGrid.ConnectionLines | src/components/DotGrid.tsx:198-213 | the nested pair loop draws exactly `Lines(nearby)` |
| DotGrid.RowLines | src/components/DotGrid.tsx:202-211 | the inner loop extends the lines by row `i` |
| DotGrid.Background.constructor | src/components/DotGrid.tsx:24-25 | no dots, and the mouse at (-9999, -9999) |
| DotGrid.Background.BuildGrid | src/components/DotGrid.tsx:37-53 | the dots ref becomes `Grid(w, h)` and the mouse is kept |
| DotGrid.Background.OnMouseMove | src/components/DotGrid.tsx:76-79 | the mouse is the client position relative to the canvas's corner |
| DotGrid.Background.OnMouseLeave | src/components/DotGrid.tsx:81-83 | the mouse goes to (-9999, -9999) |
| DotGrid.Background.Draw | src/components/DotGrid.tsx:90-216 | a shared queue is pruned; every dot is painted with the pruned ripples; lines join the close pairs of the dots near the mouse |

## Left out

- WebGL itself. Textures, framebuffers, shader compilation and linking,
  uniform binding and `drawElements` are reduced to:
  - allocating a texture id;
  - logging a pass;
  - recording a compiled source.
  `checkFramebufferStatus`, compile/link status logging and the viewport are
  not modelled.
- The GLSL shader bodies (advection, curl, vorticity, divergence, pressure,
  gradient, splat, bloom, display). A pass records only the program's name,
  its scalar uniforms and the textures it reads and writes.
- `supportRenderTextureFormat` (fluidSimulation.ts:684-700) is the abstract
  `supported` predicate of the platform, because its answer depends on the
  GPU.
- `initShaders` and `initBlit` (fluidSimulation.ts:780-832):
  - The fixed programs and the vertex buffers are not modelled.
  - The advection variant they pick (`MANUAL_FILTERING` without linear
    filtering) shows up only as the extra dye-texel uniform in the advection
    passes.
  - The display material is created blank by the constructor.
- `getUniforms`, `createProgram` and `createGLProgram`
  (fluidSimulation.ts:718-750) are reduced to `CompileProgram` and a
  uniforms id.
- `initDitheringTexture` (fluidSimulation.ts:961-981) is not modelled: it
  fills a texture with random noise. The display pass does not record the
  dithering sampler.
- Clocks, randomness and the DOM are parameters:
  - `Date.now`, `performance.now` and `Math.random` (each random splat's
    five draws, the colour draw and the auto-splat draw);
  - `window.devicePixelRatio`;
  - `getBoundingClientRect` and the canvas client size;
  - `window.innerWidth`/`innerHeight`.
- `requestAnimationFrame`/`cancelAnimationFrame` are a `FrameQueue` of
  pending ids. The browser running a callback is a call of `OnFrame`.
- Floating point: every number is an exact real. NaN, infinities and
  rounding errors are not modelled. A zero-sided canvas, where the source
  divides by zero, becomes `None` in `GetResolution` and `CorrectRadius`
  and is excluded by the preconditions below.
- Only `render(null)` is modelled, because the engine never renders into a
  framebuffer. With a `null` target, blending is always on.
- The sunrays keys (`SUNRAYS`, `SUNRAYS_RESOLUTION`, `SUNRAYS_WEIGHT`) are
  carried in the configuration but drive nothing in the code.
- Only one pointer: the constructor creates exactly one and nothing adds
  more.
- Create (Simulation.Create), constructor
  (Simulation.FluidSimulation.constructor), InitFramebuffers
  (Simulation.FluidSimulation.InitFramebuffers) and Resize
  (Simulation.FluidSimulation.Resize) require positive resolutions and a
  canvas with two positive sides (for Resize, a bounding rectangle at least
  one pixel on each side). A zero side makes the source divide by zero and
  create zero-sized textures, which is not modelled.
- Update (Simulation.FluidSimulation.Update) and OnFrame
  (Simulation.FluidSimulation.OnFrame) require the client size to give a
  positive device-pixel size, for the same reason.
- Update (Simulation.FluidSimulation.Update) states the pass log only as
  its tail, the render passes. The earlier passes are stated by `Advance`
  (inputs and step) and, for the resize, by `Prepare` as the carried
  contents of dye and velocity. The copy passes of a resize are stated only
  through those contents, not as log entries.
- GetResolution (Framebuffers.GetResolution) and Resolution
  (Simulation.Resolution) take the canvas size as the drawing-buffer size.
  A browser may clamp `gl.drawingBufferWidth/Height` below the canvas size,
  which is not modelled.
- UpdatePointerMoveData (Simulation.FluidSimulation.UpdatePointerMoveData)
  and TexcoordOf (Simulation.TexcoordOf) require a positive client size.
  The source divides by it.
- Draw (DotGrid.Background.Draw) and DotGlow (DotGrid.DotGlow) use one `now`
  for the whole frame. The source reads `performance.now()` again for every
  dot.
- DotGlow (DotGrid.DotGlow) computes a ripple's distance before the 2-second
  `continue`. The source computes it after. The distance is a pure value,
  so the glow is the same.
- The dot grid's drift (`Math.sin`/`Math.cos` of the frame time) is the
  `drifts` input, and `Math.sqrt` is the `sqrt` parameter.
- Canvas drawing (`arc`, `fill`, `stroke`, fill styles as strings) is
  reduced to `Paint` and `Segment` values.
- DotGrid's coarse-pointer early return, its canvas sizing and `setTransform`
  in `resize`, its event-listener registration and cleanup, and the unused
  `scrollVelocityRef` are DOM wiring and are not modelled.
- The page that appends ripples to the shared queue is not part of this
  model.
- BloomUniformsOf (Simulation.BloomUniformsOf) records the knee itself as
  the prefilter curve's third coefficient, where the source sends
  `0.25 / knee`. The knee is zero for some negative threshold and soft-knee
  settings, and that division by zero is not modelled.
- Merge (Capabilities.Merge) treats a key as given or left out. A key given
  with the value `undefined` overrides the default in the object spread; the
  model has no such value.

Notes on what the code does, which the model follows:

- The downgrade sets the dye resolution to 512 whatever it was, so a
  configured resolution below 512 is raised
  (`Capabilities.DowngradeCanRaiseDyeResolution`).
- `destroy` only sets the flag and cancels the frame. It releases no GPU
  resources.
- `start` records only the newest frame id. Calling it twice leaves the
  first frame loop running, and `stop` cannot cancel it.
- Nothing in the engine pushes onto `splatStack`, so the queued branch of
  `applyInputs` is taken only for a queue filled by other means.
- `resize` compares the whole-pixel canvas size with the unrounded bounding
  rectangle. A rectangle with a fractional side never compares equal, so
  `start` rebuilds the framebuffers even when the canvas keeps its size
  (`Simulation.FluidSimulation.Resize`).
