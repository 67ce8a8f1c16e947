/** The WebGL context as the fluid engine sees it: textures with framebuffers
    attached, the blend state, the shader compiler, and draw calls ("passes").
    Shader arithmetic is not modelled: a pass is labelled by its program, its
    scalar uniforms, the textures it samples and the target it draws into, and
    the texture it draws is the symbolic term recording exactly that. */
module Gl {

  /** The fragment programs the engine draws with. */
  datatype Program =
    | Copy | Clear | Color | Splat | Curl | Vorticity | Divergence | Pressure
    | GradientSubtract | Advection | BloomPrefilter | BloomBlur | BloomFinal | Display

  /** The blend state in force when a pass is drawn: off, `blendFunc(ONE, ONE)`
      or `blendFunc(ONE, ONE_MINUS_SRC_ALPHA)`. */
  datatype Blend = Off | Additive | Over

  /** Where a pass draws: the default framebuffer or the texture with a given id. */
  datatype Target = Screen | Texture(id: nat)

  /** One draw call: program, scalar uniforms, sampled textures (by id), target. */
  datatype Pass = Pass(program: Program, params: seq<real>, sources: seq<nat>, target: Target, blend: Blend)

  /** What a texture holds, as the term of the passes that produced it. */
  datatype Content =
    | Blank
    | Drawn(program: Program, params: seq<real>, inputs: seq<Content>)
    | Blended(mode: Blend, under: Content, over: Content)

  /** A framebuffer with its colour texture: the handle, the size and the
      texel size `1/w, 1/h` fixed at creation. */
  datatype Fbo = Fbo(id: nat, width: int, height: int, texelSizeX: real, texelSizeY: real)

  /** A framebuffer of the given size with the texel size `1/w, 1/h`. */
  function NewFbo(id: nat, w: int, h: int): (f: Fbo)
    requires w > 0 && h > 0
    ensures f.id == id && f.width == w && f.height == h
    ensures f.texelSizeX * w as real == 1.0 && f.texelSizeY * h as real == 1.0
  {
    Fbo(id, w, h, 1.0 / w as real, 1.0 / h as real)
  }

  type Surfaces = map<Target, Content>

  function ContentOf(m: Surfaces, t: Target): Content {
    if t in m then m[t] else Blank
  }

  /** The contents of the sampled textures, in sampler order. */
  function Inputs(m: Surfaces, ids: seq<nat>): (r: seq<Content>)
    ensures |r| == |ids|
    ensures forall i :: 0 <= i < |ids| ==> r[i] == ContentOf(m, Texture(ids[i]))
  {
    if ids == [] then [] else Inputs(m, ids[..|ids| - 1]) + [ContentOf(m, Texture(ids[|ids| - 1]))]
  }

  /** What the target holds after the pass: the program's output, blended over
      the previous content unless blending is off. */
  function Render(m: Surfaces, p: Pass): Content {
    var drawn := Drawn(p.program, p.params, Inputs(m, p.sources));
    if p.blend == Off then drawn else Blended(p.blend, ContentOf(m, p.target), drawn)
  }

  function Apply(m: Surfaces, p: Pass): (r: Surfaces)
    ensures ContentOf(r, p.target) == Render(m, p)
    ensures forall t :: t != p.target ==> ContentOf(r, t) == ContentOf(m, t)
  {
    m[p.target := Render(m, p)]
  }

  /** The surfaces after drawing a sequence of passes in order. */
  function Replay(m: Surfaces, ps: seq<Pass>): Surfaces {
    if ps == [] then m else Apply(Replay(m, ps[..|ps| - 1]), ps[|ps| - 1])
  }

  lemma ReplaySnoc(m: Surfaces, ps: seq<Pass>, p: Pass)
    ensures Replay(m, ps + [p]) == Apply(Replay(m, ps), p)
  {
    assert (ps + [p])[..|ps|] == ps;
  }

  lemma {:induction false} ReplayAppend(m: Surfaces, ps: seq<Pass>, qs: seq<Pass>)
    ensures Replay(m, ps + qs) == Replay(Replay(m, ps), qs)
  {
    if qs == [] {
      assert ps + qs == ps;
    } else {
      var n := |qs| - 1;
      assert (ps + qs)[..|ps + qs| - 1] == ps + qs[..n];
      ReplayAppend(m, ps, qs[..n]);
    }
  }

  /** Passes that never draw into a target they do not list leave it alone. */
  lemma {:induction false} ReplayUntouched(m: Surfaces, ps: seq<Pass>, t: Target)
    requires forall i :: 0 <= i < |ps| ==> ps[i].target != t
    ensures ContentOf(Replay(m, ps), t) == ContentOf(m, t)
  {
    if ps != [] {
      ReplayUntouched(m, ps[..|ps| - 1], t);
    }
  }

  /** A pass samples its own target: a feedback loop, which WebGL refuses. */
  predicate Feedback(p: Pass) {
    p.target.Texture? && p.target.id in p.sources
  }

  /** The GL context: texture allocation, the blend switch, the shader
      compiler and the draw calls issued so far. */
  class Context {
    var nextTexture: nat
    var passes: seq<Pass>
    var blend: Blend
    var nextProgram: nat
    var compiled: seq<string>

    constructor ()
      ensures Valid()
      ensures nextTexture == 0 && passes == [] && blend == Off
      ensures nextProgram == 0 && compiled == []
    {
      nextTexture, passes, blend := 0, [], Off;
      nextProgram, compiled := 0, [];
    }

    /** What every target holds: what the passes drawn so far produce. */
    function Surfaces(): Surfaces
      reads this
    {
      Replay(map[], passes)
    }

    /** Every pass drew into a texture that existed, so a texture created
        later reads as blank. */
    predicate Valid()
      reads this
    {
      forall i :: 0 <= i < |passes| && passes[i].target.Texture? ==> passes[i].target.id < nextTexture
    }

    /** `createFBO`: a fresh texture of the given size, cleared, with its texel size. */
    method CreateFbo(w: int, h: int) returns (f: Fbo)
      requires Valid() && w > 0 && h > 0
      modifies this
      ensures Valid()
      ensures f == NewFbo(old(nextTexture), w, h)
      ensures ContentOf(Surfaces(), Texture(f.id)) == Blank
      ensures nextTexture == old(nextTexture) + 1
      ensures passes == old(passes) && blend == old(blend)
      ensures nextProgram == old(nextProgram) && compiled == old(compiled)
    {
      f := NewFbo(nextTexture, w, h);
      ReplayUntouched(map[], passes, Texture(f.id));
      nextTexture := nextTexture + 1;
    }

    /** `gl.enable(BLEND)` with a blend function, or `gl.disable(BLEND)`. */
    method SetBlend(b: Blend)
      modifies this
      ensures blend == b
      ensures nextTexture == old(nextTexture) && passes == old(passes)
      ensures nextProgram == old(nextProgram) && compiled == old(compiled)
    {
      blend := b;
    }

    /** `blit`: draw one full-screen pass with the current blend state. */
    method Blit(program: Program, params: seq<real>, sources: seq<nat>, target: Target)
      requires Valid() && (target.Texture? ==> target.id < nextTexture)
      requires !Feedback(Pass(program, params, sources, target, blend))
      modifies this
      ensures Valid()
      ensures passes == old(passes) + [Pass(program, params, sources, target, blend)]
      ensures nextTexture == old(nextTexture) && blend == old(blend)
      ensures nextProgram == old(nextProgram) && compiled == old(compiled)
    {
      var p := Pass(program, params, sources, target, blend);
      assert (passes + [p])[..|passes|] == passes;
      passes := passes + [p];
    }

    /** Compile a fragment source and link it with a vertex shader into a new program. */
    method CompileProgram(fragmentSource: string) returns (program: nat)
      modifies this
      ensures program == old(nextProgram) && nextProgram == old(nextProgram) + 1
      ensures compiled == old(compiled) + [fragmentSource]
      ensures nextTexture == old(nextTexture) && passes == old(passes) && blend == old(blend)
    {
      program := nextProgram;
      nextProgram := nextProgram + 1;
      compiled := compiled + [fragmentSource];
    }
  }
}
