/** The draw-call sequences of one simulation frame, as pure functions of the
    framebuffer ids and the uniforms: the step's solver passes, the bloom
    chain, the splats and the final composite. A pass's `params` are the scalar
    uniforms its program reads when it is drawn, in the order the code sets
    them. */
module Passes {
  import opened Gl
  import opened Colors

  /** The texture ids of a ping-pong pair. */
  datatype PairIds = PairIds(read: nat, write: nat)

  function Swapped(p: PairIds): PairIds {
    PairIds(p.write, p.read)
  }

  /** The pair after `n` swaps. */
  function SwappedTimes(p: PairIds, n: nat): PairIds {
    if n % 2 == 0 then p else Swapped(p)
  }

  // ---------------------------------------------------------------- step

  /** The uniforms the step's programs read. Texel sizes are `[x, y]`. */
  datatype StepUniforms = StepUniforms(
    velocityTexel: seq<real>,
    dyeTexel: seq<real>,
    dt: real,
    curl: real,
    pressure: real,
    velocityDissipation: real,
    densityDissipation: real,
    linearFiltering: bool)

  /** The framebuffers the step draws with. */
  datatype StepIds = StepIds(velocity: PairIds, pressure: PairIds, dye: PairIds, curl: nat, divergence: nat)

  /** No two of the eight textures coincide. */
  predicate Distinct(ids: StepIds) {
    var v, p, d := ids.velocity, ids.pressure, ids.dye;
    var all := [v.read, v.write, p.read, p.write, d.read, d.write, ids.curl, ids.divergence];
    forall i, j :: 0 <= i < j < |all| ==> all[i] != all[j]
  }

  /** The pairwise differences `Distinct` asserts, spelt out. */
  predicate DistinctPairs(ids: StepIds) {
    var v, p, d, c, dv := ids.velocity, ids.pressure, ids.dye, ids.curl, ids.divergence;
    && v.read != v.write && v.read != p.read && v.read != p.write && v.read != d.read
    && v.read != d.write && v.read != c && v.read != dv
    && v.write != p.read && v.write != p.write && v.write != d.read && v.write != d.write
    && v.write != c && v.write != dv
    && p.read != p.write && p.read != d.read && p.read != d.write && p.read != c && p.read != dv
    && p.write != d.read && p.write != d.write && p.write != c && p.write != dv
    && d.read != d.write && d.read != c && d.read != dv
    && d.write != c && d.write != dv
    && c != dv
  }

  lemma DistinctFacts(ids: StepIds)
    requires Distinct(ids)
    ensures DistinctPairs(ids)
  {
    var v, p, d := ids.velocity, ids.pressure, ids.dye;
    var all := [v.read, v.write, p.read, p.write, d.read, d.write, ids.curl, ids.divergence];
    assert all[0] != all[1] && all[0] != all[2] && all[0] != all[3] && all[0] != all[4];
    assert all[0] != all[5] && all[0] != all[6] && all[0] != all[7];
    assert all[1] != all[2] && all[1] != all[3] && all[1] != all[4] && all[1] != all[5];
    assert all[1] != all[6] && all[1] != all[7];
    assert all[2] != all[3] && all[2] != all[4] && all[2] != all[5] && all[2] != all[6] && all[2] != all[7];
    assert all[3] != all[4] && all[3] != all[5] && all[3] != all[6] && all[3] != all[7];
    assert all[4] != all[5] && all[4] != all[6] && all[4] != all[7];
    assert all[5] != all[6] && all[5] != all[7] && all[6] != all[7];
  }

  /** The two spellings of distinctness agree. */
  lemma DistinctFromPairs(ids: StepIds)
    requires DistinctPairs(ids)
    ensures Distinct(ids)
  {
  }

  /** The advection program reads the dye texel size only in its
      manual-filtering variant, compiled when linear filtering is missing. */
  function AdvectionParams(u: StepUniforms, dyeTexel: seq<real>, dissipation: real): seq<real> {
    u.velocityTexel + (if u.linearFiltering then [] else dyeTexel) + [u.dt, dissipation]
  }

  function CurlPass(ids: StepIds, u: StepUniforms): Pass {
    Pass(Curl, u.velocityTexel, [ids.velocity.read], Texture(ids.curl), Off)
  }

  function VorticityPass(ids: StepIds, u: StepUniforms): Pass {
    Pass(Vorticity, u.velocityTexel + [u.curl, u.dt], [ids.velocity.read, ids.curl], Texture(ids.velocity.write), Off)
  }

  function DivergencePass(ids: StepIds, u: StepUniforms): Pass {
    Pass(Divergence, u.velocityTexel, [ids.velocity.write], Texture(ids.divergence), Off)
  }

  function ClearPass(ids: StepIds, u: StepUniforms): Pass {
    Pass(Clear, [u.pressure], [ids.pressure.read], Texture(ids.pressure.write), Off)
  }

  /** Curl, vorticity confinement, divergence and the pressure clear. */
  function StepPrologue(ids: StepIds, u: StepUniforms): seq<Pass> {
    [CurlPass(ids, u), VorticityPass(ids, u), DivergencePass(ids, u), ClearPass(ids, u)]
  }

  /** `n` Jacobi iterations on the pressure pair `p`, each sampling the
      divergence and the current pressure and swapping afterwards. */
  function JacobiPasses(divergence: nat, p: PairIds, n: nat, texel: seq<real>): seq<Pass> {
    if n == 0 then []
    else
      var q := SwappedTimes(p, n - 1);
      JacobiPasses(divergence, p, n - 1, texel) + [Pass(Pressure, texel, [divergence, q.read], Texture(q.write), Off)]
  }

  function GradientPass(ids: StepIds, p: PairIds, u: StepUniforms): Pass {
    Pass(GradientSubtract, u.velocityTexel, [p.read, ids.velocity.write], Texture(ids.velocity.read), Off)
  }

  function VelocityAdvectionPass(ids: StepIds, u: StepUniforms): Pass {
    var v := ids.velocity;
    Pass(Advection, AdvectionParams(u, u.velocityTexel, u.velocityDissipation), [v.read, v.read], Texture(v.write), Off)
  }

  function DyeAdvectionPass(ids: StepIds, u: StepUniforms): Pass {
    var d := ids.dye;
    Pass(Advection, AdvectionParams(u, u.dyeTexel, u.densityDissipation), [ids.velocity.write, d.read], Texture(d.write), Off)
  }

  /** Gradient subtraction, velocity advection and dye advection; `p` is the
      pressure pair as the Jacobi loop leaves it. */
  function StepEpilogue(ids: StepIds, p: PairIds, u: StepUniforms): seq<Pass> {
    [GradientPass(ids, p, u), VelocityAdvectionPass(ids, u), DyeAdvectionPass(ids, u)]
  }

  /** `step`: every pass of one simulation step, in order. */
  function StepPasses(ids: StepIds, n: nat, u: StepUniforms): seq<Pass> {
    var p1 := Swapped(ids.pressure);
    StepPrologue(ids, u) + JacobiPasses(ids.divergence, p1, n, u.velocityTexel)
    + StepEpilogue(ids, SwappedTimes(p1, n), u)
  }

  lemma {:induction false} JacobiShape(divergence: nat, p: PairIds, n: nat, texel: seq<real>)
    ensures |JacobiPasses(divergence, p, n, texel)| == n
    ensures forall i :: 0 <= i < n ==>
      JacobiPasses(divergence, p, n, texel)[i] ==
      Pass(Pressure, texel, [divergence, SwappedTimes(p, i).read], Texture(SwappedTimes(p, i).write), Off)
  {
    if n > 0 {
      JacobiShape(divergence, p, n - 1, texel);
    }
  }

  /** One step draws exactly `n + 7` passes, and exactly the `n` passes after
      the first four run the pressure (Jacobi) program. */
  lemma StepPassCount(ids: StepIds, n: nat, u: StepUniforms)
    ensures |StepPasses(ids, n, u)| == n + 7
    ensures forall i :: 0 <= i < n + 7 ==> (StepPasses(ids, n, u)[i].program == Pressure <==> 4 <= i < 4 + n)
  {
    var p1 := Swapped(ids.pressure);
    JacobiShape(ids.divergence, p1, n, u.velocityTexel);
    var s := StepPasses(ids, n, u);
    var pre, jac := StepPrologue(ids, u), JacobiPasses(ids.divergence, p1, n, u.velocityTexel);
    var post := StepEpilogue(ids, SwappedTimes(p1, n), u);
    forall i | 0 <= i < n + 7
      ensures s[i].program == Pressure <==> 4 <= i < 4 + n
    {
      if i < 4 {
        assert s[i] == pre[i];
      } else if i < 4 + n {
        assert s[i] == jac[i - 4];
      } else {
        assert s[i] == post[i - 4 - n];
      }
    }
  }

  /** With eight distinct textures, no pass of the step samples the texture it draws into. */
  lemma StepNoFeedback(ids: StepIds, n: nat, u: StepUniforms)
    requires Distinct(ids)
    ensures forall i :: 0 <= i < |StepPasses(ids, n, u)| ==> !Feedback(StepPasses(ids, n, u)[i])
  {
    DistinctFacts(ids);
    var p1 := Swapped(ids.pressure);
    JacobiShape(ids.divergence, p1, n, u.velocityTexel);
    var s := StepPasses(ids, n, u);
    var pre, jac := StepPrologue(ids, u), JacobiPasses(ids.divergence, p1, n, u.velocityTexel);
    var post := StepEpilogue(ids, SwappedTimes(p1, n), u);
    forall i | 0 <= i < |s|
      ensures !Feedback(s[i])
    {
      if i < 4 {
        assert s[i] == pre[i];
      } else if i < 4 + n {
        assert s[i] == jac[i - 4];
      } else {
        assert s[i] == post[i - 4 - n];
      }
    }
  }

  /** The pressure after `n` Jacobi iterations from `p0` with divergence `dv`. */
  function JacobiContent(dv: Content, p0: Content, n: nat, texel: seq<real>): Content {
    if n == 0 then p0 else Drawn(Pressure, texel, [dv, JacobiContent(dv, p0, n - 1, texel)])
  }

  /** The Jacobi loop leaves the iterated pressure in the pair's final `read`
      and touches nothing outside the pair. */
  lemma {:induction false} JacobiReplay(m: Surfaces, divergence: nat, p: PairIds, n: nat, texel: seq<real>)
    requires divergence != p.read && divergence != p.write && p.read != p.write
    ensures JacobiInvariant(m, Replay(m, JacobiPasses(divergence, p, n, texel)), divergence, p, n, texel)
  {
    if n == 0 {
      JacobiBase(m, divergence, p, texel);
    } else {
      JacobiReplay(m, divergence, p, n - 1, texel);
      JacobiStep(m, divergence, p, n, texel);
    }
  }

  lemma JacobiBase(m: Surfaces, divergence: nat, p: PairIds, texel: seq<real>)
    ensures JacobiInvariant(m, Replay(m, JacobiPasses(divergence, p, 0, texel)), divergence, p, 0, texel)
  {
    assert Replay(m, JacobiPasses(divergence, p, 0, texel)) == m;
    assert SwappedTimes(p, 0) == p;
  }

  /** After `k` iterations from `m`: the pair's current `read` holds the
      iterated pressure, and everything outside the pair is as in `m`. */
  ghost predicate JacobiInvariant(m: Surfaces, r: Surfaces, divergence: nat, p: PairIds, k: nat, texel: seq<real>) {
    && ContentOf(r, Texture(SwappedTimes(p, k).read)) ==
       JacobiContent(ContentOf(m, Texture(divergence)), ContentOf(m, Texture(p.read)), k, texel)
    && forall t :: t != Texture(p.read) && t != Texture(p.write) ==> ContentOf(r, t) == ContentOf(m, t)
  }

  /** The induction step of `JacobiReplay`: iteration `n` keeps the invariant. */
  lemma JacobiStep(m: Surfaces, divergence: nat, p: PairIds, n: nat, texel: seq<real>)
    requires n > 0
    requires divergence != p.read && divergence != p.write && p.read != p.write
    requires JacobiInvariant(m, Replay(m, JacobiPasses(divergence, p, n - 1, texel)), divergence, p, n - 1, texel)
    ensures JacobiInvariant(m, Replay(m, JacobiPasses(divergence, p, n, texel)), divergence, p, n, texel)
  {
    var prev := Replay(m, JacobiPasses(divergence, p, n - 1, texel));
    var q := SwappedTimes(p, n - 1);
    var pass := Pass(Pressure, texel, [divergence, q.read], Texture(q.write), Off);
    assert Replay(m, JacobiPasses(divergence, p, n, texel)) == Apply(prev, pass) by {
      assert JacobiPasses(divergence, p, n, texel) == JacobiPasses(divergence, p, n - 1, texel) + [pass];
      ReplaySnoc(m, JacobiPasses(divergence, p, n - 1, texel), pass);
    }
    SwappedStep(p, n - 1);
    assert q == p || q == Swapped(p);
    assert ContentOf(prev, Texture(divergence)) == ContentOf(m, Texture(divergence));
    PressurePass(prev, divergence, q, texel);
  }

  /** One Jacobi pass draws the pressure from the divergence and the current
      pressure into the pair's `write`, and touches nothing else. */
  lemma PressurePass(prev: Surfaces, divergence: nat, q: PairIds, texel: seq<real>)
    ensures var r := Apply(prev, Pass(Pressure, texel, [divergence, q.read], Texture(q.write), Off));
      && ContentOf(r, Texture(q.write)) ==
         Drawn(Pressure, texel, [ContentOf(prev, Texture(divergence)), ContentOf(prev, Texture(q.read))])
      && forall t :: t != Texture(q.write) ==> ContentOf(r, t) == ContentOf(prev, t)
  {
    assert Inputs(prev, [divergence, q.read]) ==
      [ContentOf(prev, Texture(divergence)), ContentOf(prev, Texture(q.read))];
  }

  lemma SwappedStep(p: PairIds, n: nat)
    ensures SwappedTimes(p, n + 1) == Swapped(SwappedTimes(p, n))
  {
  }

  /** A pass drawn with blending off replaces its target by the program's
      output on the sampled contents and leaves every other target alone. */
  lemma OpaquePass(m: Surfaces, p: Pass, t: Target)
    requires p.blend == Off
    ensures ContentOf(Apply(m, p), p.target) == Drawn(p.program, p.params, Inputs(m, p.sources))
    ensures t != p.target ==> ContentOf(Apply(m, p), t) == ContentOf(m, t)
  {
  }

  lemma Replay4(m: Surfaces, a: Pass, b: Pass, c: Pass, d: Pass)
    ensures Replay(m, [a, b, c, d]) == Apply(Apply(Apply(Apply(m, a), b), c), d)
  {
    ReplaySnoc(m, [], a);
    ReplaySnoc(m, [a], b);
    ReplaySnoc(m, [a, b], c);
    ReplaySnoc(m, [a, b, c], d);
    assert [a, b, c, d] == [a, b, c] + [d];
    assert [a, b, c] == [a, b] + [c];
    assert [a, b] == [a] + [b];
    assert [a] == [] + [a];
  }

  lemma Replay3(m: Surfaces, a: Pass, b: Pass, c: Pass)
    ensures Replay(m, [a, b, c]) == Apply(Apply(Apply(m, a), b), c)
  {
    ReplaySnoc(m, [], a);
    ReplaySnoc(m, [a], b);
    ReplaySnoc(m, [a, b], c);
    assert [a, b, c] == [a, b] + [c];
    assert [a, b] == [a] + [b];
    assert [a] == [] + [a];
  }

  /** What the step's prologue leaves behind: the curl, the confined velocity,
      its divergence and the cleared pressure; the dye is not touched. */
  lemma PrologueReplay(m: Surfaces, ids: StepIds, u: StepUniforms)
    requires Distinct(ids)
    ensures var r := Replay(m, StepPrologue(ids, u));
      var vt, v, p := u.velocityTexel, ids.velocity, ids.pressure;
      var v0 := ContentOf(m, Texture(v.read));
      var c := Drawn(Curl, vt, [v0]);
      var w := Drawn(Vorticity, vt + [u.curl, u.dt], [v0, c]);
      && ContentOf(r, Texture(ids.curl)) == c
      && ContentOf(r, Texture(v.write)) == w
      && ContentOf(r, Texture(ids.divergence)) == Drawn(Divergence, vt, [w])
      && ContentOf(r, Texture(p.write)) == Drawn(Clear, [u.pressure], [ContentOf(m, Texture(p.read))])
      && ContentOf(r, Texture(ids.dye.read)) == ContentOf(m, Texture(ids.dye.read))
  {
    DistinctFacts(ids);
    var m1 := Apply(m, CurlPass(ids, u));
    var m2 := Apply(m1, VorticityPass(ids, u));
    var m3 := Apply(m2, DivergencePass(ids, u));
    Replay4(m, CurlPass(ids, u), VorticityPass(ids, u), DivergencePass(ids, u), ClearPass(ids, u));
    AfterCurl(m, ids, u);
    AfterVorticity(m1, ids, u);
    AfterDivergence(m2, ids, u);
    AfterClear(m3, ids, u);
  }

  lemma AfterCurl(m: Surfaces, ids: StepIds, u: StepUniforms)
    requires Distinct(ids)
    ensures var r, v := Apply(m, CurlPass(ids, u)), ids.velocity;
      && ContentOf(r, Texture(ids.curl)) == Drawn(Curl, u.velocityTexel, [ContentOf(m, Texture(v.read))])
      && ContentOf(r, Texture(v.read)) == ContentOf(m, Texture(v.read))
      && ContentOf(r, Texture(ids.pressure.read)) == ContentOf(m, Texture(ids.pressure.read))
      && ContentOf(r, Texture(ids.dye.read)) == ContentOf(m, Texture(ids.dye.read))
  {
    DistinctFacts(ids);
    assert Inputs(m, [ids.velocity.read]) == [ContentOf(m, Texture(ids.velocity.read))];
  }

  lemma AfterVorticity(m: Surfaces, ids: StepIds, u: StepUniforms)
    requires Distinct(ids)
    ensures var r, v := Apply(m, VorticityPass(ids, u)), ids.velocity;
      && ContentOf(r, Texture(v.write)) ==
         Drawn(Vorticity, u.velocityTexel + [u.curl, u.dt], [ContentOf(m, Texture(v.read)), ContentOf(m, Texture(ids.curl))])
      && ContentOf(r, Texture(ids.curl)) == ContentOf(m, Texture(ids.curl))
      && ContentOf(r, Texture(ids.pressure.read)) == ContentOf(m, Texture(ids.pressure.read))
      && ContentOf(r, Texture(ids.dye.read)) == ContentOf(m, Texture(ids.dye.read))
  {
    DistinctFacts(ids);
    var v := ids.velocity;
    assert Inputs(m, [v.read, ids.curl]) == [ContentOf(m, Texture(v.read)), ContentOf(m, Texture(ids.curl))];
  }

  lemma AfterDivergence(m: Surfaces, ids: StepIds, u: StepUniforms)
    requires Distinct(ids)
    ensures var r, v := Apply(m, DivergencePass(ids, u)), ids.velocity;
      && ContentOf(r, Texture(ids.divergence)) == Drawn(Divergence, u.velocityTexel, [ContentOf(m, Texture(v.write))])
      && ContentOf(r, Texture(ids.curl)) == ContentOf(m, Texture(ids.curl))
      && ContentOf(r, Texture(v.write)) == ContentOf(m, Texture(v.write))
      && ContentOf(r, Texture(ids.pressure.read)) == ContentOf(m, Texture(ids.pressure.read))
      && ContentOf(r, Texture(ids.dye.read)) == ContentOf(m, Texture(ids.dye.read))
  {
    DistinctFacts(ids);
    assert Inputs(m, [ids.velocity.write]) == [ContentOf(m, Texture(ids.velocity.write))];
  }

  lemma AfterClear(m: Surfaces, ids: StepIds, u: StepUniforms)
    requires Distinct(ids)
    ensures var r, p := Apply(m, ClearPass(ids, u)), ids.pressure;
      && ContentOf(r, Texture(p.write)) == Drawn(Clear, [u.pressure], [ContentOf(m, Texture(p.read))])
      && ContentOf(r, Texture(ids.curl)) == ContentOf(m, Texture(ids.curl))
      && ContentOf(r, Texture(ids.velocity.write)) == ContentOf(m, Texture(ids.velocity.write))
      && ContentOf(r, Texture(ids.divergence)) == ContentOf(m, Texture(ids.divergence))
      && ContentOf(r, Texture(ids.dye.read)) == ContentOf(m, Texture(ids.dye.read))
  {
    DistinctFacts(ids);
    assert Inputs(m, [ids.pressure.read]) == [ContentOf(m, Texture(ids.pressure.read))];
  }

  /** What the epilogue leaves behind, from the pressure in `p.read` and the
      velocity in the velocity pair's `write`; divergence and pressure are not touched. */
  lemma EpilogueReplay(m: Surfaces, ids: StepIds, p: PairIds, u: StepUniforms)
    requires Distinct(ids)
    requires p.read != ids.velocity.read && p.read != ids.velocity.write
    requires p.read != ids.dye.write && p.read != ids.divergence
    ensures var r := Replay(m, StepEpilogue(ids, p, u));
      var vt, v, d := u.velocityTexel, ids.velocity, ids.dye;
      var g := Drawn(GradientSubtract, vt, [ContentOf(m, Texture(p.read)), ContentOf(m, Texture(v.write))]);
      var va := Drawn(Advection, AdvectionParams(u, vt, u.velocityDissipation), [g, g]);
      && ContentOf(r, Texture(v.read)) == g
      && ContentOf(r, Texture(v.write)) == va
      && ContentOf(r, Texture(d.write)) ==
         Drawn(Advection, AdvectionParams(u, u.dyeTexel, u.densityDissipation), [va, ContentOf(m, Texture(d.read))])
      && ContentOf(r, Texture(ids.divergence)) == ContentOf(m, Texture(ids.divergence))
      && ContentOf(r, Texture(p.read)) == ContentOf(m, Texture(p.read))
  {
    var m1 := Apply(m, GradientPass(ids, p, u));
    var m2 := Apply(m1, VelocityAdvectionPass(ids, u));
    Replay3(m, GradientPass(ids, p, u), VelocityAdvectionPass(ids, u), DyeAdvectionPass(ids, u));
    AfterGradient(m, ids, p, u);
    AfterVelocityAdvection(m1, ids, p, u);
    AfterDyeAdvection(m2, ids, p, u);
  }

  lemma AfterGradient(m: Surfaces, ids: StepIds, p: PairIds, u: StepUniforms)
    requires Distinct(ids)
    requires p.read != ids.velocity.read && p.read != ids.velocity.write
    requires p.read != ids.dye.write && p.read != ids.divergence
    ensures var r, v := Apply(m, GradientPass(ids, p, u)), ids.velocity;
      && ContentOf(r, Texture(v.read)) ==
         Drawn(GradientSubtract, u.velocityTexel, [ContentOf(m, Texture(p.read)), ContentOf(m, Texture(v.write))])
      && ContentOf(r, Texture(v.write)) == ContentOf(m, Texture(v.write))
      && ContentOf(r, Texture(ids.dye.read)) == ContentOf(m, Texture(ids.dye.read))
      && ContentOf(r, Texture(ids.divergence)) == ContentOf(m, Texture(ids.divergence))
      && ContentOf(r, Texture(p.read)) == ContentOf(m, Texture(p.read))
  {
    DistinctFacts(ids);
    var v := ids.velocity;
    assert Inputs(m, [p.read, v.write]) == [ContentOf(m, Texture(p.read)), ContentOf(m, Texture(v.write))];
  }

  lemma AfterVelocityAdvection(m: Surfaces, ids: StepIds, p: PairIds, u: StepUniforms)
    requires Distinct(ids)
    requires p.read != ids.velocity.read && p.read != ids.velocity.write
    requires p.read != ids.dye.write && p.read != ids.divergence
    ensures var r, v := Apply(m, VelocityAdvectionPass(ids, u)), ids.velocity;
      var g := ContentOf(m, Texture(v.read));
      && ContentOf(r, Texture(v.write)) == Drawn(Advection, AdvectionParams(u, u.velocityTexel, u.velocityDissipation), [g, g])
      && ContentOf(r, Texture(v.read)) == g
      && ContentOf(r, Texture(ids.dye.read)) == ContentOf(m, Texture(ids.dye.read))
      && ContentOf(r, Texture(ids.divergence)) == ContentOf(m, Texture(ids.divergence))
      && ContentOf(r, Texture(p.read)) == ContentOf(m, Texture(p.read))
  {
    DistinctFacts(ids);
    var v := ids.velocity;
    assert Inputs(m, [v.read, v.read]) == [ContentOf(m, Texture(v.read)), ContentOf(m, Texture(v.read))];
  }

  lemma AfterDyeAdvection(m: Surfaces, ids: StepIds, p: PairIds, u: StepUniforms)
    requires Distinct(ids)
    requires p.read != ids.velocity.read && p.read != ids.velocity.write
    requires p.read != ids.dye.write && p.read != ids.divergence
    ensures var r, v, d := Apply(m, DyeAdvectionPass(ids, u)), ids.velocity, ids.dye;
      && ContentOf(r, Texture(d.write)) ==
         Drawn(Advection, AdvectionParams(u, u.dyeTexel, u.densityDissipation),
               [ContentOf(m, Texture(v.write)), ContentOf(m, Texture(d.read))])
      && ContentOf(r, Texture(v.read)) == ContentOf(m, Texture(v.read))
      && ContentOf(r, Texture(v.write)) == ContentOf(m, Texture(v.write))
      && ContentOf(r, Texture(ids.divergence)) == ContentOf(m, Texture(ids.divergence))
      && ContentOf(r, Texture(p.read)) == ContentOf(m, Texture(p.read))
  {
    DistinctFacts(ids);
    var v, d := ids.velocity, ids.dye;
    assert Inputs(m, [v.write, d.read]) == [ContentOf(m, Texture(v.write)), ContentOf(m, Texture(d.read))];
  }

  /** The data flow of one step. After the velocity swaps three times its
      `read` is the original `write`, holding the advected velocity, which is
      computed from the gradient-subtracted velocity, which uses the pressure
      after `n` Jacobi iterations on the divergence of the vorticity-confined
      velocity; the new dye is the old dye advected by the new velocity. */
  lemma StepDataflow(m: Surfaces, ids: StepIds, n: nat, u: StepUniforms)
    requires Distinct(ids)
    ensures var r := Replay(m, StepPasses(ids, n, u));
      var vt, v, p, d := u.velocityTexel, ids.velocity, ids.pressure, ids.dye;
      var v0 := ContentOf(m, Texture(v.read));
      var w := Drawn(Vorticity, vt + [u.curl, u.dt], [v0, Drawn(Curl, vt, [v0])]);
      var dv := Drawn(Divergence, vt, [w]);
      var pn := JacobiContent(dv, Drawn(Clear, [u.pressure], [ContentOf(m, Texture(p.read))]), n, vt);
      var g := Drawn(GradientSubtract, vt, [pn, w]);
      var va := Drawn(Advection, AdvectionParams(u, vt, u.velocityDissipation), [g, g]);
      && ContentOf(r, Texture(ids.divergence)) == dv
      && ContentOf(r, Texture(SwappedTimes(Swapped(p), n).read)) == pn
      && ContentOf(r, Texture(v.write)) == va
      && ContentOf(r, Texture(d.write)) ==
         Drawn(Advection, AdvectionParams(u, u.dyeTexel, u.densityDissipation), [va, ContentOf(m, Texture(d.read))])
  {
    DistinctFacts(ids);
    var vt, v, p, d := u.velocityTexel, ids.velocity, ids.pressure, ids.dye;
    var p1 := Swapped(p);
    var pre := StepPrologue(ids, u);
    var jac := JacobiPasses(ids.divergence, p1, n, vt);
    var pn := SwappedTimes(p1, n);
    var post := StepEpilogue(ids, pn, u);
    assert Replay(m, StepPasses(ids, n, u)) == Replay(Replay(Replay(m, pre), jac), post) by {
      ReplayAppend(m, pre + jac, post);
      ReplayAppend(m, pre, jac);
    }
    var m1 := Replay(m, pre);
    var m2 := Replay(m1, jac);
    PrologueReplay(m, ids, u);
    JacobiReplay(m1, ids.divergence, p1, n, vt);
    assert ContentOf(m2, Texture(v.write)) == ContentOf(m1, Texture(v.write));
    assert ContentOf(m2, Texture(d.read)) == ContentOf(m1, Texture(d.read));
    assert ContentOf(m2, Texture(ids.divergence)) == ContentOf(m1, Texture(ids.divergence));
    assert pn == p || pn == p1;
    assert pn.read == p.read || pn.read == p.write;
    EpilogueReplay(m2, ids, pn, u);
  }

  // ---------------------------------------------------------------- bloom

  /** The bloom programs' uniforms: the prefilter curve and threshold and the
      final intensity. */
  datatype BloomUniforms = BloomUniforms(curve: seq<real>, threshold: real, intensity: real)

  function Texel(f: Fbo): seq<real> {
    [f.texelSizeX, f.texelSizeY]
  }

  /** A blur pass from one framebuffer into another. */
  function BlurPass(from: Fbo, to: Fbo, blend: Blend): Pass {
    Pass(BloomBlur, Texel(from), [from.id], Texture(to.id), blend)
  }

  /** The first `k` downsampling passes: pass `i` blurs `DownSource(i)` into level `i`. */
  function DownPasses(destination: Fbo, levels: seq<Fbo>, k: nat): seq<Pass>
    requires k <= |levels|
  {
    seq(k, i requires 0 <= i < k => BlurPass(DownSource(destination, levels, i), levels[i], Off))
  }

  /** What downsampling pass `i` reads: the destination first, then the previous level. */
  function DownSource(destination: Fbo, levels: seq<Fbo>, i: nat): Fbo
    requires i <= |levels|
  {
    if i == 0 then destination else levels[i - 1]
  }

  /** The first `k` upsampling passes, walking from the second-to-last level
      down to level 0: pass `j` adds level `n - 1 - j` into level `n - 2 - j`. */
  function UpPasses(levels: seq<Fbo>, k: nat): seq<Pass>
    requires k < |levels|
  {
    var n := |levels|;
    seq(k, j requires 0 <= j < k => BlurPass(levels[n - 1 - j], levels[n - 2 - j], Additive))
  }

  /** One more iteration of the downsampling loop appends one pass. */
  lemma DownSnoc(destination: Fbo, levels: seq<Fbo>, k: nat)
    requires k < |levels|
    ensures DownPasses(destination, levels, k + 1) ==
      DownPasses(destination, levels, k) + [BlurPass(DownSource(destination, levels, k), levels[k], Off)]
  {
  }

  /** One more iteration of the upsampling loop appends one pass. */
  lemma UpSnoc(levels: seq<Fbo>, k: nat)
    requires k + 1 < |levels|
    ensures UpPasses(levels, k + 1) ==
      UpPasses(levels, k) + [BlurPass(levels[|levels| - 1 - k], levels[|levels| - 2 - k], Additive)]
  {
  }

  function PrefilterPass(source: nat, destination: Fbo, u: BloomUniforms): Pass {
    Pass(BloomPrefilter, u.curve + [u.threshold], [source], Texture(destination.id), Off)
  }

  function FinalPass(levels: seq<Fbo>, destination: Fbo, u: BloomUniforms): Pass
    requires |levels| > 0
  {
    Pass(BloomFinal, Texel(levels[0]) + [u.intensity], [levels[0].id], Texture(destination.id), Off)
  }

  /** `applyBloom`: nothing with fewer than two levels; otherwise prefilter
      into the destination, walk down the levels, walk back up, and combine
      into the destination. */
  function BloomPasses(source: nat, destination: Fbo, levels: seq<Fbo>, u: BloomUniforms): seq<Pass> {
    var n := |levels|;
    if n < 2 then []
    else [PrefilterPass(source, destination, u)] + DownPasses(destination, levels, n) + UpPasses(levels, n - 1)
         + [FinalPass(levels, destination, u)]
  }

  /** With `n >= 2` levels bloom draws `2n + 1` passes: the prefilter, the
      downsampling walk over levels 0..n-1, the additive upsampling walk over
      levels n-2..0, and the final combine reading level 0. */
  lemma BloomOrder(source: nat, destination: Fbo, levels: seq<Fbo>, u: BloomUniforms)
    ensures |levels| < 2 ==> BloomPasses(source, destination, levels, u) == []
    ensures |levels| >= 2 ==>
      var b, n := BloomPasses(source, destination, levels, u), |levels|;
      && |b| == 2 * n + 1
      && b[0] == PrefilterPass(source, destination, u)
      && (forall k :: 1 <= k <= n ==> b[k] == BlurPass(DownSource(destination, levels, k - 1), levels[k - 1], Off))
      && (forall k :: n < k < 2 * n ==> b[k] == BlurPass(levels[2 * n - k], levels[2 * n - 1 - k], Additive))
      && b[2 * n] == FinalPass(levels, destination, u)
  {
    var n := |levels|;
    if n >= 2 {
      var b := BloomPasses(source, destination, levels, u);
      var down, up := DownPasses(destination, levels, n), UpPasses(levels, n - 1);
      forall k | 0 <= k < |b|
        ensures BloomIndex(b, down, up, k)
      {
        ConcatIndex(PrefilterPass(source, destination, u), down, up, FinalPass(levels, destination, u), k);
      }
      forall k | 1 <= k <= n
        ensures b[k] == BlurPass(DownSource(destination, levels, k - 1), levels[k - 1], Off)
      {
        assert BloomIndex(b, down, up, k);
      }
      forall k | n < k < 2 * n
        ensures b[k] == BlurPass(levels[2 * n - k], levels[2 * n - 1 - k], Additive)
      {
        assert BloomIndex(b, down, up, k);
      }
    }
  }

  /** Where index `k` of `[prefilter] + down + up + [final]` falls. */
  predicate BloomIndex(b: seq<Pass>, down: seq<Pass>, up: seq<Pass>, k: int)
    requires |b| == |down| + |up| + 2 && 0 <= k < |b|
  {
    && (1 <= k <= |down| ==> b[k] == down[k - 1])
    && (|down| < k <= |down| + |up| ==> b[k] == up[k - 1 - |down|])
  }

  lemma ConcatIndex(first: Pass, down: seq<Pass>, up: seq<Pass>, last: Pass, k: int)
    requires 0 <= k < |down| + |up| + 2
    ensures |[first] + down + up + [last]| == |down| + |up| + 2
    ensures BloomIndex([first] + down + up + [last], down, up, k)
  {
  }

  /** The bloom textures are pairwise distinct and distinct from the source. */
  predicate BloomDistinct(source: nat, destination: Fbo, levels: seq<Fbo>) {
    && source != destination.id
    && (forall i :: 0 <= i < |levels| ==> levels[i].id != destination.id && levels[i].id != source)
    && (forall i, j :: 0 <= i < j < |levels| ==> levels[i].id != levels[j].id)
  }

  /** No bloom pass samples the texture it draws into. */
  lemma BloomNoFeedback(source: nat, destination: Fbo, levels: seq<Fbo>, u: BloomUniforms)
    requires BloomDistinct(source, destination, levels)
    ensures forall k :: 0 <= k < |BloomPasses(source, destination, levels, u)| ==>
      !Feedback(BloomPasses(source, destination, levels, u)[k])
  {
    BloomOrder(source, destination, levels, u);
    var b, n := BloomPasses(source, destination, levels, u), |levels|;
    forall k | 0 <= k < |b|
      ensures !Feedback(b[k])
    {
    }
  }

  // ---------------------------------------------------------------- splats

  /** One splat: where, which force and which colour. */
  datatype SplatDraw = SplatDraw(x: real, y: real, dx: real, dy: real, color: Rgb)

  /** The uniforms both splat passes share: the canvas aspect ratio and the
      splat radius as `correctRadius` widens it. */
  datatype SplatFrame = SplatFrame(aspectRatio: real, radius: real)

  /** `splat`: add the force into velocity, swap, then the colour into dye, swap. */
  function SplatPasses(v: PairIds, d: PairIds, f: SplatFrame, s: SplatDraw, blend: Blend): seq<Pass> {
    [ Pass(Splat, [f.aspectRatio, s.x, s.y, s.dx, s.dy, 0.0, f.radius], [v.read], Texture(v.write), blend),
      Pass(Splat, [f.aspectRatio, s.x, s.y, s.color.r, s.color.g, s.color.b, f.radius], [d.read], Texture(d.write), blend) ]
  }

  /** `multipleSplats` over the given draws: splat `k` works on the pairs as
      the previous `k` splats left them. */
  function MultiSplatPasses(v: PairIds, d: PairIds, f: SplatFrame, draws: seq<SplatDraw>, blend: Blend): seq<Pass> {
    var k := |draws|;
    if k == 0 then []
    else MultiSplatPasses(v, d, f, draws[..k - 1], blend)
         + SplatPasses(SwappedTimes(v, k - 1), SwappedTimes(d, k - 1), f, draws[k - 1], blend)
  }

  /** `k` splats draw `2k` passes, alternating velocity and dye, each on its
      pair as swapped by the splats before it; none samples its own target. */
  lemma {:induction false} MultiSplatShape(v: PairIds, d: PairIds, f: SplatFrame, draws: seq<SplatDraw>, blend: Blend)
    requires v.read != v.write && d.read != d.write
    ensures var ps := MultiSplatPasses(v, d, f, draws, blend);
      && |ps| == 2 * |draws|
      && (forall k :: 0 <= k < |draws| ==>
            ps[2 * k] == SplatPasses(SwappedTimes(v, k), SwappedTimes(d, k), f, draws[k], blend)[0] &&
            ps[2 * k + 1] == SplatPasses(SwappedTimes(v, k), SwappedTimes(d, k), f, draws[k], blend)[1])
      && (forall i :: 0 <= i < |ps| ==> !Feedback(ps[i]))
  {
    var k := |draws|;
    if k > 0 {
      MultiSplatShape(v, d, f, draws[..k - 1], blend);
      var prev := MultiSplatPasses(v, d, f, draws[..k - 1], blend);
      var last := SplatPasses(SwappedTimes(v, k - 1), SwappedTimes(d, k - 1), f, draws[k - 1], blend);
      var ps := MultiSplatPasses(v, d, f, draws, blend);
      assert ps == prev + last;
      forall j | 0 <= j < k
        ensures ps[2 * j] == SplatPasses(SwappedTimes(v, j), SwappedTimes(d, j), f, draws[j], blend)[0]
        ensures ps[2 * j + 1] == SplatPasses(SwappedTimes(v, j), SwappedTimes(d, j), f, draws[j], blend)[1]
      {
        if j < k - 1 {
          assert draws[..k - 1][j] == draws[j];
        }
      }
    }
  }

  /** Parity composes: `a` swaps then `b` swaps are `a + b` swaps. */
  lemma SwappedTimesAdd(p: PairIds, a: nat, b: nat)
    ensures SwappedTimes(SwappedTimes(p, a), b) == SwappedTimes(p, a + b)
  {
  }

  /** Swapping once per element of `a + b` is swapping once per element of
      `a` and then once per element of `b`. */
  lemma SwappedTimesConcat<T>(p: PairIds, a: seq<T>, b: seq<T>)
    ensures SwappedTimes(p, |a + b|) == SwappedTimes(SwappedTimes(p, |a|), |b|)
  {
    SwappedTimesAdd(p, |a|, |b|);
  }

  /** Two batches of splats drawn one after the other are one batch: the
      second starts on the pairs as the first left them. */
  lemma {:induction false} MultiSplatAppend(v: PairIds, d: PairIds, f: SplatFrame, a: seq<SplatDraw>, b: seq<SplatDraw>, blend: Blend)
    ensures MultiSplatPasses(v, d, f, a + b, blend) ==
      MultiSplatPasses(v, d, f, a, blend)
      + MultiSplatPasses(SwappedTimes(v, |a|), SwappedTimes(d, |a|), f, b, blend)
  {
    if |b| == 0 {
      assert a + b == a;
    } else {
      var b0, x := b[..|b| - 1], b[|b| - 1];
      assert b == b0 + [x];
      MultiSplatAppend(v, d, f, a, b0, blend);
      MultiSplatAppendStep(v, d, f, a, b0, x, blend);
    }
  }

  /** The step of `MultiSplatAppend`: one more splat at the end of the
      second batch. */
  lemma MultiSplatAppendStep(v: PairIds, d: PairIds, f: SplatFrame, a: seq<SplatDraw>, b0: seq<SplatDraw>, x: SplatDraw,
                             blend: Blend)
    requires MultiSplatPasses(v, d, f, a + b0, blend) ==
      MultiSplatPasses(v, d, f, a, blend) + MultiSplatPasses(SwappedTimes(v, |a|), SwappedTimes(d, |a|), f, b0, blend)
    ensures MultiSplatPasses(v, d, f, a + (b0 + [x]), blend) ==
      MultiSplatPasses(v, d, f, a, blend) + MultiSplatPasses(SwappedTimes(v, |a|), SwappedTimes(d, |a|), f, b0 + [x], blend)
  {
    var v1, d1 := SwappedTimes(v, |a|), SwappedTimes(d, |a|);
    var head, mid := MultiSplatPasses(v, d, f, a, blend), MultiSplatPasses(v1, d1, f, b0, blend);
    var last := SplatPasses(SwappedTimes(v1, |b0|), SwappedTimes(d1, |b0|), f, x, blend);
    MultiSplatSnocAfter(v, d, f, a, b0, x, blend);
    SwappedTimesConcat(v, a, b0);
    SwappedTimesConcat(d, a, b0);
    MultiSplatSnoc(v1, d1, f, b0, x, blend);
    assert (head + mid) + last == head + (mid + last);
  }

  /** A splat after two batches draws on the pairs as both batches left them. */
  lemma MultiSplatSnocAfter(v: PairIds, d: PairIds, f: SplatFrame, a: seq<SplatDraw>, b0: seq<SplatDraw>, x: SplatDraw,
                            blend: Blend)
    ensures MultiSplatPasses(v, d, f, a + (b0 + [x]), blend) ==
      MultiSplatPasses(v, d, f, a + b0, blend) + SplatPasses(SwappedTimes(v, |a + b0|), SwappedTimes(d, |a + b0|), f, x, blend)
  {
    assert a + (b0 + [x]) == (a + b0) + [x];
    MultiSplatSnoc(v, d, f, a + b0, x, blend);
  }

  /** One more splat appends its two passes, on the pairs as the splats
      before it left them. */
  lemma MultiSplatSnoc(v: PairIds, d: PairIds, f: SplatFrame, draws: seq<SplatDraw>, x: SplatDraw, blend: Blend)
    ensures MultiSplatPasses(v, d, f, draws + [x], blend) ==
      MultiSplatPasses(v, d, f, draws, blend) + SplatPasses(SwappedTimes(v, |draws|), SwappedTimes(d, |draws|), f, x, blend)
  {
    assert (draws + [x])[..|draws|] == draws;
  }


  // ---------------------------------------------------------------- render

  /** What `render(null)` reads from the configuration. */
  datatype RenderSettings = RenderSettings(bloom: bool, shading: bool, transparent: bool, backColor: Rgba)

  /** The display program's size uniforms (texel size and dither scale) are
      computed from the drawing-buffer size, which is what the pass records. */
  function DisplayPass(s: RenderSettings, dyeRead: nat, bloom: Fbo, bufferWidth: real, bufferHeight: real): Pass {
    Pass(Display,
         if s.shading || s.bloom then [bufferWidth, bufferHeight] else [],
         [dyeRead] + (if s.bloom then [bloom.id] else []),
         Screen, Over)
  }

  /** `render(null)`: bloom when enabled, then (with over-blending) the
      background colour when not transparent, then the display pass. */
  function RenderPasses(s: RenderSettings, dyeRead: nat, bloom: Fbo, levels: seq<Fbo>, u: BloomUniforms,
                        bufferWidth: real, bufferHeight: real): seq<Pass>
  {
    (if s.bloom then BloomPasses(dyeRead, bloom, levels, u) else [])
    + (if s.transparent then [] else [Pass(Color, [s.backColor.r, s.backColor.g, s.backColor.b, s.backColor.a], [], Screen, Over)])
    + [DisplayPass(s, dyeRead, bloom, bufferWidth, bufferHeight)]
  }

  /** The screen is drawn exactly once or twice, last by the display pass;
      the background comes first exactly when the canvas is not transparent;
      every other pass is a bloom pass drawn only when bloom is on. */
  lemma RenderShape(s: RenderSettings, dyeRead: nat, bloom: Fbo, levels: seq<Fbo>, u: BloomUniforms, w: real, h: real)
    ensures var r := RenderPasses(s, dyeRead, bloom, levels, u, w, h);
      var nb := if s.bloom then |BloomPasses(dyeRead, bloom, levels, u)| else 0;
      && |r| == nb + (if s.transparent then 1 else 2)
      && r[|r| - 1] == DisplayPass(s, dyeRead, bloom, w, h)
      && (!s.transparent ==> r[nb].program == Color && r[nb].target == Screen)
      && (forall i :: 0 <= i < nb ==> r[i].target != Screen)
  {
    var b := if s.bloom then BloomPasses(dyeRead, bloom, levels, u) else [];
    BloomOrder(dyeRead, bloom, levels, u);
    if s.bloom && |levels| >= 2 {
      var n := |levels|;
      forall i | 0 <= i < |b|
        ensures b[i].target != Screen
      {
      }
    }
  }
}
