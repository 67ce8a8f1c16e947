/** The framebuffer pool: the aspect-corrected size choice, ping-pong pairs of
    framebuffers with their swap, the copying resize, and the chain of
    ever-halving bloom levels. */
module Framebuffers {
  import opened Common
  import opened Gl

  datatype Size = Size(width: int, height: int)

  /** `getResolution`: the short side gets `round(resolution)` and the long
      side `round(resolution * aspect)`, oriented like the drawing buffer.
      A drawing buffer with a zero side makes the aspect ratio infinite or NaN,
      so no finite size comes out: that case is `None`. */
  function GetResolution(resolution: real, bufferWidth: nat, bufferHeight: nat): (r: Option<Size>)
    ensures r.None? <==> bufferWidth == 0 || bufferHeight == 0
    ensures r.Some? && bufferWidth > bufferHeight ==>
      r.value == Size(Round(resolution * (bufferWidth as real / bufferHeight as real)), Round(resolution))
    ensures r.Some? && bufferWidth <= bufferHeight ==>
      r.value == Size(Round(resolution), Round(resolution * (bufferHeight as real / bufferWidth as real)))
  {
    if bufferWidth == 0 || bufferHeight == 0 then None
    else
      var aspect := bufferWidth as real / bufferHeight as real;
      Reciprocal(bufferWidth as real, bufferHeight as real);
      var aspect' := if aspect < 1.0 then 1.0 / aspect else aspect;
      var min := Round(resolution);
      var max := Round(resolution * aspect');
      if bufferWidth > bufferHeight then Some(Size(max, min)) else Some(Size(min, max))
  }

  /** For a non-negative resolution the chosen size has the drawing buffer's
      orientation, and its short side is `round(resolution)`. */
  lemma GetResolutionOrientation(resolution: real, bufferWidth: nat, bufferHeight: nat)
    requires resolution >= 0.0 && bufferWidth > 0 && bufferHeight > 0
    ensures var s := GetResolution(resolution, bufferWidth, bufferHeight).value;
      && (bufferWidth > bufferHeight ==> s.width >= s.height == Round(resolution))
      && (bufferWidth < bufferHeight ==> s.height >= s.width == Round(resolution))
      && (bufferWidth == bufferHeight ==> s.width == s.height == Round(resolution))
  {
    if bufferWidth > bufferHeight {
      LongSideAtLeastShort(resolution, bufferWidth, bufferHeight);
    } else {
      LongSideAtLeastShort(resolution, bufferHeight, bufferWidth);
      if bufferWidth == bufferHeight {
        assert bufferHeight as real / bufferWidth as real == 1.0;
      }
    }
  }

  lemma LongSideAtLeastShort(resolution: real, long: nat, short: nat)
    requires resolution >= 0.0 && 0 < short <= long
    ensures Round(resolution * (long as real / short as real)) >= Round(resolution)
  {
    var k := long as real / short as real;
    AtLeastOne(long as real, short as real);
    MulAtLeastOne(resolution, k);
    RoundMonotonic(resolution, resolution * k);
  }

  lemma Reciprocal(a: real, b: real)
    requires a > 0.0 && b > 0.0
    ensures 1.0 / (a / b) == b / a
    ensures a < b <==> a / b < 1.0
  {
  }

  lemma AtLeastOne(a: real, b: real)
    requires 0.0 < b <= a
    ensures a / b >= 1.0
  {
  }

  lemma MulAtLeastOne(x: real, k: real)
    requires k >= 1.0
    ensures x >= 0.0 ==> x * k >= x
  {
    assert x * k - x == x * (k - 1.0);
  }

  /** A ping-pong pair: passes sample `read` and draw into `write`, then swap.
      `swaps` counts the swaps, to state how often a frame swaps each pair. */
  class DoubleFbo {
    var read: Fbo
    var write: Fbo
    var width: int
    var height: int
    var texelSizeX: real
    var texelSizeY: real
    ghost var swaps: nat

    constructor (first: Fbo, second: Fbo, w: int, h: int)
      ensures read == first && write == second && width == w && height == h
      ensures texelSizeX == first.texelSizeX && texelSizeY == first.texelSizeY && swaps == 0
    {
      read, write, width, height := first, second, w, h;
      texelSizeX, texelSizeY := first.texelSizeX, first.texelSizeY;
      swaps := 0;
    }

    /** `swap`: exchange the two framebuffers. */
    method Swap()
      modifies this
      ensures read == old(write) && write == old(read) && swaps == old(swaps) + 1
      ensures width == old(width) && height == old(height)
      ensures texelSizeX == old(texelSizeX) && texelSizeY == old(texelSizeY)
    {
      read, write := write, read;
      swaps := swaps + 1;
    }

    /** The two texture ids of the pair. */
    function Ids(): set<nat>
      reads this
    {
      {read.id, write.id}
    }
  }

  /** Two swaps give the pair back as it was. */
  method SwapTwice(d: DoubleFbo)
    modifies d
    ensures d.read == old(d.read) && d.write == old(d.write) && d.swaps == old(d.swaps) + 2
    ensures d.width == old(d.width) && d.height == old(d.height)
  {
    d.Swap();
    d.Swap();
  }

  /** Everything in the context except textures and their contents is unchanged. */
  twostate predicate SameProgramsAndBlend(gl: Context)
    reads gl
  {
    gl.blend == old(gl.blend) && gl.nextProgram == old(gl.nextProgram) && gl.compiled == old(gl.compiled)
  }

  /** `createDoubleFBO`: two fresh, blank framebuffers of the same size; the
      pair's texel size is the first one's. */
  method CreateDoubleFbo(gl: Context, w: int, h: int) returns (d: DoubleFbo)
    requires gl.Valid() && w > 0 && h > 0
    modifies gl
    ensures fresh(d) && gl.Valid()
    ensures d.read == NewFbo(old(gl.nextTexture), w, h) && d.write == NewFbo(old(gl.nextTexture) + 1, w, h)
    ensures d.width == w && d.height == h && d.swaps == 0
    ensures d.texelSizeX == d.read.texelSizeX && d.texelSizeY == d.read.texelSizeY
    ensures ContentOf(gl.Surfaces(), Texture(d.read.id)) == Blank && ContentOf(gl.Surfaces(), Texture(d.write.id)) == Blank
    ensures gl.nextTexture == old(gl.nextTexture) + 2
    ensures gl.passes == old(gl.passes) && SameProgramsAndBlend(gl)
  {
    var first := gl.CreateFbo(w, h);
    var second := gl.CreateFbo(w, h);
    d := new DoubleFbo(first, second, w, h);
  }

  /** `resizeFBO`: a fresh framebuffer of the new size into which the old one's
      texture is drawn with the copy program; with blending off (as
      `initFramebuffers` leaves it) it holds exactly the copy. */
  method ResizeFbo(gl: Context, target: Fbo, w: int, h: int) returns (f: Fbo)
    requires gl.Valid() && w > 0 && h > 0 && target.id < gl.nextTexture
    modifies gl
    ensures gl.Valid() && f == NewFbo(old(gl.nextTexture), w, h)
    ensures gl.nextTexture == old(gl.nextTexture) + 1
    ensures gl.passes == old(gl.passes) + [Pass(Copy, [], [target.id], Texture(f.id), old(gl.blend))]
    ensures gl.Surfaces() == Apply(old(gl.Surfaces()), Pass(Copy, [], [target.id], Texture(f.id), old(gl.blend)))
    ensures old(gl.blend) == Off ==>
      ContentOf(gl.Surfaces(), Texture(f.id)) == Drawn(Copy, [], [ContentOf(old(gl.Surfaces()), Texture(target.id))])
    ensures SameProgramsAndBlend(gl)
  {
    f := gl.CreateFbo(w, h);
    gl.Blit(Copy, [], [target.id], Texture(f.id));
    ReplaySnoc(map[], old(gl.passes), Pass(Copy, [], [target.id], Texture(f.id), old(gl.blend)));
  }

  /** `resizeDoubleFBO`: nothing happens when the size is unchanged; otherwise
      `read` becomes a resized copy of the old `read`, `write` a fresh
      framebuffer, and the recorded size and texel size follow the new size. */
  method ResizeDoubleFbo(gl: Context, target: DoubleFbo, w: int, h: int)
    requires gl.Valid() && w > 0 && h > 0 && target.read.id < gl.nextTexture
    modifies gl, target
    ensures gl.Valid() && target.swaps == old(target.swaps) && SameProgramsAndBlend(gl)
    ensures old(target.width) == w && old(target.height) == h ==>
      && target.read == old(target.read) && target.write == old(target.write)
      && target.width == w && target.height == h
      && target.texelSizeX == old(target.texelSizeX) && target.texelSizeY == old(target.texelSizeY)
      && gl.nextTexture == old(gl.nextTexture) && gl.passes == old(gl.passes)
    ensures !(old(target.width) == w && old(target.height) == h) ==>
      var copy := Pass(Copy, [], [old(target.read.id)], Texture(old(gl.nextTexture)), old(gl.blend));
      && target.read == NewFbo(old(gl.nextTexture), w, h)
      && target.write == NewFbo(old(gl.nextTexture) + 1, w, h)
      && target.width == w && target.height == h
      && target.texelSizeX == 1.0 / w as real && target.texelSizeY == 1.0 / h as real
      && gl.nextTexture == old(gl.nextTexture) + 2
      && gl.passes == old(gl.passes) + [copy]
      && gl.Surfaces() == Apply(old(gl.Surfaces()), copy)
  {
    if target.width == w && target.height == h {
      return;
    }
    var old_read := target.read;
    var r := ResizeFbo(gl, old_read, w, h);
    var f := gl.CreateFbo(w, h);
    target.read, target.write := r, f;
    target.width, target.height := w, h;
    target.texelSizeX, target.texelSizeY := 1.0 / w as real, 1.0 / h as real;
  }

  /** Bloom level `k` would be smaller than 2 in some dimension. */
  predicate TooSmall(res: Size, k: nat) {
    Shr(res.width, k + 1) < 2 || Shr(res.height, k + 1) < 2
  }

  /** The number of bloom levels from level `i` on: levels are added while
      fewer than `iterations` exist and the next one is at least 2 x 2. */
  function LevelCountFrom(res: Size, i: nat, iterations: int): nat
    decreases iterations - i
  {
    if i >= iterations || TooSmall(res, i) then 0 else 1 + LevelCountFrom(res, i + 1, iterations)
  }

  function LevelCount(res: Size, iterations: int): nat {
    LevelCountFrom(res, 0, iterations)
  }

  function LevelSize(res: Size, k: nat): Size {
    Size(Shr(res.width, k + 1), Shr(res.height, k + 1))
  }

  lemma {:induction false} LevelCountFromShape(res: Size, i: nat, iterations: int)
    ensures i + LevelCountFrom(res, i, iterations) <= if iterations > i then iterations else i
    ensures forall k :: i <= k < i + LevelCountFrom(res, i, iterations) ==> !TooSmall(res, k)
    ensures i + LevelCountFrom(res, i, iterations) < iterations ==> TooSmall(res, i + LevelCountFrom(res, i, iterations))
    decreases iterations - i
  {
    if !(i >= iterations || TooSmall(res, i)) {
      LevelCountFromShape(res, i + 1, iterations);
    }
  }

  /** The bloom chain has at most `iterations` levels, each at least 2 x 2, and
      it stops at the first level that would be smaller. */
  lemma BloomChainShape(res: Size, iterations: int)
    ensures LevelCount(res, iterations) <= if iterations > 0 then iterations else 0
    ensures forall k :: 0 <= k < LevelCount(res, iterations) ==>
      LevelSize(res, k).width >= 2 && LevelSize(res, k).height >= 2
    ensures LevelCount(res, iterations) < iterations ==> TooSmall(res, LevelCount(res, iterations))
  {
    LevelCountFromShape(res, 0, iterations);
    forall k | 0 <= k < LevelCount(res, iterations)
      ensures LevelSize(res, k).width >= 2 && LevelSize(res, k).height >= 2
    {
      assert !TooSmall(res, k);
    }
  }

  /** For a non-negative 32-bit size each level is half the previous one,
      rounded down. */
  lemma LevelsHalve(res: Size, k: nat)
    requires IsInt32(res.width) && res.width >= 0 && IsInt32(res.height) && res.height >= 0
    requires k + 2 < 32
    ensures LevelSize(res, k + 1) == Size(LevelSize(res, k).width / 2, LevelSize(res, k).height / 2)
  {
    ShrStep(res.width, k + 1);
    ShrStep(res.height, k + 1);
  }

  /** The level loop of `initBloomFramebuffers`: one fresh framebuffer per
      level, level `k` sized `res >> (k + 1)`, stopping at `iterations` levels
      or at the first level below 2 x 2. */
  method CreateBloomLevels(gl: Context, res: Size, iterations: int) returns (levels: seq<Fbo>)
    requires gl.Valid()
    modifies gl
    ensures gl.Valid()
    ensures |levels| == LevelCount(res, iterations)
    ensures forall k :: 0 <= k < |levels| ==>
      levels[k].id == old(gl.nextTexture) + k && Size(levels[k].width, levels[k].height) == LevelSize(res, k)
    ensures gl.nextTexture == old(gl.nextTexture) + |levels|
    ensures gl.passes == old(gl.passes) && SameProgramsAndBlend(gl)
  {
    levels := [];
    var i := 0;
    while i < iterations
      invariant 0 <= i && |levels| == i && gl.Valid()
      invariant i + LevelCountFrom(res, i, iterations) == LevelCount(res, iterations)
      invariant forall k :: 0 <= k < i ==>
        levels[k].id == old(gl.nextTexture) + k && Size(levels[k].width, levels[k].height) == LevelSize(res, k)
      invariant gl.nextTexture == old(gl.nextTexture) + i
      invariant gl.passes == old(gl.passes) && SameProgramsAndBlend(gl)
      decreases iterations - i
    {
      var w := Shr(res.width, i + 1);
      var h := Shr(res.height, i + 1);
      if w < 2 || h < 2 {
        break;
      }
      var f := gl.CreateFbo(w, h);
      levels := levels + [f];
      i := i + 1;
    }
  }
}
