/** The dot-grid background: dots laid out every `SPACING` pixels over the
    viewport, the shared queue of click ripples pruned as they expire, the
    dots near the mouse, the ripple glow of each dot, and the faint lines
    joining close pairs of nearby dots. The drift of each dot (sine and
    cosine of the frame time), square roots and the clock are inputs. */
module DotGrid {
  import opened Common

  const Spacing: nat := 40
  const BaseSize: real := 1.5
  const HoverSize: real := 2.5
  const BaseAlpha: real := 0.15
  const InteractionRadius: real := 120.0
  const LineMaxDist: real := 100.0
  /** How long a ripple lives, in milliseconds. */
  const RippleLifetime: real := 2000.0
  /** Where the mouse is taken to be when it is outside the window. */
  const Offscreen: real := -9999.0

  datatype Dot = Dot(baseX: int, baseY: int, phase: real)

  datatype Ripple = Ripple(x: real, y: real, time: real)

  datatype Point = Point(x: real, y: real)

  // ---------------------------------------------------------------- the grid

  /** `Math.ceil(n / SPACING) + 1` for a whole number of pixels: the fewest
      dots, one every `SPACING` pixels from 0, that reach the far edge. */
  function GridCount(n: nat): (k: nat)
    ensures k >= 1 && Spacing * (k - 1) >= n
    ensures k >= 2 ==> Spacing * (k - 2) < n
  {
    (n + Spacing - 1) / Spacing + 1
  }

  /** The `k`-th dot pushed by `buildGrid` on a grid `cols` dots wide. */
  function GridDot(cols: nat, k: nat, phases: seq<real>): Dot
    requires cols > 0 && k < |phases|
  {
    Dot(Spacing * (k % cols), Spacing * (k / cols), phases[k])
  }

  /** The grid `buildGrid(w, h)` builds, the `k`-th dot taking the `k`-th
      random phase. */
  function Grid(w: nat, h: nat, phases: seq<real>): seq<Dot>
    requires |phases| == GridCount(w) * GridCount(h)
  {
    seq(|phases|, k requires 0 <= k < |phases| => GridDot(GridCount(w), k, phases))
  }

  /** Row `r`, column `c` is entry `r * cols + c` of a row-major layout. */
  lemma RowMajorIndex(r: nat, c: nat, cols: nat, rows: nat)
    requires c < cols && r < rows
    ensures (r * cols + c) / cols == r && (r * cols + c) % cols == c
    ensures r * cols + c < rows * cols
  {
    DivModUnique(r * cols + c, cols, r, c);
    MulLeftMono(r + 1, rows, cols);
  }

  /** The grid has `(ceil(w / 40) + 1) * (ceil(h / 40) + 1)` dots; the dot in
      row `r`, column `c` sits at `(40 c, 40 r)` with its own phase. */
  lemma GridLayout(w: nat, h: nat, phases: seq<real>, r: nat, c: nat)
    requires |phases| == GridCount(w) * GridCount(h)
    requires r < GridCount(h) && c < GridCount(w)
    ensures var k := r * GridCount(w) + c;
      && k < |Grid(w, h, phases)|
      && Grid(w, h, phases)[k] == Dot(Spacing * c, Spacing * r, phases[k])
  {
    RowMajorIndex(r, c, GridCount(w), GridCount(h));
  }

  /** Row-major order: each dot is right of the one before in the same row,
      or starts a lower row at the left edge. */
  lemma GridRowMajor(w: nat, h: nat, phases: seq<real>, k: nat)
    requires |phases| == GridCount(w) * GridCount(h) && k + 1 < |phases|
    ensures var g := Grid(w, h, phases);
      || (g[k + 1].baseY == g[k].baseY && g[k + 1].baseX == g[k].baseX + Spacing)
      || (g[k + 1].baseY == g[k].baseY + Spacing && g[k + 1].baseX == 0)
  {
    NextIndex(k, GridCount(w));
  }

  /** The index after `k` in a row-major layout `cols` wide is the next
      column of the same row, or the first column of the next row. */
  lemma NextIndex(k: nat, cols: nat)
    requires cols > 0
    ensures || ((k + 1) / cols == k / cols && (k + 1) % cols == k % cols + 1)
            || ((k + 1) / cols == k / cols + 1 && (k + 1) % cols == 0)
  {
    var r, c := k / cols, k % cols;
    assert k == r * cols + c;
    if c + 1 < cols {
      DivModUnique(k + 1, cols, r, c + 1);
    } else {
      DivModUnique(k + 1, cols, r + 1, 0);
    }
  }

  /** The grid reaches the far edges: the last column is at or beyond `w`
      and the last row at or beyond `h`, and one dot fewer would not reach. */
  lemma GridCovers(w: nat, h: nat)
    ensures Spacing * (GridCount(w) - 1) >= w && Spacing * (GridCount(h) - 1) >= h
    ensures GridCount(w) >= 2 ==> Spacing * (GridCount(w) - 2) < w
  {
  }

  /** The loops of `buildGrid`: rows of columns, every `SPACING` pixels
      from the origin; `phases` are the random phases drawn in push order. */
  method BuildDots(w: nat, h: nat, phases: seq<real>) returns (dots: seq<Dot>)
    requires |phases| == GridCount(w) * GridCount(h)
    ensures dots == Grid(w, h, phases)
  {
    var cols := GridCount(w);
    var rows := GridCount(h);
    ghost var grid := Grid(w, h, phases);
    dots := [];
    var r := 0;
    ghost var row := 0;
    while r < rows
      invariant 0 <= r <= rows && row == r * cols && row <= |grid|
      invariant dots == grid[..row]
    {
      MulLeftMono(r + 1, rows, cols);
      assert (r + 1) * cols == row + cols;
      var c := 0;
      while c < cols
        invariant 0 <= c <= cols && row + cols <= |grid|
        invariant dots == grid[..row + c]
      {
        RowMajorIndex(r, c, cols, rows);
        ghost var k := row + c;
        assert grid[k] == Dot(c * Spacing, r * Spacing, phases[k]);
        assert grid[..k + 1] == grid[..k] + [grid[k]];
        dots := dots + [Dot(c * Spacing, r * Spacing, phases[r * cols + c])];
        c := c + 1;
      }
      r, row := r + 1, row + cols;
    }
    assert dots == grid;
  }

  // ---------------------------------------------------------------- ripples

  /** A ripple more than two seconds old. */
  predicate Expired(r: Ripple, now: real) {
    now - r.time > RippleLifetime
  }

  /** The queue after the pruning loop: the longest leading run of expired
      ripples removed, the rest kept in order. */
  function Pruned(rs: seq<Ripple>, now: real): (p: seq<Ripple>)
    ensures |p| <= |rs| && p == rs[|rs| - |p|..]
    ensures forall j :: 0 <= j < |rs| - |p| ==> Expired(rs[j], now)
    ensures |p| > 0 ==> !Expired(p[0], now)
  {
    if |rs| > 0 && Expired(rs[0], now) then Pruned(rs[1..], now) else rs
  }

  /** Pruning twice at the same time removes nothing more. */
  lemma PrunedIdempotent(rs: seq<Ripple>, now: real)
    ensures Pruned(Pruned(rs, now), now) == Pruned(rs, now)
  {
  }

  /** Pruning at an earlier time and then at a later one is pruning at the
      later one: whatever had expired earlier has expired later too. */
  lemma {:induction false} PrunedLater(rs: seq<Ripple>, earlier: real, later: real)
    requires earlier <= later
    ensures Pruned(Pruned(rs, earlier), later) == Pruned(rs, later)
  {
    if |rs| > 0 && Expired(rs[0], earlier) {
      PrunedLater(rs[1..], earlier, later);
    }
  }

  /** The ripple queue the page shares with the grid; the page appends a
      ripple per click, the grid prunes it every frame. */
  class RippleQueue {
    var ripples: seq<Ripple>

    constructor ()
      ensures ripples == []
    {
      ripples := [];
    }

    /** The pruning loop: `shift` while the head has expired. */
    method Prune(now: real)
      modifies this
      ensures ripples == Pruned(old(ripples), now)
    {
      while |ripples| > 0 && now - ripples[0].time > RippleLifetime
        invariant Pruned(ripples, now) == Pruned(old(ripples), now)
        decreases |ripples|
      {
        ripples := ripples[1..];
      }
    }
  }

  // ---------------------------------------------------------------- a dot's paint

  /** A dot's position this frame: its grid place plus its drift. */
  function Position(d: Dot, drift: Point): Point {
    Point(d.baseX as real + drift.x, d.baseY as real + drift.y)
  }

  function DistSq(a: Point, b: Point): real {
    (a.x - b.x) * (a.x - b.x) + (a.y - b.y) * (a.y - b.y)
  }

  /** `isNear`: strictly inside the interaction radius of the mouse. */
  predicate Near(p: Point, mouse: Point) {
    DistSq(p, mouse) < InteractionRadius * InteractionRadius
  }

  function Abs(x: real): real {
    if x < 0.0 then -x else x
  }

  function Max(a: real, b: real): real {
    if a < b then b else a
  }

  /** What the ripples add to a dot's radius and opacity. */
  datatype Glow = Glow(size: real, alpha: real)

  /** How strongly a ring `dist - radius` away from a dot lights it: one at the
      ring, falling linearly to nothing 120 pixels away, times `fade`. */
  function RingBoost(dist: real, radius: real, fade: real): (b: real)
    requires fade >= 0.0
    ensures 0.0 <= b <= fade
    ensures b > 0.0 ==> Abs(dist - radius) < 120.0
  {
    if Abs(dist - radius) < 120.0 then
      var proximity := 1.0 - Abs(dist - radius) / 120.0;
      MulMono(proximity, 1.0, fade);
      proximity * fade
    else 0.0
  }

  /** The glow one ripple `elapsed` seconds old gives a dot `dist` pixels from
      its centre: the primary ring expanding at 600 pixels a second and fading
      out over 1.4 seconds, and an echo ring 100 ms behind fading over 1.6
      seconds; a ripple older than two seconds gives none. */
  function RippleGlow(elapsed: real, dist: real): (g: Glow)
    ensures g.size >= 0.0 && g.alpha >= 0.0
    ensures g.alpha * 10.0 == g.size
    ensures elapsed > 2.0 ==> g == Glow(0.0, 0.0)
  {
    if elapsed > 2.0 then Glow(0.0, 0.0)
    else
      var primary := RingBoost(dist, elapsed * 600.0, Max(0.0, 1.0 - elapsed / 1.4));
      var echoElapsed := Max(0.0, elapsed - 0.1);
      var echo := if echoElapsed > 0.0 then RingBoost(dist, echoElapsed * 600.0, Max(0.0, 1.0 - elapsed / 1.6)) else 0.0;
      Glow(primary * 2.5 + echo * 1.2, primary * 0.25 + echo * 0.12)
  }

  /** The glow of the first `n` ripples at a dot, summed in queue order;
      `sqrt` is `Math.sqrt`. */
  function GlowSum(p: Point, ripples: seq<Ripple>, n: nat, now: real, sqrt: real -> real): (g: Glow)
    requires n <= |ripples|
    ensures g.size >= 0.0 && g.alpha >= 0.0
    ensures g.alpha * 10.0 == g.size
  {
    if n == 0 then Glow(0.0, 0.0)
    else
      var rest := GlowSum(p, ripples, n - 1, now, sqrt);
      var r := ripples[n - 1];
      var one := RippleGlow((now - r.time) / 1000.0, sqrt(DistSq(p, Point(r.x, r.y))));
      Glow(rest.size + one.size, rest.alpha + one.alpha)
  }

  /** Ripples older than two seconds add no glow at all. */
  lemma {:induction false} ExpiredGlowNothing(p: Point, ripples: seq<Ripple>, n: nat, now: real, sqrt: real -> real)
    requires n <= |ripples|
    requires forall j :: 0 <= j < n ==> now - ripples[j].time > RippleLifetime
    ensures GlowSum(p, ripples, n, now, sqrt) == Glow(0.0, 0.0)
  {
    if n > 0 {
      ExpiredGlowNothing(p, ripples, n - 1, now, sqrt);
    }
  }

  /** `rippleIntensity`: the opacity the ripples added, in units of 0.15,
      clamped to [0, 1]. */
  function RippleIntensity(added: real): (i: real)
    ensures 0.0 <= i <= 1.0
    ensures 0.0 <= added <= 0.15 ==> i * 0.15 == added
  {
    if added / 0.15 < 0.0 then 0.0 else if 1.0 < added / 0.15 then 1.0 else added / 0.15
  }

  datatype Rgb8 = Rgb8(r: int, g: int, b: int)

  const Grey := Rgb8(26, 26, 26)

  /** The fill colour: grey, blended towards red (224, 82, 82) once the
      ripple intensity is above 0.05. */
  function Tint(intensity: real): (c: Rgb8)
    requires 0.0 <= intensity <= 1.0
    ensures 26 <= c.r <= 224 && 26 <= c.g <= 82 && 26 <= c.b <= 82
    ensures c.g == c.b && c.r >= c.g
    ensures intensity <= 0.05 ==> c == Grey
  {
    if intensity > 0.05 then
      Rgb8(Round(26.0 + 198.0 * intensity), Round(26.0 + 56.0 * intensity), Round(26.0 + 56.0 * intensity))
    else Grey
  }

  /** What the draw loop paints for one dot. */
  datatype Paint = Paint(at: Point, size: real, alpha: real, color: Rgb8)

  /** One iteration of the draw loop: the dot's place, its size and opacity
      grown near the mouse and by the ripples (when the page shares a ripple
      queue), and its colour from the ripple intensity. */
  function PaintOf(d: Dot, drift: Point, mouse: Point, ripples: Option<seq<Ripple>>, now: real, sqrt: real -> real): Paint {
    var p := Position(d, drift);
    var closeness := 1.0 - sqrt(DistSq(p, mouse)) / InteractionRadius;
    var baseSize := if Near(p, mouse) then BaseSize + (HoverSize - BaseSize) * closeness else BaseSize;
    var baseAlpha := if Near(p, mouse) then BaseAlpha + 0.15 * closeness else BaseAlpha;
    var g := if ripples.Some? then GlowSum(p, ripples.value, |ripples.value|, now, sqrt) else Glow(0.0, 0.0);
    Paint(p, baseSize + g.size, baseAlpha + g.alpha, Tint(RippleIntensity(g.alpha)))
  }

  /** The ripples only ever add: a dot is at least as large and as opaque
      as the mouse alone makes it, the opacity added is a tenth of the size
      added, and without ripples (or with only expired ones) it stays grey. */
  lemma PaintGlow(d: Dot, drift: Point, mouse: Point, ripples: Option<seq<Ripple>>, now: real, sqrt: real -> real)
    ensures var paint, q := PaintOf(d, drift, mouse, ripples, now, sqrt), PaintOf(d, drift, mouse, None, now, sqrt);
      && paint.at == q.at && paint.size >= q.size && paint.alpha >= q.alpha
      && (paint.alpha - q.alpha) * 10.0 == paint.size - q.size
      && q.color == Grey
    ensures (ripples.None? || forall j :: 0 <= j < |ripples.value| ==> now - ripples.value[j].time > RippleLifetime) ==>
      PaintOf(d, drift, mouse, ripples, now, sqrt) == PaintOf(d, drift, mouse, None, now, sqrt)
  {
    if ripples.Some? && forall j :: 0 <= j < |ripples.value| ==> now - ripples.value[j].time > RippleLifetime {
      ExpiredGlowNothing(Position(d, drift), ripples.value, |ripples.value|, now, sqrt);
    }
  }

  /** The ripple loop for one dot, `continue`-ing past ripples older than two
      seconds. */
  method DotGlow(p: Point, ripples: seq<Ripple>, now: real, sqrt: real -> real) returns (size: real, alpha: real)
    ensures Glow(size, alpha) == GlowSum(p, ripples, |ripples|, now, sqrt)
  {
    size, alpha := 0.0, 0.0;
    var r := 0;
    while r < |ripples|
      invariant 0 <= r <= |ripples| && Glow(size, alpha) == GlowSum(p, ripples, r, now, sqrt)
    {
      var ripple := ripples[r];
      var elapsed := (now - ripple.time) / 1000.0;
      var dist := sqrt(DistSq(p, Point(ripple.x, ripple.y)));
      ghost var before, one := Glow(size, alpha), RippleGlow(elapsed, dist);
      assert GlowSum(p, ripples, r + 1, now, sqrt) == Glow(before.size + one.size, before.alpha + one.alpha);
      if elapsed > 2.0 {
        r := r + 1;
        continue;
      }
      var primary := RingBoost(dist, elapsed * 600.0, Max(0.0, 1.0 - elapsed / 1.4));
      size, alpha := size + primary * 2.5, alpha + primary * 0.25;
      var echoElapsed := Max(0.0, elapsed - 0.1);
      var echo := if echoElapsed > 0.0 then RingBoost(dist, echoElapsed * 600.0, Max(0.0, 1.0 - elapsed / 1.6)) else 0.0;
      size, alpha := size + echo * 1.2, alpha + echo * 0.12;
      r := r + 1;
    }
  }

  /** The body of the draw loop for one dot: its paint, and whether it goes
      into `nearby`. */
  method PaintDot(d: Dot, drift: Point, mouse: Point, ripples: Option<seq<Ripple>>, now: real, sqrt: real -> real)
    returns (paint: Paint, isNear: bool)
    ensures paint == PaintOf(d, drift, mouse, ripples, now, sqrt)
    ensures isNear == Near(paint.at, mouse)
  {
    var p := Point(d.baseX as real + drift.x, d.baseY as real + drift.y);
    var distSq := DistSq(p, mouse);
    isNear := distSq < InteractionRadius * InteractionRadius;
    var closeness := 1.0 - sqrt(distSq) / InteractionRadius;
    var size := if isNear then BaseSize + (HoverSize - BaseSize) * closeness else BaseSize;
    var alpha := if isNear then BaseAlpha + 0.15 * closeness else BaseAlpha;
    var addAlpha := 0.0;
    if ripples.Some? {
      var addSize;
      addSize, addAlpha := DotGlow(p, ripples.value, now, sqrt);
      size, alpha := size + addSize, alpha + addAlpha;
    }
    var baseAlpha := if isNear then BaseAlpha + 0.15 * closeness else BaseAlpha;
    assert alpha - baseAlpha == addAlpha;
    var intensity := RippleIntensity(alpha - baseAlpha);
    var color := if intensity > 0.05 then
      Rgb8(Round(26.0 + (224.0 - 26.0) * intensity), Round(26.0 + (82.0 - 26.0) * intensity), Round(26.0 + (82.0 - 26.0) * intensity))
    else Grey;
    paint := Paint(p, size, alpha, color);
  }

  // ---------------------------------------------------------------- nearby dots

  /** Every dot's position this frame, in dot order. */
  function Positions(dots: seq<Dot>, drifts: seq<Point>): (ps: seq<Point>)
    requires |drifts| == |dots|
    ensures |ps| == |dots|
  {
    seq(|dots|, i requires 0 <= i < |dots| => Position(dots[i], drifts[i]))
  }

  /** `nearby`: the positions near the mouse, in the order of the dots. */
  function NearOnes(ps: seq<Point>, mouse: Point): (near: seq<Point>)
    ensures |near| <= |ps|
  {
    if |ps| == 0 then []
    else NearOnes(ps[..|ps| - 1], mouse) + (if Near(ps[|ps| - 1], mouse) then [ps[|ps| - 1]] else [])
  }

  /** A position is in `nearby` exactly when it is one of the dots' and near
      the mouse. */
  lemma {:induction false} NearOnesMembers(ps: seq<Point>, mouse: Point)
    ensures forall p :: p in NearOnes(ps, mouse) <==> p in ps && Near(p, mouse)
  {
    if |ps| > 0 {
      var init := ps[..|ps| - 1];
      NearOnesMembers(init, mouse);
      assert ps == init + [ps[|ps| - 1]];
    }
  }

  /** The classification keeps the dots' order: the near ones of a run of
      dots followed by another are those of the first, then those of the
      second. */
  lemma {:induction false} NearOnesAppend(a: seq<Point>, b: seq<Point>, mouse: Point)
    ensures NearOnes(a + b, mouse) == NearOnes(a, mouse) + NearOnes(b, mouse)
  {
    if |b| > 0 {
      var init := b[..|b| - 1];
      NearOnesAppend(a, init, mouse);
      assert (a + b)[..|a + b| - 1] == a + init;
    } else {
      assert a + b == a;
    }
  }

  /** Every paint the draw loop makes, in dot order. */
  function Paints(dots: seq<Dot>, drifts: seq<Point>, mouse: Point, ripples: Option<seq<Ripple>>, now: real,
                  sqrt: real -> real): (paints: seq<Paint>)
    requires |drifts| == |dots|
    ensures |paints| == |dots|
  {
    seq(|dots|, i requires 0 <= i < |dots| => PaintOf(dots[i], drifts[i], mouse, ripples, now, sqrt))
  }

  /** The draw loop over the dots: each is painted, and pushed onto `nearby`
      when near the mouse. */
  method PaintDots(dots: seq<Dot>, drifts: seq<Point>, mouse: Point, ripples: Option<seq<Ripple>>, now: real,
                   sqrt: real -> real)
    returns (paints: seq<Paint>, nearby: seq<Point>)
    requires |drifts| == |dots|
    ensures paints == Paints(dots, drifts, mouse, ripples, now, sqrt)
    ensures nearby == NearOnes(Positions(dots, drifts), mouse)
  {
    ghost var ps := Positions(dots, drifts);
    paints, nearby := [], [];
    var i := 0;
    while i < |dots|
      invariant 0 <= i <= |dots|
      invariant paints == Paints(dots, drifts, mouse, ripples, now, sqrt)[..i]
      invariant nearby == NearOnes(ps[..i], mouse)
    {
      var paint, isNear := PaintDot(dots[i], drifts[i], mouse, ripples, now, sqrt);
      paints := paints + [paint];
      if isNear {
        nearby := nearby + [paint.at];
      }
      assert ps[..i + 1][..i] == ps[..i];
      i := i + 1;
    }
    assert ps[..i] == ps;
  }

  // ---------------------------------------------------------------- connection lines

  /** The pairs row `i` of the pair loop examines: `(i, j)` for each `j` after `i`. */
  function Row(i: nat, n: nat): (row: seq<(nat, nat)>)
    requires i < n
    ensures |row| == n - i - 1
  {
    seq(n - i - 1, k requires 0 <= k < n - i - 1 => (i, i + 1 + k))
  }

  /** The pairs the first `i` rows of the pair loop examine, in loop order. */
  function PairsBefore(i: nat, n: nat): seq<(nat, nat)>
    requires i <= n
  {
    if i == 0 then [] else PairsBefore(i - 1, n) + Row(i - 1, n)
  }

  /** Every pair the loop over `n` nearby dots examines, in order. */
  function PairOrder(n: nat): seq<(nat, nat)> {
    PairsBefore(n, n)
  }

  /** The first `i` rows examine exactly the pairs `a < b < n` with `a < i`. */
  lemma {:induction false} PairsBeforeMembers(i: nat, n: nat)
    requires i <= n
    ensures forall q: (nat, nat) :: q in PairsBefore(i, n) <==> q.0 < i && q.0 < q.1 < n
  {
    if i > 0 {
      PairsBeforeMembers(i - 1, n);
      var row := Row(i - 1, n);
      forall q: (nat, nat) | q.0 == i - 1 && q.0 < q.1 < n
        ensures q in row
      {
        assert row[q.1 - i] == q;
      }
    }
  }

  /** `(a, b)` comes before `(c, d)` in loop order. */
  predicate Before(p: (nat, nat), q: (nat, nat)) {
    p.0 < q.0 || (p.0 == q.0 && p.1 < q.1)
  }

  /** The loop order is strictly increasing, so no pair comes twice. */
  lemma {:induction false} PairsBeforeSorted(i: nat, n: nat)
    requires i <= n
    ensures forall a, b :: 0 <= a < b < |PairsBefore(i, n)| ==> Before(PairsBefore(i, n)[a], PairsBefore(i, n)[b])
  {
    if i > 0 {
      PairsBeforeSorted(i - 1, n);
      PairsBeforeMembers(i - 1, n);
      var prev, row := PairsBefore(i - 1, n), Row(i - 1, n);
      var ps := prev + row;
      forall a, b | 0 <= a < b < |ps|
        ensures Before(ps[a], ps[b])
      {
        if b < |prev| {
          assert ps[a] == prev[a] && ps[b] == prev[b];
          assert Before(prev[a], prev[b]);
        } else if a < |prev| {
          assert ps[a] == prev[a] && prev[a] in prev;
          assert ps[b] == row[b - |prev|];
          assert ps[a].0 < i - 1;
          assert ps[b].0 == i - 1;
        } else {
          assert ps[a] == row[a - |prev|] && ps[b] == row[b - |prev|];
          assert ps[a].1 < ps[b].1;
        }
      }
    }
  }

  /** The first `i` rows examine `i (2n - i - 1) / 2` pairs. */
  lemma {:induction false} PairsBeforeCount(i: nat, n: nat)
    requires i <= n
    ensures 2 * |PairsBefore(i, n)| == i * (2 * n - i - 1)
  {
    if i > 0 {
      PairsBeforeCount(i - 1, n);
      assert i * (2 * n - i - 1) == (i - 1) * (2 * n - (i - 1) - 1) + 2 * (n - i);
    }
  }

  /** Each unordered pair of `n` nearby dots is examined exactly once: the
      loop visits precisely the pairs `i < j < n`, each at one position, so
      `n (n - 1) / 2` of them. */
  lemma PairOrderExactlyOnce(n: nat)
    ensures forall q: (nat, nat) :: q in PairOrder(n) <==> q.0 < q.1 < n
    ensures forall a, b :: 0 <= a < b < |PairOrder(n)| ==> PairOrder(n)[a] != PairOrder(n)[b]
    ensures 2 * |PairOrder(n)| == n * (n - 1)
  {
    PairsBeforeMembers(n, n);
    PairsBeforeSorted(n, n);
    PairsBeforeCount(n, n);
  }

  /** Two nearby dots close enough for a line. */
  predicate Close(a: Point, b: Point) {
    DistSq(a, b) < LineMaxDist * LineMaxDist
  }

  datatype Segment = Segment(from: Point, to: Point)

  predicate PairsWithin(pairs: seq<(nat, nat)>, n: nat) {
    forall k :: 0 <= k < |pairs| ==> pairs[k].0 < n && pairs[k].1 < n
  }

  /** The lines the examined pairs draw, in loop order: one from the first
      dot of a pair to the second when they are close. */
  function LinesOf(ps: seq<Point>, pairs: seq<(nat, nat)>): seq<Segment>
    requires PairsWithin(pairs, |ps|)
  {
    if |pairs| == 0 then []
    else
      var q := pairs[|pairs| - 1];
      LinesOf(ps, pairs[..|pairs| - 1]) + (if Close(ps[q.0], ps[q.1]) then [Segment(ps[q.0], ps[q.1])] else [])
  }

  lemma PairsBeforeWithin(i: nat, n: nat)
    requires i <= n
    ensures PairsWithin(PairsBefore(i, n), n)
  {
    PairsBeforeMembers(i, n);
    var ps := PairsBefore(i, n);
    forall k | 0 <= k < |ps|
      ensures ps[k].0 < n && ps[k].1 < n
    {
      assert ps[k] in ps;
    }
  }

  /** The connection lines of a frame. */
  function Lines(ps: seq<Point>): seq<Segment> {
    PairsBeforeWithin(|ps|, |ps|);
    LinesOf(ps, PairOrder(|ps|))
  }

  /** A line is drawn for an examined pair exactly when its dots are close. */
  lemma {:induction false} LinesOfMembers(ps: seq<Point>, pairs: seq<(nat, nat)>)
    requires PairsWithin(pairs, |ps|)
    ensures forall s :: s in LinesOf(ps, pairs) <==>
      exists q :: q in pairs && Close(ps[q.0], ps[q.1]) && s == Segment(ps[q.0], ps[q.1])
  {
    if |pairs| > 0 {
      var init := pairs[..|pairs| - 1];
      LinesOfMembers(ps, init);
      assert pairs == init + [pairs[|pairs| - 1]];
    }
  }

  /** The lines join exactly the close pairs `i < j` of nearby dots. */
  lemma LinesJoinClosePairs(ps: seq<Point>)
    ensures forall s :: s in Lines(ps) <==>
      exists i, j :: 0 <= i < j < |ps| && Close(ps[i], ps[j]) && s == Segment(ps[i], ps[j])
  {
    var pairs := PairOrder(|ps|);
    PairsBeforeWithin(|ps|, |ps|);
    LinesOfMembers(ps, pairs);
    PairOrderExactlyOnce(|ps|);
    forall s | s in Lines(ps)
      ensures exists i, j :: 0 <= i < j < |ps| && Close(ps[i], ps[j]) && s == Segment(ps[i], ps[j])
    {
      var q :| q in pairs && Close(ps[q.0], ps[q.1]) && s == Segment(ps[q.0], ps[q.1]);
    }
    forall s | exists i, j :: 0 <= i < j < |ps| && Close(ps[i], ps[j]) && s == Segment(ps[i], ps[j])
      ensures s in Lines(ps)
    {
      var i, j :| 0 <= i < j < |ps| && Close(ps[i], ps[j]) && s == Segment(ps[i], ps[j]);
      assert (i, j) in pairs;
    }
  }

  /** One more examined pair draws at most one more line. */
  lemma LinesOfSnoc(ps: seq<Point>, pairs: seq<(nat, nat)>, q: (nat, nat))
    requires PairsWithin(pairs, |ps|) && q.0 < |ps| && q.1 < |ps|
    ensures PairsWithin(pairs + [q], |ps|)
    ensures LinesOf(ps, pairs + [q]) ==
      LinesOf(ps, pairs) + (if Close(ps[q.0], ps[q.1]) then [Segment(ps[q.0], ps[q.1])] else [])
  {
    assert (pairs + [q])[..|pairs|] == pairs;
  }

  /** The pair loop over `nearby`, run when it holds more than one dot. */
  method ConnectionLines(nearby: seq<Point>) returns (lines: seq<Segment>)
    ensures lines == Lines(nearby)
  {
    var n := |nearby|;
    lines := [];
    if n <= 1 {
      assert PairOrder(n) == [];
      return;
    }
    var i := 0;
    while i < n
      invariant 0 <= i <= n && PairsWithin(PairsBefore(i, n), n)
      invariant lines == LinesOf(nearby, PairsBefore(i, n))
    {
      lines := RowLines(nearby, i, lines);
      i := i + 1;
    }
  }

  lemma PrefixSnoc<T>(done: seq<T>, row: seq<T>, k: nat)
    requires k < |row|
    ensures done + row[..k + 1] == (done + row[..k]) + [row[k]]
  {
    assert row[..k + 1] == row[..k] + [row[k]];
  }

  /** The pair `(i, i + 1 + k)` of row `i` extends the prefix of the pairs
      examined so far by at most one line. */
  lemma RowStep(ps: seq<Point>, done: seq<(nat, nat)>, i: nat, k: nat)
    requires i < |ps| && k < |ps| - i - 1
    requires PairsWithin(done + Row(i, |ps|)[..k], |ps|)
    ensures PairsWithin(done + Row(i, |ps|)[..k + 1], |ps|)
    ensures LinesOf(ps, done + Row(i, |ps|)[..k + 1]) ==
      LinesOf(ps, done + Row(i, |ps|)[..k]) + (if Close(ps[i], ps[i + 1 + k]) then [Segment(ps[i], ps[i + 1 + k])] else [])
  {
    var row := Row(i, |ps|);
    assert row[k] == (i, i + 1 + k);
    PrefixSnoc(done, row, k);
    LinesOfSnoc(ps, done + row[..k], (i, i + 1 + k));
  }

  /** The inner loop of the pair loop: row `i` appends the lines from dot `i`
      to each close dot after it. */
  method RowLines(nearby: seq<Point>, i: nat, lines: seq<Segment>) returns (extended: seq<Segment>)
    requires i < |nearby| && PairsWithin(PairsBefore(i, |nearby|), |nearby|)
    requires lines == LinesOf(nearby, PairsBefore(i, |nearby|))
    ensures PairsWithin(PairsBefore(i + 1, |nearby|), |nearby|)
    ensures extended == LinesOf(nearby, PairsBefore(i + 1, |nearby|))
  {
    var n := |nearby|;
    ghost var done := PairsBefore(i, n);
    ghost var row := Row(i, n);
    extended := lines;
    var j := i + 1;
    assert done + row[..0] == done;
    while j < n
      invariant i + 1 <= j <= n && PairsWithin(done + row[..j - i - 1], n)
      invariant extended == LinesOf(nearby, done + row[..j - i - 1])
    {
      RowStep(nearby, done, i, j - i - 1);
      if Close(nearby[i], nearby[j]) {
        extended := extended + [Segment(nearby[i], nearby[j])];
      }
      j := j + 1;
    }
    assert row[..j - i - 1] == row;
  }

  // ---------------------------------------------------------------- the component

  /** The component's refs: the dots `buildGrid` last built and the mouse
      position relative to the canvas. */
  class Background {
    var dots: seq<Dot>
    var mouse: Point

    /** The refs on mount: no dots, the mouse far off-screen. */
    constructor ()
      ensures dots == [] && mouse == Point(Offscreen, Offscreen)
    {
      dots := [];
      mouse := Point(Offscreen, Offscreen);
    }

    /** `buildGrid(w, h)`: the dots ref takes the new grid. */
    method BuildGrid(w: nat, h: nat, phases: seq<real>)
      requires |phases| == GridCount(w) * GridCount(h)
      modifies this
      ensures dots == Grid(w, h, phases) && mouse == old(mouse)
    {
      dots := BuildDots(w, h, phases);
    }

    /** `onMouseMove`: the pointer relative to the canvas's top-left corner. */
    method OnMouseMove(clientX: real, clientY: real, rectLeft: real, rectTop: real)
      modifies this
      ensures mouse == Point(clientX - rectLeft, clientY - rectTop) && dots == old(dots)
    {
      mouse := Point(clientX - rectLeft, clientY - rectTop);
    }

    /** `onMouseLeave`: the mouse goes far off-screen, so no dot is near it. */
    method OnMouseLeave()
      modifies this
      ensures mouse == Point(Offscreen, Offscreen) && dots == old(dots)
    {
      mouse := Point(Offscreen, Offscreen);
    }

    /** `draw(time)`: prune the shared ripple queue when the page passes one,
        paint every dot at its drifted position, then join the close pairs of
        the dots near the mouse. `drifts` are the dots' sine and cosine
        offsets at this frame's time. */
    method Draw(now: real, drifts: seq<Point>, queue: RippleQueue?, sqrt: real -> real)
      returns (paints: seq<Paint>, lines: seq<Segment>)
      requires |drifts| == |dots|
      modifies queue
      ensures queue != null ==> queue.ripples == Pruned(old(queue.ripples), now)
      ensures paints == Paints(dots, drifts, mouse, if queue != null then Some(queue.ripples) else None, now, sqrt)
      ensures lines == Lines(NearOnes(Positions(dots, drifts), mouse))
    {
      var ripples: Option<seq<Ripple>> := None;
      if queue != null {
        queue.Prune(now);
        ripples := Some(queue.ripples);
      }
      var nearby;
      paints, nearby := PaintDots(dots, drifts, mouse, ripples, now, sqrt);
      lines := ConnectionLines(nearby);
    }
  }
}
