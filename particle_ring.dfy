/**
 * The hero ring (src/components/canvas/ParticleRing.tsx): concentric rows of
 * square particles around the canvas centre, rippling in alpha, kicked away
 * from the pointer and springing back to their base points.
 *
 * Unlike the drifting fields, the frame delta is not clamped, the kick is
 * measured from a particle's base point, there is no `dist > 1` guard, and the
 * spring pulls the position (not the velocity) back to the base.
 */
module ParticleRing {
  import opened Wrappers
  import opened Mulberry32
  import FieldScale
  import opened JsMath
  import DriftField

  type Point = DriftField.Point

  /** The transcendental functions the ring uses. */
  datatype Trig = Trig(sin: real -> real, cos: real -> real, sqrt: real -> real, atan2: (real, real) -> real)

  datatype RingParticle = RingParticle(
    x: real, y: real, baseX: real, baseY: real,
    size: real, color: string, alpha: real, baseAlpha: real,
    angle: real, radius: real, rippleOffset: real,
    vx: real, vy: real)

  const Seed: int := 42069
  const RingRadius: real := 120.0
  const RingThickness: real := 120.0
  const BaseCount: nat := 90
  const BaseRows: nat := 35
  const ParticleSize: real := 2.0
  const MinAlpha: real := 0.1
  const MaxAlpha: real := 1.0
  /** The ripple period, in milliseconds. */
  const Duration: real := 6000.0
  const InteractionRadius: real := 150.0
  const Damping: real := 0.92
  const Spring: real := 0.08

  /** Draws made for each particle. */
  const DrawsPerParticle: nat := 5

  const Colors: seq<string> := [
    "rgba(255,255,255,0.8)",
    "rgba(0,245,160,0.6)",
    "rgba(0,245,160,0.3)",
    "rgba(255,255,255,0.4)",
    "rgba(200,200,200,0.5)"
  ]

  /** Where the pointer is parked before it enters and after it leaves. */
  const Sentinel: Point := DriftField.Point(-1000.0, -1000.0)

  // ---------------------------------------------------------------------------
  // Building the ring

  /** What `initParticles` derives from the canvas size before its loops. */
  datatype Geometry = Geometry(
    centerX: real, centerY: real, scale: real,
    radius: real, thickness: real,
    perRow: nat, rows: nat)

  function GeometryOf(width: real, height: real): (g: Geometry)
    ensures g.perRow == FieldScale.ScaledCount(BaseCount, width)
    ensures g.rows == FieldScale.ScaledCount(BaseRows, width)
    ensures 31 <= g.perRow <= BaseCount && 12 <= g.rows <= BaseRows
    ensures g.centerX == width / 2.0 && g.centerY == height / 2.0
    ensures g.scale == Min(width, height) / 800.0
  {
    FieldScale.CountBounds(BaseCount, width);
    FieldScale.CountBounds(BaseRows, width);
    assert (BaseCount as real * FieldScale.MinMultiplier).Floor == 31;
    assert (BaseRows as real * FieldScale.MinMultiplier).Floor == 12;
    var scale := Min(width, height) / 800.0;
    Geometry(width / 2.0, height / 2.0, scale, RingRadius * scale, RingThickness * scale,
             FieldScale.ScaledCount(BaseCount, width) as nat, FieldScale.ScaledCount(BaseRows, width) as nat)
  }

  /** `Math.floor(particleCount * (1 + row * 0.1))`: rows grow by 10% of the base count. */
  function RowCount(g: Geometry, row: nat): (n: nat)
    ensures n >= g.perRow
  {
    var grown := g.perRow as real * (1.0 + row as real * 0.1);
    assert grown == g.perRow as real + g.perRow as real * row as real * 0.1;
    assert grown >= g.perRow as real;
    grown.Floor
  }

  /** Row `row` sits `row` thickness steps outside the inner radius. */
  function RowRadius(g: Geometry, row: nat): real
    requires g.rows > 0
  {
    g.radius + (g.thickness / g.rows as real) * row as real
  }

  /** The number of particles in the rows before `row`. */
  function Before(g: Geometry, row: nat): nat
  {
    if row == 0 then 0 else Before(g, row - 1) + RowCount(g, row - 1)
  }

  /** Whether every value in `rs` is a draw, in [0, 1). */
  predicate Draws(rs: seq<real>)
  {
    forall k :: 0 <= k < |rs| ==> 0.0 <= rs[k] < 1.0
  }

  /** `2 * PI * i / n`: the even spacing of particle `i` among `n`. */
  function Spacing(i: nat, n: nat): real
    requires n > 0
  {
    Pi * 2.0 * i as real / n as real
  }

  /** A point `r` away from the centre in the direction `a`. */
  function Polar(g: Geometry, trig: Trig, a: real, r: real): Point
  {
    DriftField.Point(g.centerX + trig.cos(a) * r, g.centerY + trig.sin(a) * r)
  }

  /** The angle of particle `i` of `n`: its even spacing plus a draw in [-0.05, 0.05). */
  function Angle(i: nat, n: nat, r: real): real
    requires n > 0
  {
    Spacing(i, n) + SeededRandom(r, -0.05, 0.05)
  }

  /** The radius of a particle of row `row`: the row radius plus a draw in [-5, 5) times the scale. */
  function Radius(g: Geometry, row: nat, r: real): real
    requires g.rows > 0
  {
    RowRadius(g, row) + SeededRandom(r, -5.0, 5.0) * g.scale
  }

  /**
   * Particle `i` of row `row` made of five draws taken in source order:
   * angle offset, radius offset, baseAlpha, color, ripple offset.
   */
  function ParticleOf(g: Geometry, trig: Trig, row: nat, i: nat, rs: seq<real>): (p: RingParticle)
    requires g.rows > 0 && i < RowCount(g, row) && |rs| == DrawsPerParticle && Draws(rs)
    ensures p.x == p.baseX && p.y == p.baseY && p.vx == 0.0 && p.vy == 0.0 && p.alpha == p.baseAlpha
  {
    var angle := Angle(i, RowCount(g, row), rs[0]);
    var radius := Radius(g, row, rs[1]);
    var at := Polar(g, trig, angle, radius);
    var baseAlpha := SeededRandom(rs[2], MinAlpha, MaxAlpha);
    var color := SeededPick(rs[3], Colors).value;
    RingParticle(at.x, at.y, at.x, at.y, ParticleSize * g.scale, color, baseAlpha, baseAlpha,
                 angle, radius, SeededRandom(rs[4], 0.0, Pi * 2.0), 0.0, 0.0)
  }

  /**
   * Where a fresh particle lies: within 0.05 of its even angle, within 5 x scale
   * of its row radius, at that angle and radius from the centre; alpha in
   * [0.1, 1), a palette color, a ripple offset in [0, 2 PI).
   */
  lemma Placement(g: Geometry, trig: Trig, row: nat, i: nat, rs: seq<real>)
    requires g.rows > 0 && i < RowCount(g, row) && |rs| == DrawsPerParticle && Draws(rs)
    ensures var p := ParticleOf(g, trig, row, i, rs);
      && -0.05 <= p.angle - Spacing(i, RowCount(g, row)) < 0.05
      && (g.scale >= 0.0 ==> -5.0 * g.scale <= p.radius - RowRadius(g, row) <= 5.0 * g.scale)
      && DriftField.Point(p.x, p.y) == Polar(g, trig, p.angle, p.radius)
      && MinAlpha <= p.baseAlpha < MaxAlpha && p.color in Colors
      && p.size == ParticleSize * g.scale && 0.0 <= p.rippleOffset < Pi * 2.0
  {
    var p := ParticleOf(g, trig, row, i, rs);
    assert 0.0 <= rs[0] < 1.0 && 0.0 <= rs[1] < 1.0 && 0.0 <= rs[2] < 1.0;
    assert 0.0 <= rs[3] < 1.0 && 0.0 <= rs[4] < 1.0;
    var jitter := SeededRandom(rs[0], -0.05, 0.05);
    assert p.angle == Spacing(i, RowCount(g, row)) + jitter;
    var offset := SeededRandom(rs[1], -5.0, 5.0);
    assert -5.0 <= offset < 5.0;
    RadiusOffset(offset, g.scale);
    assert p.radius - RowRadius(g, row) == offset * g.scale;
    assert p.baseAlpha == SeededRandom(rs[2], MinAlpha, MaxAlpha);
    assert p.rippleOffset == SeededRandom(rs[4], 0.0, Pi * 2.0);
  }

  /** An offset in [-5, 5) scaled by a non-negative factor stays within 5 times the factor. */
  lemma RadiusOffset(offset: real, scale: real)
    requires -5.0 <= offset < 5.0
    ensures scale >= 0.0 ==> -5.0 * scale <= offset * scale <= 5.0 * scale
  {
    if scale >= 0.0 {
      NonNegativeProduct(offset + 5.0, scale);
      NonNegativeProduct(5.0 - offset, scale);
      assert (offset + 5.0) * scale == offset * scale + 5.0 * scale;
      assert (5.0 - offset) * scale == 5.0 * scale - offset * scale;
    }
  }

  /** The particle built from a generator whose seed is `s`. */
  function ParticleFrom(g: Geometry, trig: Trig, row: nat, i: nat, s: int): RingParticle
    requires g.rows > 0 && i < RowCount(g, row)
  {
    ParticleOf(g, trig, row, i, [Draw(s, 0), Draw(s, 1), Draw(s, 2), Draw(s, 3), Draw(s, 4)])
  }

  /** The seed just before particle `i` of row `row` draws: every earlier particle drew five times. */
  function SeedBefore(g: Geometry, row: nat, i: nat): int
  {
    Seed + DrawsPerParticle * (Before(g, row) + i) * Increment
  }

  function ParticleAt(g: Geometry, trig: Trig, row: nat, i: nat): RingParticle
    requires g.rows > 0 && i < RowCount(g, row)
  {
    ParticleFrom(g, trig, row, i, SeedBefore(g, row, i))
  }

  /** The particles of row `row`, in order of angle. */
  function RowParticles(g: Geometry, trig: Trig, row: nat): (ps: seq<RingParticle>)
    requires g.rows > 0
    ensures |ps| == RowCount(g, row)
    ensures forall i :: 0 <= i < |ps| ==> ps[i] == ParticleAt(g, trig, row, i)
  {
    seq(RowCount(g, row), i requires 0 <= i < RowCount(g, row) => ParticleAt(g, trig, row, i))
  }

  /** Rows 0 .. k-1, one after another. */
  function RowsUpTo(g: Geometry, trig: Trig, k: nat): (ps: seq<RingParticle>)
    requires g.rows > 0
    ensures |ps| == Before(g, k)
  {
    if k == 0 then [] else RowsUpTo(g, trig, k - 1) + RowParticles(g, trig, k - 1)
  }

  /** The list `initParticles(width, height)` returns. */
  function Layout(width: real, height: real, trig: Trig): seq<RingParticle>
  {
    var g := GeometryOf(width, height);
    RowsUpTo(g, trig, g.rows)
  }

  /** The body of the inner loop: five draws from `rng`, in source order. */
  method NextParticle(rng: Rng, g: Geometry, trig: Trig, row: nat, i: nat) returns (p: RingParticle)
    requires g.rows > 0 && i < RowCount(g, row)
    modifies rng
    ensures rng.seed == old(rng.seed) + DrawsPerParticle * Increment
    ensures p == ParticleFrom(g, trig, row, i, old(rng.seed))
  {
    ghost var s := rng.seed;
    var r0 := rng.Next();
    var r1 := rng.Next();
    var r2 := rng.Next();
    var r3 := rng.Next();
    var r4 := rng.Next();
    var rs := [r0, r1, r2, r3, r4];
    assert rs == [Draw(s, 0), Draw(s, 1), Draw(s, 2), Draw(s, 3), Draw(s, 4)];
    p := ParticleOf(g, trig, row, i, rs);
  }

  /** `initParticles`: rows from the inside out, particles of a row in order of angle. */
  method InitParticles(width: real, height: real, trig: Trig) returns (ps: seq<RingParticle>)
    ensures ps == Layout(width, height, trig)
  {
    var rng := new Rng(Seed);
    var g := GeometryOf(width, height);
    ps := [];
    var row := 0;
    while row < g.rows
      invariant 0 <= row <= g.rows
      invariant ps == RowsUpTo(g, trig, row)
      invariant rng.seed == SeedBefore(g, row, 0)
    {
      var rowParticles := InitRow(rng, g, trig, row);
      ps := ps + rowParticles;
      row := row + 1;
    }
  }

  /** The inner loop of `initParticles`: one row, five draws per particle. */
  method InitRow(rng: Rng, g: Geometry, trig: Trig, row: nat) returns (ps: seq<RingParticle>)
    requires g.rows > 0 && rng.seed == SeedBefore(g, row, 0)
    modifies rng
    ensures rng.seed == SeedBefore(g, row + 1, 0)
    ensures ps == RowParticles(g, trig, row)
  {
    var n := RowCount(g, row);
    ps := [];
    var i := 0;
    while i < n
      invariant 0 <= i <= n && |ps| == i
      invariant forall k :: 0 <= k < i ==> ps[k] == ParticleAt(g, trig, row, k)
      invariant rng.seed == SeedBefore(g, row, i)
    {
      var p := NextParticle(rng, g, trig, row, i);
      SeedAdvance(g, row, i);
      assert p == ParticleAt(g, trig, row, i);
      ps := ps + [p];
      i := i + 1;
    }
    SeedAdvance(g, row + 1, 0);
  }

  /** Each particle advances the seed by five increments, across row boundaries too. */
  lemma SeedAdvance(g: Geometry, row: nat, i: nat)
    ensures SeedBefore(g, row, i + 1) == SeedBefore(g, row, i) + DrawsPerParticle * Increment
    ensures row > 0 ==> SeedBefore(g, row, 0) == SeedBefore(g, row - 1, RowCount(g, row - 1))
  {
  }

  /** Row counts grow with the row index. */
  lemma {:induction false} RowCountMonotone(g: Geometry, r1: nat, r2: nat)
    requires r1 <= r2
    ensures RowCount(g, r1) <= RowCount(g, r2)
  {
    var n := g.perRow as real;
    assert n * (1.0 + r1 as real * 0.1) <= n * (1.0 + r2 as real * 0.1);
    FieldScale.FloorMonotone(n * (1.0 + r1 as real * 0.1), n * (1.0 + r2 as real * 0.1));
  }

  /**
   * The ring holds the sum of its row counts, 90 x (1 + 0.1 row) summed over 35
   * rows at full width; every row keeps at least the base count.
   */
  lemma RingSize(width: real, height: real, trig: Trig)
    ensures var g := GeometryOf(width, height);
      && |Layout(width, height, trig)| == Before(g, g.rows)
      && Before(g, g.rows) >= g.rows * g.perRow
      && (width >= FieldScale.FullWidth ==> g.rows == 35 && g.perRow == 90)
  {
    var g := GeometryOf(width, height);
    BeforeAtLeast(g, g.rows);
  }

  lemma {:induction false} BeforeAtLeast(g: Geometry, k: nat)
    ensures Before(g, k) >= k * g.perRow
  {
    if k > 0 {
      BeforeAtLeast(g, k - 1);
      assert Before(g, k) == Before(g, k - 1) + RowCount(g, k - 1);
      assert (k - 1) * g.perRow + g.perRow == k * g.perRow;
    }
  }

  /**
   * When the oracle's cosine and sine of a particle's angle lie on the unit
   * circle, the particle sits exactly `radius` away from the centre.
   */
  lemma OnRing(g: Geometry, trig: Trig, a: real, r: real)
    requires trig.cos(a) * trig.cos(a) + trig.sin(a) * trig.sin(a) == 1.0
    ensures var at := Polar(g, trig, a, r);
      (at.x - g.centerX) * (at.x - g.centerX) + (at.y - g.centerY) * (at.y - g.centerY) == r * r
  {
    var c, s := trig.cos(a), trig.sin(a);
    calc {
      (c * r) * (c * r) + (s * r) * (s * r);
      (c * c + s * s) * (r * r);
      r * r;
    }
  }

  // ---------------------------------------------------------------------------
  // One frame

  /** JavaScript's `%` on numbers: the remainder keeps the sign of the dividend. */
  function JsRem(a: real, b: real): (r: real)
    requires b > 0.0
    ensures a >= 0.0 ==> 0.0 <= r < b
    ensures a < 0.0 ==> -b < r <= 0.0
  {
    var q := a / b;
    var f := if a >= 0.0 then q.Floor as real else -((-q).Floor as real);
    RemainderBounds(a, b, q, f);
    a - b * f
  }

  /** The bounds of `a - b * f` when `f` is `a / b` truncated toward zero. */
  lemma RemainderBounds(a: real, b: real, q: real, f: real)
    requires b > 0.0 && q == a / b
    requires a >= 0.0 ==> f == q.Floor as real
    requires a < 0.0 ==> f == -((-q).Floor as real)
    ensures a >= 0.0 ==> 0.0 <= a - b * f < b
    ensures a < 0.0 ==> -b < a - b * f <= 0.0
  {
    assert a == q * b;
    var r := if a >= 0.0 then q - f else f - q;
    assert 0.0 <= r < 1.0;
    ScaleBelow(r, b);
    var rb := r * b;
    assert 0.0 <= rb < b;
    if a >= 0.0 {
      assert a - b * f == rb;
    } else {
      assert a - b * f == -rb;
    }
  }

  /** The ripple's progress through its period: `(rippleTime % 6000) / 6000`. */
  function Progress(rippleTime: real): (r: real)
    ensures rippleTime >= 0.0 ==> 0.0 <= r < 1.0
    ensures rippleTime < 0.0 ==> -1.0 < r <= 0.0
  {
    JsRem(rippleTime, Duration) / Duration
  }

  /** The particle's ripple phase: `(progress * PI * 2 + rippleOffset) % (PI * 2)`. */
  function RipplePhase(progress: real, p: RingParticle): real
  {
    JsRem(progress * Pi * 2.0 + p.rippleOffset, Pi * 2.0)
  }

  /** `sin(phase) * 0.5 + 0.5`. */
  function Intensity(trig: Trig, progress: real, p: RingParticle): real
  {
    trig.sin(RipplePhase(progress, p)) * 0.5 + 0.5
  }

  /**
   * `baseAlpha * (0.5 + intensity * 0.5)`: with the sine in [-1, 1] the ripple
   * keeps the alpha between half the base alpha and the base alpha.
   */
  function RippleAlpha(trig: Trig, progress: real, p: RingParticle): (a: real)
    ensures 0.0 <= p.baseAlpha && -1.0 <= trig.sin(RipplePhase(progress, p)) <= 1.0 ==>
              0.5 * p.baseAlpha <= a <= p.baseAlpha
  {
    var i := Intensity(trig, progress, p);
    HalfToFull(p.baseAlpha, i);
    p.baseAlpha * (0.5 + i * 0.5)
  }

  /** The distance from the pointer to a base point, through the oracle's square root. */
  function Dist(trig: Trig, mouse: Point, base: Point): real
  {
    var dx := mouse.x - base.x;
    var dy := mouse.y - base.y;
    trig.sqrt(dx * dx + dy * dy)
  }

  /** The direction from a base point to the pointer, through the oracle's `atan2`. */
  function Heading(trig: Trig, mouse: Point, base: Point): real
  {
    trig.atan2(mouse.y - base.y, mouse.x - base.x)
  }

  /**
   * What the repulsion subtracts from the velocity: `cos(angle) * force * 0.1`
   * and `sin(angle) * force * 0.1`, with `force = (1 - dist / 150) * 30`, and
   * nothing at distance 150 or more. It reads only the base point.
   */
  function Kick(trig: Trig, mouse: Point, base: Point): (k: Point)
    ensures Dist(trig, mouse, base) >= InteractionRadius ==> k == DriftField.Point(0.0, 0.0)
  {
    var dist := Dist(trig, mouse, base);
    if dist < InteractionRadius then
      var force := (1.0 - dist / InteractionRadius) * 30.0;
      var angle := Heading(trig, mouse, base);
      DriftField.Point(trig.cos(angle) * force * 0.1, trig.sin(angle) * force * 0.1)
    else
      DriftField.Point(0.0, 0.0)
  }

  function Base(p: RingParticle): Point
  {
    DriftField.Point(p.baseX, p.baseY)
  }

  /**
   * One particle's frame: kick, move by the kicked velocity, damp the velocity
   * by 0.92, pull the position 8% back to the base, then set the ripple alpha.
   */
  function RingStep(trig: Trig, progress: real, mouse: Point, p: RingParticle): (q: RingParticle)
    ensures q.baseX == p.baseX && q.baseY == p.baseY && q.size == p.size && q.color == p.color
    ensures q.baseAlpha == p.baseAlpha && q.angle == p.angle && q.radius == p.radius
    ensures q.rippleOffset == p.rippleOffset
    ensures q.alpha == RippleAlpha(trig, progress, p)
  {
    var k := Kick(trig, mouse, Base(p));
    var vx := p.vx - k.x;
    var vy := p.vy - k.y;
    var x := p.x + vx;
    var y := p.y + vy;
    p.(x := x + (p.baseX - x) * Spring, y := y + (p.baseY - y) * Spring,
       vx := vx * Damping, vy := vy * Damping,
       alpha := RippleAlpha(trig, progress, p))
  }

  /**
   * The update order: the position moves by the undamped velocity, and the
   * spring then blends it with the base; damping only affects the next frame.
   */
  lemma UpdateOrder(trig: Trig, progress: real, mouse: Point, p: RingParticle)
    ensures var q := RingStep(trig, progress, mouse, p);
      var v := p.vx - Kick(trig, mouse, Base(p)).x;
      && q.vx == Damping * v
      && q.x == (1.0 - Spring) * (p.x + v) + Spring * p.baseX
  {
  }

  /** Two particles with the same base point and velocity get the same velocity, wherever they are. */
  lemma KickReadsBase(trig: Trig, progress: real, mouse: Point, p: RingParticle, p': RingParticle)
    requires Base(p) == Base(p') && p.vx == p'.vx && p.vy == p'.vy
    ensures RingStep(trig, progress, mouse, p).vx == RingStep(trig, progress, mouse, p').vx
    ensures RingStep(trig, progress, mouse, p).vy == RingStep(trig, progress, mouse, p').vy
  {
  }

  /** Whether the oracle's `atan2` and cosine and sine agree with the offset `d` at distance `dist`. */
  predicate ExactHeading(trig: Trig, mouse: Point, base: Point)
  {
    var a := Heading(trig, mouse, base);
    var dist := Dist(trig, mouse, base);
    trig.cos(a) * dist == mouse.x - base.x && trig.sin(a) * dist == mouse.y - base.y
  }

  /**
   * Inside the interaction radius the kick is subtracted along the direction
   * to the pointer, so the velocity change points away from the pointer.
   */
  lemma KickAway(trig: Trig, mouse: Point, base: Point)
    requires ExactHeading(trig, mouse, base) && Dist(trig, mouse, base) > 0.0
    ensures var k := Kick(trig, mouse, base);
      && (mouse.x - base.x) * k.x >= 0.0 && (mouse.y - base.y) * k.y >= 0.0
  {
    var dist := Dist(trig, mouse, base);
    var a := Heading(trig, mouse, base);
    if dist < InteractionRadius {
      var force := (1.0 - dist / InteractionRadius) * 30.0;
      DriftField.FractionBelowOne(dist, InteractionRadius);
      var k := Kick(trig, mouse, base);
      assert k == DriftField.Point(trig.cos(a) * force * 0.1, trig.sin(a) * force * 0.1);
      Aligned(trig.cos(a), dist, force * 0.1);
      Aligned(trig.sin(a), dist, force * 0.1);
    }
  }

  /** `c * d` and `c * f` have the same sign when `d` and `f` are non-negative. */
  lemma Aligned(c: real, d: real, f: real)
    requires 0.0 <= d && 0.0 <= f
    ensures (c * d) * (c * f) >= 0.0
  {
    SquareNonNegative(c);
    NonNegativeProduct(d, f);
    NonNegativeProduct(c * c, d * f);
    assert (c * d) * (c * f) == (c * c) * (d * f);
  }

  lemma SquareNonNegative(x: real)
    ensures 0.0 <= x * x
  {
    if x < 0.0 {
      NonNegativeProduct(-x, -x);
    }
  }

  /** A weight `0.5 + i * 0.5` with `i` in [0, 1] lies in [0.5, 1]. */
  lemma HalfToFull(w: real, i: real)
    ensures 0.0 <= w && 0.0 <= i <= 1.0 ==> 0.5 * w <= w * (0.5 + i * 0.5) <= w
  {
    if 0.0 <= w && 0.0 <= i <= 1.0 {
      assert w * (0.5 + i * 0.5) == 0.5 * w + 0.5 * (w * i);
      NonNegativeProduct(w, i);
      NonNegativeProduct(w, 1.0 - i);
    }
  }

  /** Whether the oracle's square root is exact at this base point. */
  predicate ExactDist(trig: Trig, mouse: Point, base: Point)
  {
    var d := Dist(trig, mouse, base);
    var dx := mouse.x - base.x;
    var dy := mouse.y - base.y;
    0.0 <= d && d * d == dx * dx + dy * dy
  }

  /** The parked pointer at (-1000, -1000) never kicks a particle based at non-negative coordinates. */
  lemma SentinelIsInert(trig: Trig, base: Point)
    requires ExactDist(trig, Sentinel, base)
    requires 0.0 <= base.x
    ensures Kick(trig, Sentinel, base) == DriftField.Point(0.0, 0.0)
  {
    var d := Dist(trig, Sentinel, base);
    var dx := Sentinel.x - base.x;
    var dy := Sentinel.y - base.y;
    DriftField.SquareAtLeast(-dx, 1000.0);
    assert dx * dx == (-dx) * (-dx);
    assert dy * dy >= 0.0;
    assert d * d >= 1000000.0;
    if d < InteractionRadius {
      DriftField.SquareBelow(d, InteractionRadius);
      assert false;
    }
  }

  /** A particle resting on its base with no kick stays there. */
  lemma RestIsFixed(trig: Trig, progress: real, mouse: Point, p: RingParticle)
    requires Kick(trig, mouse, Base(p)) == DriftField.Point(0.0, 0.0)
    requires p.x == p.baseX && p.y == p.baseY && p.vx == 0.0 && p.vy == 0.0
    ensures var q := RingStep(trig, progress, mouse, p);
      q.x == p.x && q.y == p.y && q.vx == 0.0 && q.vy == 0.0
  {
  }

  // ---------------------------------------------------------------------------
  // The component

  /** The frame loop of `animate`: every particle steps in place, in index order. */
  method UpdateRing(a: array<RingParticle>, trig: Trig, progress: real, mouse: Point)
    modifies a
    ensures forall k :: 0 <= k < a.Length ==> a[k] == RingStep(trig, progress, mouse, old(a[k]))
  {
    var i := 0;
    while i < a.Length
      invariant 0 <= i <= a.Length
      invariant forall k :: 0 <= k < i ==> a[k] == RingStep(trig, progress, mouse, old(a[k]))
      invariant forall k :: i <= k < a.Length ==> a[k] == old(a[k])
    {
      a[i] := RingStep(trig, progress, mouse, a[i]);
      i := i + 1;
    }
  }

  /** The component's refs: particles, pointer, clocks and the pending frame. */
  class Ring {
    var particles: array<RingParticle>
    var mouse: Point
    var lastTime: real
    var rippleTime: real
    /** Whether an animation frame is pending. */
    var frameRequested: bool
    /** The canvas context's `globalAlpha` after the last frame. */
    var globalAlpha: real

    /** The refs' initial values: no particles, the pointer parked, both clocks at 0. */
    constructor ()
      ensures particles.Length == 0 && mouse == Sentinel && lastTime == 0.0 && rippleTime == 0.0
      ensures !frameRequested && globalAlpha == 1.0
    {
      particles := new RingParticle[0];
      mouse := Sentinel;
      lastTime := 0.0;
      rippleTime := 0.0;
      frameRequested := false;
      globalAlpha := 1.0;
    }

    /** `handleResize`: with a canvas, the particles are rebuilt for the new size. */
    method Resize(width: real, height: real, trig: Trig, hasCanvas: bool)
      modifies this
      ensures hasCanvas ==> fresh(particles) && particles[..] == Layout(width, height, trig)
      ensures !hasCanvas ==> particles == old(particles)
      ensures mouse == old(mouse) && lastTime == old(lastTime) && rippleTime == old(rippleTime)
      ensures frameRequested == old(frameRequested) && globalAlpha == old(globalAlpha)
    {
      if hasCanvas {
        var ps := InitParticles(width, height, trig);
        particles := new RingParticle[|ps|](k requires 0 <= k < |ps| => ps[k]);
      }
    }

    /** `handleMouseMove`: the pointer in canvas coordinates (ignored without a canvas). */
    method MouseMove(clientX: real, clientY: real, left: real, top: real, hasCanvas: bool)
      modifies this
      ensures mouse == (if hasCanvas then DriftField.Point(clientX - left, clientY - top) else old(mouse))
      ensures particles == old(particles) && lastTime == old(lastTime) && rippleTime == old(rippleTime)
      ensures frameRequested == old(frameRequested) && globalAlpha == old(globalAlpha)
    {
      if hasCanvas {
        mouse := DriftField.Point(clientX - left, clientY - top);
      }
    }

    /** `handleMouseLeave`: the pointer is parked at (-1000, -1000). */
    method MouseLeave()
      modifies this
      ensures mouse == Sentinel
      ensures particles == old(particles) && lastTime == old(lastTime) && rippleTime == old(rippleTime)
      ensures frameRequested == old(frameRequested) && globalAlpha == old(globalAlpha)
    {
      mouse := Sentinel;
    }

    /** The effect cleanup: the pending frame is cancelled. */
    method Stop()
      modifies this
      ensures !frameRequested
      ensures particles == old(particles) && mouse == old(mouse) && lastTime == old(lastTime)
      ensures rippleTime == old(rippleTime) && globalAlpha == old(globalAlpha)
    {
      frameRequested := false;
    }

    /**
     * One animation frame. Without a canvas or a context it returns before
     * requesting the next frame. Otherwise the ripple clock advances by the raw
     * delta (no clamp), every particle steps at the ripple's progress, the
     * context's alpha is reset to 1 and the next frame is requested.
     */
    method Animate(timestamp: real, hasCanvas: bool, hasContext: bool, trig: Trig)
      modifies this, particles
      ensures particles == old(particles) && mouse == old(mouse)
      ensures !(hasCanvas && hasContext) ==>
        && unchanged(particles) && !frameRequested
        && lastTime == old(lastTime) && rippleTime == old(rippleTime) && globalAlpha == old(globalAlpha)
      ensures hasCanvas && hasContext ==>
        && lastTime == timestamp
        && rippleTime == old(rippleTime) + (timestamp - old(lastTime))
        && (forall k :: 0 <= k < particles.Length ==>
              particles[k] == RingStep(trig, Progress(rippleTime), mouse, old(particles[k])))
        && globalAlpha == 1.0 && frameRequested
    {
      frameRequested := false;
      if !hasCanvas || !hasContext {
        return;
      }
      var deltaTime := timestamp - lastTime;
      lastTime := timestamp;
      rippleTime := rippleTime + deltaTime;
      UpdateRing(particles, trig, Progress(rippleTime), mouse);
      globalAlpha := 1.0;
      frameRequested := true;
    }
  }

  /** The mount effect: build the ring for the canvas size, stamp the clock, request a frame. */
  method Mount(width: real, height: real, now: real, trig: Trig) returns (r: Ring)
    ensures fresh(r) && fresh(r.particles)
    ensures r.particles[..] == Layout(width, height, trig)
    ensures r.mouse == Sentinel && r.lastTime == now && r.rippleTime == 0.0 && r.frameRequested
  {
    r := new Ring();
    r.Resize(width, height, trig, true);
    r.lastTime := now;
    r.frameRequested := true;
  }
}
