/**
 * The arena background (src/components/canvas/ArenaParticles.tsx): rotating
 * symbols pushed away from the pointer. The builder draws ten values per
 * particle from a generator seeded 33333; the frame is the shared drift step
 * with repulsion and no connection pass.
 */
module ArenaParticles {
  import opened Wrappers
  import opened Mulberry32
  import FieldScale
  import opened JsMath
  import opened DriftField

  const Seed: int := 33333
  const BaseCount: nat := 180
  const SymbolSize: real := 14.0
  const DriftAmplitude: real := 30.0

  /** Draws made for each particle. */
  const DrawsPerParticle: nat := 10

  const Colors: seq<string> := [
    "rgba(0,212,255,0.8)",
    "rgba(189,0,255,0.7)",
    "rgba(0,170,220,0.5)",
    "rgba(150,0,200,0.5)",
    "rgba(255,255,255,0.6)"
  ]

  /** The frame constants: repulsion inside 180, breathing 0.7 +- 0.3, no links. */
  const Arena: Scene := Scene(180.0, 0.3, true, 0.0006, 0.012, 0.96, 0.0015, 0.7, 0.3, 0.0003, None)

  /** Where the pointer is parked before it enters and after it leaves. */
  const Sentinel: Point := Point(-9999.0, -9999.0)

  /** One of `seededRandom`'s bounds on a draw: inside [lo, hi) or, reversed, (hi, lo]. */
  predicate Spread(v: real, lo: real, hi: real)
  {
    (lo < hi ==> lo <= v < hi) && (hi < lo ==> hi < v <= lo) && (lo == hi ==> v == lo)
  }

  /**
   * The particle built from a generator whose seed is `s`: its ten draws, in
   * source order (x, y, baseAlpha, size, color, shape, rotationPhase,
   * driftPhase, driftAmpX, driftAmpY).
   */
  function ParticleFrom(width: real, height: real, s: int): (p: Particle)
    ensures p.x == p.baseX && p.y == p.baseY && p.vx == 0.0 && p.vy == 0.0
    ensures p.alpha == p.baseAlpha && 0.4 <= p.baseAlpha < 0.9
    ensures Spread(p.x, 40.0, width - 40.0) && Spread(p.y, 40.0, height - 40.0)
    ensures SymbolSize * 0.6 <= p.size < SymbolSize * 1.4
    ensures p.color in Colors
    ensures p.glyph.Symbol? && 0 <= p.glyph.shape <= 3 && p.glyph.rotation == 0.0
    ensures 0.0 <= p.glyph.rotationPhase < 2.0 * Pi && 0.0 <= p.driftPhase < 2.0 * Pi
    ensures DriftAmplitude * 0.5 <= p.driftAmpX < DriftAmplitude
    ensures DriftAmplitude * 0.5 <= p.driftAmpY < DriftAmplitude
  {
    var x := SeededRandom(Draw(s, 0), 40.0, width - 40.0);
    var y := SeededRandom(Draw(s, 1), 40.0, height - 40.0);
    var baseAlpha := SeededRandom(Draw(s, 2), 0.4, 0.9);
    var sizeVariance := SeededRandom(Draw(s, 3), 0.6, 1.4);
    var colorIdx := SeededRandom(Draw(s, 4), 0.0, |Colors| as real).Floor;
    var shape := SeededRandomInt(Draw(s, 5), 0, 3);
    var rotationPhase := SeededRandom(Draw(s, 6), 0.0, Pi * 2.0);
    var driftPhase := SeededRandom(Draw(s, 7), 0.0, Pi * 2.0);
    var driftAmpX := SeededRandom(Draw(s, 8), DriftAmplitude * 0.5, DriftAmplitude);
    var driftAmpY := SeededRandom(Draw(s, 9), DriftAmplitude * 0.5, DriftAmplitude);
    Particle(x, y, x, y, 0.0, 0.0, SymbolSize * sizeVariance, Colors[colorIdx], baseAlpha, baseAlpha,
             driftPhase, driftAmpX, driftAmpY, Symbol(shape, 0.0, rotationPhase))
  }

  /** The seed of the shared generator just before particle `i` draws. */
  function SeedBefore(i: nat): int
  {
    Seed + DrawsPerParticle * i * Increment
  }

  /** Particle `i` of a `width` x `height` canvas: it uses draws 10i .. 10i+9. */
  function ParticleAt(width: real, height: real, i: nat): Particle
  {
    ParticleFrom(width, height, SeedBefore(i))
  }

  /** The list `initParticles(width, height)` returns. */
  function Layout(width: real, height: real): (ps: seq<Particle>)
    ensures |ps| == FieldScale.ScaledCount(BaseCount, width)
    ensures forall i :: 0 <= i < |ps| ==> ps[i] == ParticleAt(width, height, i)
  {
    FieldScale.CountBounds(BaseCount, width);
    Prefix(width, height, FieldScale.ScaledCount(BaseCount, width))
  }

  /** The first `n` particles of a `width` x `height` canvas. */
  function Prefix(width: real, height: real, n: nat): (ps: seq<Particle>)
    ensures |ps| == n && forall i :: 0 <= i < n ==> ps[i] == ParticleAt(width, height, i)
  {
    seq(n, i requires 0 <= i => ParticleAt(width, height, i))
  }

  /** One more particle extends the prefix by the particle drawn ten increments on. */
  lemma PrefixSnoc(width: real, height: real, i: nat)
    ensures Prefix(width, height, i + 1) == Prefix(width, height, i) + [ParticleFrom(width, height, SeedBefore(i))]
    ensures SeedBefore(i + 1) == SeedBefore(i) + DrawsPerParticle * Increment
  {
    assert DrawsPerParticle * (i + 1) * Increment == DrawsPerParticle * i * Increment + DrawsPerParticle * Increment;
  }

  /** `initParticles`: a fresh generator, a width-scaled count, ten draws per particle. */
  method InitParticles(width: real, height: real) returns (ps: seq<Particle>)
    ensures ps == Layout(width, height)
  {
    var rng := new Rng(Seed);
    FieldScale.CountBounds(BaseCount, width);
    var count := FieldScale.ScaledCount(BaseCount, width);
    ps := [];
    var i := 0;
    while i < count
      invariant 0 <= i <= count && ps == Prefix(width, height, i)
      invariant rng.seed == SeedBefore(i)
    {
      var p := NextParticle(rng, width, height);
      PrefixSnoc(width, height, i);
      ps := ps + [p];
      i := i + 1;
    }
  }

  /** The body of `initParticles`' loop: ten draws from `rng`, in source order. */
  method NextParticle(rng: Rng, width: real, height: real) returns (p: Particle)
    modifies rng
    ensures rng.seed == old(rng.seed) + DrawsPerParticle * Increment
    ensures p == ParticleFrom(width, height, old(rng.seed))
  {
    ghost var s := rng.seed;
    var r0 := rng.Next();
    var r1 := rng.Next();
    var r2 := rng.Next();
    var r3 := rng.Next();
    var r4 := rng.Next();
    var r5 := rng.Next();
    var r6 := rng.Next();
    var r7 := rng.Next();
    var r8 := rng.Next();
    var r9 := rng.Next();
    assert [r0, r1, r2, r3, r4, r5, r6, r7, r8, r9] ==
      [Draw(s, 0), Draw(s, 1), Draw(s, 2), Draw(s, 3), Draw(s, 4), Draw(s, 5), Draw(s, 6), Draw(s, 7), Draw(s, 8), Draw(s, 9)];
    var x := SeededRandom(r0, 40.0, width - 40.0);
    var y := SeededRandom(r1, 40.0, height - 40.0);
    var baseAlpha := SeededRandom(r2, 0.4, 0.9);
    var sizeVariance := SeededRandom(r3, 0.6, 1.4);
    var colorIdx := SeededRandom(r4, 0.0, |Colors| as real).Floor;
    var shape := SeededRandomInt(r5, 0, 3);
    var rotationPhase := SeededRandom(r6, 0.0, Pi * 2.0);
    var driftPhase := SeededRandom(r7, 0.0, Pi * 2.0);
    var driftAmpX := SeededRandom(r8, DriftAmplitude * 0.5, DriftAmplitude);
    var driftAmpY := SeededRandom(r9, DriftAmplitude * 0.5, DriftAmplitude);
    p := Particle(x, y, x, y, 0.0, 0.0, SymbolSize * sizeVariance, Colors[colorIdx], baseAlpha, baseAlpha,
                  driftPhase, driftAmpX, driftAmpY, Symbol(shape, 0.0, rotationPhase));
  }

  /** `handleResize`: with a canvas, the particles are rebuilt for the new size. */
  method Resize(f: Field, width: real, height: real, hasCanvas: bool)
    modifies f
    ensures hasCanvas ==> fresh(f.particles) && f.particles[..] == Layout(width, height)
    ensures !hasCanvas ==> f.particles == old(f.particles)
    ensures f.mouse == old(f.mouse) && f.lastTime == old(f.lastTime) && f.elapsed == old(f.elapsed)
    ensures f.frameRequested == old(f.frameRequested) && f.globalAlpha == old(f.globalAlpha)
  {
    if hasCanvas {
      var ps := InitParticles(width, height);
      f.Replace(ps);
    }
  }

  /** The mount effect: build the field for the canvas size, stamp the clock, request a frame. */
  method Mount(width: real, height: real, now: real) returns (f: Field)
    ensures fresh(f) && fresh(f.particles)
    ensures f.scene == Arena && f.sentinel == Sentinel && f.mouse == Sentinel
    ensures f.particles[..] == Layout(width, height)
    ensures f.lastTime == now && f.elapsed == 0.0 && f.frameRequested
  {
    f := new Field(Arena, Sentinel);
    Resize(f, width, height, true);
    f.Start(now);
  }

  /** A zero-width canvas still gets floor(180 * 0.35) = 63 particles. */
  lemma ZeroWidthCount(height: real)
    ensures |Layout(0.0, height)| == 63
  {
    assert (BaseCount as real * FieldScale.MinMultiplier).Floor == 63;
  }

  /**
   * Everything but the position of particle `i` is the same at every canvas
   * size: the position draws come first and the rest never reads the size.
   */
  lemma SizeIndependent(w1: real, h1: real, w2: real, h2: real, i: nat)
    ensures var p, q := ParticleAt(w1, h1, i), ParticleAt(w2, h2, i);
      && p.vx == q.vx && p.vy == q.vy && p.size == q.size && p.color == q.color
      && p.baseAlpha == q.baseAlpha && p.alpha == q.alpha && p.glyph == q.glyph
      && p.driftPhase == q.driftPhase && p.driftAmpX == q.driftAmpX && p.driftAmpY == q.driftAmpY
  {
  }

  /** The arena pushes particles away from the pointer, along the pointer-particle line. */
  lemma Repels(m: Math, mouse: Point, p: Particle)
    ensures var f := Push(Arena, m, mouse, p);
      && (p.x - mouse.x) * f.x >= 0.0 && (p.y - mouse.y) * f.y >= 0.0
      && f.x * (p.y - mouse.y) == f.y * (p.x - mouse.x)
  {
    PushDirection(Arena, m, mouse, p);
  }

  /** Breathing keeps the alpha between 0.4 and 1 times the base alpha. */
  lemma BreathingAlpha(m: Math, t: real, mouse: Point, p: Particle)
    requires 0.0 <= p.baseAlpha
    requires -1.0 <= Breath(Arena, m, t, p) <= 1.0
    ensures var q := Step(Arena, m, t, mouse, p);
      0.4 * p.baseAlpha <= q.alpha <= p.baseAlpha
  {
    AlphaBounds(Arena, m, t, mouse, p);
  }

  /**
   * The parked pointer exerts no force on a particle at x >= -9819, in
   * particular on every particle on the canvas.
   */
  lemma SentinelIsInert(m: Math, p: Particle)
    requires ExactSqrt(m)
    requires p.x >= Sentinel.x + Arena.cursorRadius
    ensures Push(Arena, m, Sentinel, p) == Point(0.0, 0.0)
  {
    var d := ForceAxis(Arena, Sentinel, p);
    assert IsLength(d, Len(m, d));
    FarPointerNoPush(Arena, m, Sentinel, p);
  }
}
