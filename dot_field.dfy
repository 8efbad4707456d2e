/**
 * The particle builder the two constellations share
 * (src/components/canvas/LabConstellation.tsx and
 * src/components/canvas/ConstellationCanvas.tsx): nine draws per particle,
 * differing only in seed, base count, size and alpha ranges, drift amplitude
 * and palette. The resize handler and the mount effect are shared too.
 */
module DotField {
  import opened Mulberry32
  import FieldScale
  import opened JsMath
  import opened DriftField

  /** The constants one constellation's `initParticles` reads. */
  datatype Builder = Builder(
    seed: int,
    baseCount: nat,
    particleSize: real,
    alphaMin: real, alphaMax: real,
    sizeMin: real, sizeMax: real,
    driftAmplitude: real,
    colors: seq<string>)

  /** Draws made for each particle. */
  const DrawsPerParticle: nat := 9

  /** One of `seededRandom`'s bounds on a draw: inside [lo, hi) or, reversed, (hi, lo]. */
  predicate Spread(v: real, lo: real, hi: real)
  {
    (lo < hi ==> lo <= v < hi) && (hi < lo ==> hi < v <= lo) && (lo == hi ==> v == lo)
  }

  /** Whether every value in `rs` is a draw, in [0, 1). */
  predicate Draws(rs: seq<real>)
  {
    forall k :: 0 <= k < |rs| ==> 0.0 <= rs[k] < 1.0
  }

  /**
   * The particle made of nine draws taken in source order: x, y, baseAlpha,
   * size, color, driftPhase, driftAmpX, driftAmpY, breathPhase.
   */
  function ParticleOf(b: Builder, width: real, height: real, rs: seq<real>): (p: Particle)
    requires |b.colors| > 0 && |rs| == DrawsPerParticle && Draws(rs)
    ensures p.x == p.baseX && p.y == p.baseY && p.vx == 0.0 && p.vy == 0.0
    ensures p.alpha == p.baseAlpha && Spread(p.baseAlpha, b.alphaMin, b.alphaMax)
    ensures Spread(p.x, 40.0, width - 40.0) && Spread(p.y, 40.0, height - 40.0)
    ensures 0.0 < b.particleSize && b.sizeMin < b.sizeMax ==>
              b.particleSize * b.sizeMin <= p.size < b.particleSize * b.sizeMax
    ensures p.color in b.colors
    ensures p.glyph.Dot? && 0.0 <= p.glyph.breathPhase < 2.0 * Pi && 0.0 <= p.driftPhase < 2.0 * Pi
    ensures Spread(p.driftAmpX, b.driftAmplitude * 0.5, b.driftAmplitude)
    ensures Spread(p.driftAmpY, b.driftAmplitude * 0.5, b.driftAmplitude)
  {
    var x := SeededRandom(rs[0], 40.0, width - 40.0);
    var y := SeededRandom(rs[1], 40.0, height - 40.0);
    var baseAlpha := SeededRandom(rs[2], b.alphaMin, b.alphaMax);
    var sizeFactor := SeededRandom(rs[3], b.sizeMin, b.sizeMax);
    var color := SeededPick(rs[4], b.colors).value;
    var driftPhase := SeededRandom(rs[5], 0.0, Pi * 2.0);
    var driftAmpX := SeededRandom(rs[6], b.driftAmplitude * 0.5, b.driftAmplitude);
    var driftAmpY := SeededRandom(rs[7], b.driftAmplitude * 0.5, b.driftAmplitude);
    var breathPhase := SeededRandom(rs[8], 0.0, Pi * 2.0);
    ScaleInside(b.particleSize, b.sizeMin, sizeFactor, b.sizeMax);
    Particle(x, y, x, y, 0.0, 0.0, b.particleSize * sizeFactor, color, baseAlpha, baseAlpha,
             driftPhase, driftAmpX, driftAmpY, Dot(breathPhase))
  }

  /** Scaling by a positive factor keeps a value inside its scaled interval. */
  lemma ScaleInside(c: real, lo: real, v: real, hi: real)
    ensures 0.0 < c && lo <= v < hi ==> c * lo <= c * v < c * hi
  {
  }

  /** The particle built from a generator whose seed is `s`. */
  function ParticleFrom(b: Builder, width: real, height: real, s: int): Particle
    requires |b.colors| > 0
  {
    ParticleOf(b, width, height, Drawn(s, DrawsPerParticle))
  }

  /** The seed of the generator just before particle `i` draws. */
  function SeedBefore(b: Builder, i: nat): int
  {
    b.seed + DrawsPerParticle * i * Increment
  }

  /** Particle `i` of a `width` x `height` canvas: it uses draws 9i .. 9i+8. */
  function ParticleAt(b: Builder, width: real, height: real, i: nat): Particle
    requires |b.colors| > 0
  {
    ParticleFrom(b, width, height, SeedBefore(b, i))
  }

  /** The list `initParticles(width, height)` returns. */
  function Layout(b: Builder, width: real, height: real): (ps: seq<Particle>)
    requires |b.colors| > 0
    ensures |ps| == FieldScale.ScaledCount(b.baseCount, width)
    ensures forall i :: 0 <= i < |ps| ==> ps[i] == ParticleAt(b, width, height, i)
  {
    FieldScale.CountBounds(b.baseCount, width);
    Prefix(b, width, height, FieldScale.ScaledCount(b.baseCount, width))
  }

  /** The first `n` particles of a `width` x `height` canvas. */
  function Prefix(b: Builder, width: real, height: real, n: nat): (ps: seq<Particle>)
    requires |b.colors| > 0
    ensures |ps| == n && forall i :: 0 <= i < n ==> ps[i] == ParticleAt(b, width, height, i)
  {
    seq(n, i requires 0 <= i => ParticleAt(b, width, height, i))
  }

  /** One more particle extends the prefix by the particle drawn nine increments on. */
  lemma PrefixSnoc(b: Builder, width: real, height: real, i: nat)
    requires |b.colors| > 0
    ensures Prefix(b, width, height, i + 1) == Prefix(b, width, height, i) + [ParticleFrom(b, width, height, SeedBefore(b, i))]
    ensures SeedBefore(b, i + 1) == SeedBefore(b, i) + DrawsPerParticle * Increment
  {
    assert DrawsPerParticle * (i + 1) * Increment == DrawsPerParticle * i * Increment + DrawsPerParticle * Increment;
  }

  /** The body of `initParticles`' loop: nine draws from `rng`, in source order. */
  method NextParticle(rng: Rng, b: Builder, width: real, height: real) returns (p: Particle)
    requires |b.colors| > 0
    modifies rng
    ensures rng.seed == old(rng.seed) + DrawsPerParticle * Increment
    ensures p == ParticleFrom(b, width, height, old(rng.seed))
  {
    var rs := rng.Many(DrawsPerParticle);
    p := ParticleOf(b, width, height, rs);
  }

  /** `initParticles`: a fresh generator, a width-scaled count, nine draws per particle. */
  method InitParticles(b: Builder, width: real, height: real) returns (ps: seq<Particle>)
    requires |b.colors| > 0
    ensures ps == Layout(b, width, height)
  {
    var rng := new Rng(b.seed);
    FieldScale.CountBounds(b.baseCount, width);
    var count := FieldScale.ScaledCount(b.baseCount, width);
    ps := [];
    var i := 0;
    while i < count
      invariant 0 <= i <= count && ps == Prefix(b, width, height, i)
      invariant rng.seed == SeedBefore(b, i)
    {
      var p := NextParticle(rng, b, width, height);
      PrefixSnoc(b, width, height, i);
      ps := ps + [p];
      i := i + 1;
    }
  }

  /** `handleResize`: with a canvas, the particles are rebuilt for the new size. */
  method Resize(f: Field, b: Builder, width: real, height: real, hasCanvas: bool)
    requires |b.colors| > 0
    modifies f
    ensures hasCanvas ==> fresh(f.particles) && f.particles[..] == Layout(b, width, height)
    ensures !hasCanvas ==> f.particles == old(f.particles)
    ensures f.mouse == old(f.mouse) && f.lastTime == old(f.lastTime) && f.elapsed == old(f.elapsed)
    ensures f.frameRequested == old(f.frameRequested) && f.globalAlpha == old(f.globalAlpha)
  {
    if hasCanvas {
      var ps := InitParticles(b, width, height);
      f.Replace(ps);
    }
  }

  /** The mount effect: build the field for the canvas size, stamp the clock, request a frame. */
  method Mount(s: Scene, b: Builder, sentinel: Point, width: real, height: real, now: real) returns (f: Field)
    requires |b.colors| > 0
    ensures fresh(f) && fresh(f.particles)
    ensures f.scene == s && f.sentinel == sentinel && f.mouse == sentinel
    ensures f.particles[..] == Layout(b, width, height)
    ensures f.lastTime == now && f.elapsed == 0.0 && f.frameRequested
  {
    f := new Field(s, sentinel);
    Resize(f, b, width, height, true);
    f.Start(now);
  }
}
