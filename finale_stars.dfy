/**
 * The finale's star field (src/components/sections/Section5Finale.tsx): a
 * seeded list of stars rebuilt on every resize, and a frame loop that only
 * advances the clock and computes each star's twinkling alpha.
 */
module FinaleStars {
  import opened Mulberry32
  import FieldScale
  import opened JsMath
  import DriftField

  datatype Star = Star(x: real, y: real, size: real, alpha: real, twinkleSpeed: real, twinklePhase: real)

  const Seed: int := 99999
  const BaseCount: nat := 400

  /** Draws made for each star. */
  const DrawsPerStar: nat := 6

  /** Whether every value in `rs` is a draw, in [0, 1). */
  predicate Draws(rs: seq<real>)
  {
    forall k :: 0 <= k < |rs| ==> 0.0 <= rs[k] < 1.0
  }

  /**
   * The star made of six draws taken in source order: x, y, size, alpha,
   * twinkle speed, twinkle phase. Positions lie inside the canvas, or at 0
   * when a dimension is 0.
   */
  function StarOf(width: real, height: real, rs: seq<real>): (s: Star)
    requires |rs| == DrawsPerStar && Draws(rs)
    ensures width > 0.0 ==> 0.0 <= s.x < width
    ensures height > 0.0 ==> 0.0 <= s.y < height
    ensures 0.5 <= s.size < 2.0 && 0.3 <= s.alpha < 1.0
    ensures 0.0008 <= s.twinkleSpeed < 0.003 && 0.0 <= s.twinklePhase < Pi * 2.0
  {
    Star(SeededRandom(rs[0], 0.0, width), SeededRandom(rs[1], 0.0, height),
         SeededRandom(rs[2], 0.5, 2.0), SeededRandom(rs[3], 0.3, 1.0),
         SeededRandom(rs[4], 0.0008, 0.003), SeededRandom(rs[5], 0.0, Pi * 2.0))
  }

  /** The star built from a generator whose seed is `s`. */
  function StarFrom(width: real, height: real, s: int): Star
  {
    StarOf(width, height, [Draw(s, 0), Draw(s, 1), Draw(s, 2), Draw(s, 3), Draw(s, 4), Draw(s, 5)])
  }

  /** The seed of the generator just before star `i` draws. */
  function SeedBefore(i: nat): int
  {
    Seed + DrawsPerStar * i * Increment
  }

  /** Star `i` of a `width` x `height` canvas: it uses draws 6i .. 6i+5. */
  function StarAt(width: real, height: real, i: nat): Star
  {
    StarFrom(width, height, SeedBefore(i))
  }

  /** The list `initStars(width, height)` returns. */
  function Sky(width: real, height: real): (ss: seq<Star>)
    ensures |ss| == FieldScale.ScaledCount(BaseCount, width)
    ensures forall i :: 0 <= i < |ss| ==> ss[i] == StarAt(width, height, i)
  {
    FieldScale.CountBounds(BaseCount, width);
    Prefix(width, height, FieldScale.ScaledCount(BaseCount, width))
  }

  /** The first `n` stars of a `width` x `height` sky. */
  function Prefix(width: real, height: real, n: nat): (ss: seq<Star>)
    ensures |ss| == n && forall i :: 0 <= i < n ==> ss[i] == StarAt(width, height, i)
  {
    seq(n, i requires 0 <= i => StarAt(width, height, i))
  }

  /** One more star extends the prefix by the star drawn six increments on. */
  lemma PrefixSnoc(width: real, height: real, i: nat)
    ensures Prefix(width, height, i + 1) == Prefix(width, height, i) + [StarFrom(width, height, SeedBefore(i))]
    ensures SeedBefore(i + 1) == SeedBefore(i) + DrawsPerStar * Increment
  {
    assert DrawsPerStar * (i + 1) * Increment == DrawsPerStar * i * Increment + DrawsPerStar * Increment;
  }

  /** The body of `initStars`' loop: six draws from `rng`, in source order. */
  method NextStar(rng: Rng, width: real, height: real) returns (s: Star)
    modifies rng
    ensures rng.seed == old(rng.seed) + DrawsPerStar * Increment
    ensures s == StarFrom(width, height, old(rng.seed))
  {
    var r0 := rng.Next();
    var r1 := rng.Next();
    var r2 := rng.Next();
    var r3 := rng.Next();
    var r4 := rng.Next();
    var r5 := rng.Next();
    s := StarOf(width, height, [r0, r1, r2, r3, r4, r5]);
  }

  /** `initStars`: a fresh generator, a width-scaled count, six draws per star. */
  method InitStars(width: real, height: real) returns (ss: seq<Star>)
    ensures ss == Sky(width, height)
  {
    var rng := new Rng(Seed);
    FieldScale.CountBounds(BaseCount, width);
    var count := FieldScale.ScaledCount(BaseCount, width);
    ss := [];
    var i := 0;
    while i < count
      invariant 0 <= i <= count && ss == Prefix(width, height, i)
      invariant rng.seed == SeedBefore(i)
    {
      var s := NextStar(rng, width, height);
      PrefixSnoc(width, height, i);
      ss := ss + [s];
      i := i + 1;
    }
  }

  /** Every star of the sky lies on the canvas and has its size, alpha and twinkle in range. */
  lemma StarsInRange(width: real, height: real)
    requires width > 0.0 && height > 0.0
    ensures forall s :: s in Sky(width, height) ==>
      && 0.0 <= s.x < width && 0.0 <= s.y < height
      && 0.5 <= s.size < 2.0 && 0.3 <= s.alpha < 1.0
      && 0.0008 <= s.twinkleSpeed < 0.003 && 0.0 <= s.twinklePhase < Pi * 2.0
  {
  }

  /**
   * Only x and y depend on the canvas: the same draws give the same size,
   * alpha and twinkle at every size, and a position that scales with the canvas.
   */
  lemma ResizeKeepsStar(w1: real, h1: real, w2: real, h2: real, rs: seq<real>)
    requires |rs| == DrawsPerStar && Draws(rs)
    ensures var a := StarOf(w1, h1, rs);
      var b := StarOf(w2, h2, rs);
      && a.size == b.size && a.alpha == b.alpha
      && a.twinkleSpeed == b.twinkleSpeed && a.twinklePhase == b.twinklePhase
      && a.x * w2 == b.x * w1 && a.y * h2 == b.y * h1
  {
    assert StarOf(w1, h1, rs).x == rs[0] * w1 && StarOf(w2, h2, rs).x == rs[0] * w2;
    assert StarOf(w1, h1, rs).y == rs[1] * h1 && StarOf(w2, h2, rs).y == rs[1] * h2;
    assert (rs[0] * w1) * w2 == (rs[0] * w2) * w1;
    assert (rs[1] * h1) * h2 == (rs[1] * h2) * h1;
  }

  /** A wider canvas never has fewer stars. */
  lemma WiderSkyHasMoreStars(w1: real, h1: real, w2: real, h2: real)
    requires w1 <= w2
    ensures |Sky(w1, h1)| <= |Sky(w2, h2)|
  {
    FieldScale.CountMonotone(BaseCount, w1, w2);
  }

  /**
   * The drawn alpha: `alpha * (0.5 + twinkle * 0.5)` with the twinkle
   * `Math.sin(t * twinkleSpeed + twinklePhase)`. With the sine in [-1, 1], a
   * star is drawn with an alpha between 0 and its own alpha.
   */
  function TwinkleAlpha(sin: real -> real, t: real, s: Star): (a: real)
    ensures 0.0 <= s.alpha && -1.0 <= sin(t * s.twinkleSpeed + s.twinklePhase) <= 1.0 ==> 0.0 <= a <= s.alpha
  {
    var w := 0.5 + sin(t * s.twinkleSpeed + s.twinklePhase) * 0.5;
    WeightBounds(s.alpha, w);
    s.alpha * w
  }

  /** A non-negative value times a weight in [0, 1] lies between 0 and the value. */
  lemma WeightBounds(a: real, w: real)
    ensures 0.0 <= a && 0.0 <= w <= 1.0 ==> 0.0 <= a * w <= a
  {
    assert a - a * w == a * (1.0 - w);
  }

  /** The star loop of `animateCanvas`: the alpha each star is drawn with, in index order. */
  method DrawAlphas(stars: seq<Star>, sin: real -> real, t: real) returns (alphas: seq<real>)
    ensures |alphas| == |stars|
    ensures forall i :: 0 <= i < |stars| ==> alphas[i] == TwinkleAlpha(sin, t, stars[i])
  {
    alphas := [];
    var i := 0;
    while i < |stars|
      invariant 0 <= i <= |stars| && |alphas| == i
      invariant forall k :: 0 <= k < i ==> alphas[k] == TwinkleAlpha(sin, t, stars[k])
    {
      alphas := alphas + [TwinkleAlpha(sin, t, stars[i])];
      i := i + 1;
    }
  }

  /** The component's refs: the star list, the clocks and the pending frame. */
  class Finale {
    var stars: seq<Star>
    var lastTime: real
    var elapsed: real
    /** Whether an animation frame is pending. */
    var frameRequested: bool
    /** The canvas context's `globalAlpha` after the last frame. */
    var globalAlpha: real

    constructor ()
      ensures stars == [] && lastTime == 0.0 && elapsed == 0.0 && !frameRequested && globalAlpha == 1.0
    {
      stars := [];
      lastTime := 0.0;
      elapsed := 0.0;
      frameRequested := false;
      globalAlpha := 1.0;
    }

    /** `handleResize`: with a canvas, the star list is replaced wholesale. */
    method Resize(width: real, height: real, hasCanvas: bool)
      modifies this
      ensures stars == (if hasCanvas then Sky(width, height) else old(stars))
      ensures lastTime == old(lastTime) && elapsed == old(elapsed)
      ensures frameRequested == old(frameRequested) && globalAlpha == old(globalAlpha)
    {
      if hasCanvas {
        stars := InitStars(width, height);
      }
    }

    /**
     * One frame of `animateCanvas`. Without a canvas or a context it returns
     * before requesting the next frame. Otherwise the clock advances by the
     * delta clamped at 50, every star is drawn with its twinkling alpha at
     * the new elapsed time, `globalAlpha` is reset to 1 and the next frame is
     * requested. The stars themselves never change.
     */
    method Animate(timestamp: real, hasCanvas: bool, hasContext: bool, sin: real -> real)
      returns (alphas: seq<real>)
      modifies this
      ensures stars == old(stars)
      ensures !(hasCanvas && hasContext) ==>
        && alphas == [] && !frameRequested
        && lastTime == old(lastTime) && elapsed == old(elapsed) && globalAlpha == old(globalAlpha)
      ensures hasCanvas && hasContext ==>
        && lastTime == timestamp
        && elapsed == old(elapsed) + DriftField.FrameDelta(timestamp, old(lastTime))
        && |alphas| == |stars|
        && (forall i :: 0 <= i < |stars| ==> alphas[i] == TwinkleAlpha(sin, elapsed, stars[i]))
        && globalAlpha == 1.0 && frameRequested
    {
      frameRequested := false;
      alphas := [];
      if !hasCanvas || !hasContext {
        return;
      }
      var dt := DriftField.FrameDelta(timestamp, lastTime);
      lastTime := timestamp;
      elapsed := elapsed + dt;
      alphas := DrawAlphas(stars, sin, elapsed);
      globalAlpha := 1.0;
      frameRequested := true;
    }

    /** The effect cleanup: the pending frame is cancelled. */
    method Stop()
      modifies this
      ensures !frameRequested
      ensures stars == old(stars) && lastTime == old(lastTime) && elapsed == old(elapsed)
      ensures globalAlpha == old(globalAlpha)
    {
      frameRequested := false;
    }
  }

  /**
   * The mount effect: with all of its elements present it builds the stars,
   * stamps the clock and requests the first frame; otherwise it does nothing.
   */
  method Mount(width: real, height: real, now: real, hasElements: bool) returns (f: Finale)
    ensures fresh(f)
    ensures hasElements ==> f.stars == Sky(width, height) && f.lastTime == now && f.frameRequested
    ensures !hasElements ==> f.stars == [] && f.lastTime == 0.0 && !f.frameRequested
    ensures f.elapsed == 0.0 && f.globalAlpha == 1.0
  {
    f := new Finale();
    if hasElements {
      f.Resize(width, height, true);
      f.lastTime := now;
      f.frameRequested := true;
    }
  }

  /** Resizing twice to the same dimensions leaves the same stars: the generator is re-seeded. */
  method ResizeTwice(f: Finale, width: real, height: real)
    modifies f
    ensures f.stars == Sky(width, height)
  {
    f.Resize(width, height, true);
    ghost var first := f.stars;
    f.Resize(width, height, true);
    assert f.stars == first;
  }
}
