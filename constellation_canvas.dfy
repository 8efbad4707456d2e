/**
 * The home-page background (src/components/canvas/ConstellationCanvas.tsx):
 * 120 blue and gold dots drawn toward the pointer, linked when closer than 160.
 */
module ConstellationCanvas {
  import opened Wrappers
  import FieldScale
  import opened DriftField
  import opened DotField

  const Colors: seq<string> := [
    "rgba(0,102,255,0.9)",
    "rgba(0,102,255,0.7)",
    "rgba(255,215,0,0.85)",
    "rgba(255,215,0,0.65)",
    "rgba(100,140,220,0.6)"
  ]

  /** Seed 44444, 120 particles of size 2.4 x [0.7, 1.3), alpha [0.4, 0.9), drift amplitude 20. */
  const Home: Builder := Builder(44444, 120, 2.4, 0.4, 0.9, 0.7, 1.3, 20.0, Colors)

  /** Links within 160 at alpha 0.2, with a cursor boost of up to 0.25. */
  const HomeLinks: Links := Links(160.0, 0.2, 0.25)

  /** Attraction inside 180, breathing 0.65 +- 0.4, links as above. */
  const HomeScene: Scene := Scene(180.0, 0.4, false, 0.0006, 0.012, 0.96, 0.0012, 0.65, 0.4, 0.0, Some(HomeLinks))

  const Sentinel: Point := Point(-9999.0, -9999.0)

  /** The canvas the component mounts. */
  method Mount(width: real, height: real, now: real) returns (f: Field)
    ensures fresh(f) && f.scene == HomeScene && f.mouse == Sentinel
    ensures f.particles[..] == Layout(Home, width, height)
    ensures f.lastTime == now && f.elapsed == 0.0 && f.frameRequested
  {
    f := DotField.Mount(HomeScene, Home, Sentinel, width, height, now);
  }

  /** Exactly 120 particles on a canvas at least 1920 wide, 42 on a zero-width one. */
  lemma Counts(height: real)
    ensures forall w :: w >= FieldScale.FullWidth ==> |Layout(Home, w, height)| == 120
    ensures |Layout(Home, 0.0, height)| == 42
  {
    assert (Home.baseCount as real * FieldScale.MinMultiplier).Floor == 42;
  }

  /** A fresh particle starts at rest with alpha in [0.4, 0.9) and size factor in [0.7, 1.3). */
  lemma Fresh(width: real, height: real, i: nat)
    ensures var p := ParticleAt(Home, width, height, i);
      && p.x == p.baseX && p.y == p.baseY && p.vx == 0.0 && p.vy == 0.0
      && p.alpha == p.baseAlpha && 0.4 <= p.baseAlpha < 0.9
      && 2.4 * 0.7 <= p.size < 2.4 * 1.3 && p.color in Colors
  {
  }

  /** The constellation draws particles toward the pointer, along the pointer-particle line. */
  lemma Attracts(m: Math, mouse: Point, p: Particle)
    ensures var f := Push(HomeScene, m, mouse, p);
      && (mouse.x - p.x) * f.x >= 0.0 && (mouse.y - p.y) * f.y >= 0.0
      && f.x * (mouse.y - p.y) == f.y * (mouse.x - p.x)
  {
    PushDirection(HomeScene, m, mouse, p);
  }

  /** Breathing keeps the alpha between 0.25 and 1.05 times the base alpha. */
  lemma BreathingAlpha(m: Math, t: real, mouse: Point, p: Particle)
    requires 0.0 <= p.baseAlpha
    requires -1.0 <= Breath(HomeScene, m, t, p) <= 1.0
    ensures var q := Step(HomeScene, m, t, mouse, p);
      0.25 * p.baseAlpha <= q.alpha <= 1.05 * p.baseAlpha
  {
    AlphaBounds(HomeScene, m, t, mouse, p);
  }

  /** Every drawn link has alpha in (0, 0.45]: line alpha up to 0.2 plus boost up to 0.25. */
  lemma LinkAlpha(m: Math, mouse: Point, ps: seq<Particle>, l: Link)
    requires ExactSqrt(m)
    requires l in AllLinks(HomeScene, HomeLinks, m, mouse, ps)
    ensures 0.0 < l.alpha <= 0.45
  {
    LinkAlphaBounds(HomeScene, HomeLinks, m, mouse, ps, l);
  }

  /** Pairs at distance 160 or more get no line: the threshold is strict. */
  lemma StrictThreshold(m: Math, mouse: Point, ps: seq<Particle>, i: nat, j: nat)
    requires i < j < |ps| && DistSq(ps[i], ps[j]) >= 160.0 * 160.0
    ensures forall l :: l in AllLinks(HomeScene, HomeLinks, m, mouse, ps) ==> !(l.i == i && l.j == j)
  {
    LinksExact(HomeScene, HomeLinks, m, mouse, ps, i, j);
  }

  /** The parked pointer exerts no force on any particle at x >= -9819. */
  lemma SentinelIsInert(m: Math, p: Particle)
    requires ExactSqrt(m)
    requires p.x >= Sentinel.x + HomeScene.cursorRadius
    ensures Push(HomeScene, m, Sentinel, p) == Point(0.0, 0.0)
  {
    var d := ForceAxis(HomeScene, Sentinel, p);
    assert IsLength(d, Len(m, d));
    FarPointerNoPush(HomeScene, m, Sentinel, p);
  }
}
