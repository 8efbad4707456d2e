/**
 * The lab background (src/components/canvas/LabConstellation.tsx): 220 warm
 * dots drawn toward the pointer, linked when closer than 140.
 */
module LabConstellation {
  import opened Wrappers
  import FieldScale
  import opened DriftField
  import opened DotField

  const Colors: seq<string> := [
    "rgba(255,165,0,1)",
    "rgba(255,149,0,0.9)",
    "rgba(255,200,80,0.85)",
    "rgba(255,220,130,0.7)",
    "rgba(255,255,255,0.6)"
  ]

  /** Seed 77701, 220 particles of size 2.8 x [0.8, 1.4), alpha [0.5, 1), drift amplitude 25. */
  const Lab: Builder := Builder(77701, 220, 2.8, 0.5, 1.0, 0.8, 1.4, 25.0, Colors)

  /** Links within 140 at alpha 0.35, with a cursor boost of up to 0.3. */
  const LabLinks: Links := Links(140.0, 0.35, 0.3)

  /** Attraction inside 200, breathing 0.65 +- 0.45, links as above. */
  const LabScene: Scene := Scene(200.0, 0.5, false, 0.0008, 0.015, 0.97, 0.0015, 0.65, 0.45, 0.0, Some(LabLinks))

  const Sentinel: Point := Point(-9999.0, -9999.0)

  /** The canvas the component mounts. */
  method Mount(width: real, height: real, now: real) returns (f: Field)
    ensures fresh(f) && f.scene == LabScene && f.mouse == Sentinel
    ensures f.particles[..] == Layout(Lab, width, height)
    ensures f.lastTime == now && f.elapsed == 0.0 && f.frameRequested
  {
    f := DotField.Mount(LabScene, Lab, Sentinel, width, height, now);
  }

  /** 220 particles on a canvas at least 1920 wide, 77 on a zero-width one. */
  lemma Counts(height: real)
    ensures forall w :: w >= FieldScale.FullWidth ==> |Layout(Lab, w, height)| == 220
    ensures |Layout(Lab, 0.0, height)| == 77
  {
    assert (Lab.baseCount as real * FieldScale.MinMultiplier).Floor == 77;
  }

  /** A fresh particle starts at rest on its base point with alpha in [0.5, 1) and size in [2.24, 3.92). */
  lemma Fresh(width: real, height: real, i: nat)
    ensures var p := ParticleAt(Lab, width, height, i);
      && p.x == p.baseX && p.y == p.baseY && p.vx == 0.0 && p.vy == 0.0
      && p.alpha == p.baseAlpha && 0.5 <= p.baseAlpha < 1.0
      && 2.8 * 0.8 <= p.size < 2.8 * 1.4 && p.color in Colors
  {
  }

  /** The lab draws particles toward the pointer, along the pointer-particle line. */
  lemma Attracts(m: Math, mouse: Point, p: Particle)
    ensures var f := Push(LabScene, m, mouse, p);
      && (mouse.x - p.x) * f.x >= 0.0 && (mouse.y - p.y) * f.y >= 0.0
      && f.x * (mouse.y - p.y) == f.y * (mouse.x - p.x)
  {
    PushDirection(LabScene, m, mouse, p);
  }

  /**
   * Breathing keeps the alpha between 0.2 and 1.1 times the base alpha, so a
   * particle built with alpha at least 0.5 never disappears.
   */
  lemma AlwaysVisible(m: Math, t: real, mouse: Point, p: Particle)
    requires 0.5 <= p.baseAlpha
    requires -1.0 <= Breath(LabScene, m, t, p) <= 1.0
    ensures var q := Step(LabScene, m, t, mouse, p);
      0.2 * p.baseAlpha <= q.alpha <= 1.1 * p.baseAlpha && 0.0 < q.alpha
  {
    AlphaBounds(LabScene, m, t, mouse, p);
  }

  /** Every drawn link has alpha in (0, 0.65]: line alpha up to 0.35 plus boost up to 0.3. */
  lemma LinkAlpha(m: Math, mouse: Point, ps: seq<Particle>, l: Link)
    requires ExactSqrt(m)
    requires l in AllLinks(LabScene, LabLinks, m, mouse, ps)
    ensures 0.0 < l.alpha <= 0.65
  {
    LinkAlphaBounds(LabScene, LabLinks, m, mouse, ps, l);
  }

  /** Pairs at distance 140 or more get no line: the threshold is strict. */
  lemma StrictThreshold(m: Math, mouse: Point, ps: seq<Particle>, i: nat, j: nat)
    requires i < j < |ps| && DistSq(ps[i], ps[j]) >= 140.0 * 140.0
    ensures forall l :: l in AllLinks(LabScene, LabLinks, m, mouse, ps) ==> !(l.i == i && l.j == j)
  {
    LinksExact(LabScene, LabLinks, m, mouse, ps, i, j);
  }

  /** The parked pointer exerts no force on any particle at x >= -9799. */
  lemma SentinelIsInert(m: Math, p: Particle)
    requires ExactSqrt(m)
    requires p.x >= Sentinel.x + LabScene.cursorRadius
    ensures Push(LabScene, m, Sentinel, p) == Point(0.0, 0.0)
  {
    var d := ForceAxis(LabScene, Sentinel, p);
    assert IsLength(d, Len(m, d));
    FarPointerNoPush(LabScene, m, Sentinel, p);
  }
}
