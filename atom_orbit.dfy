/**
 * The orbiting-electron emblem (src/components/ui/AtomOrbit.tsx): three tilted
 * rings drawn on progressively, a static electron fading in on each, then
 * orbiting electrons that leave a trail of at most 24 projected points.
 * Sine and cosine are oracle values; the drawing calls become the `Frame`
 * value a draw produces.
 */
module AtomOrbit {
  import opened Wrappers
  import opened JsMath
  import DriftField

  /** Elevation of the view, in radians. */
  const ViewAngle: real := 0.3

  /** Points kept in an electron's trail. */
  const TrailLength: nat := 24

  datatype RingDef = RingDef(tilt: real, speed: real, color: string)

  const Rings: seq<RingDef> := [
    RingDef(0.0, 4.0, "#00F5A0"),
    RingDef(Pi / 3.0, 5.5, "#00D4FF"),
    RingDef(2.0 * Pi / 3.0, 7.0, "#FFD700")
  ]

  datatype TrailPoint = TrailPoint(px: real, py: real, depth: real)

  /** One electron: where it is on its ring, its trail (oldest first), and whether its tween runs. */
  datatype Electron = Electron(angle: real, trail: seq<TrailPoint>, orbiting: bool)

  /** `project`: a point of a ring of radius `r` tilted by `tilt`, seen from `ViewAngle` above. */
  function Project(m: DriftField.Math, theta: real, tilt: real, r: real): TrailPoint
  {
    var cosV := m.cos(ViewAngle);
    var sinV := m.sin(ViewAngle);
    var x3d := r * m.cos(theta);
    var y3d := -r * m.sin(theta) * m.sin(tilt);
    var z3d := r * m.sin(theta) * m.cos(tilt);
    TrailPoint(x3d, y3d * cosV - z3d * sinV, y3d * sinV + z3d * cosV)
  }

  /**
   * With exact sine and cosine, `project` turns a point of the ring about the
   * horizontal axis twice, by the tilt and by the view: the point keeps its
   * distance `r * sin(theta)` from that axis.
   */
  lemma ProjectKeepsAxisDistance(m: DriftField.Math, theta: real, tilt: real, r: real)
    requires OnUnitCircle(m, tilt) && OnUnitCircle(m, ViewAngle)
    ensures Project(m, theta, tilt, r).px == r * m.cos(theta)
    ensures var t := Project(m, theta, tilt, r);
      t.py * t.py + t.depth * t.depth == (r * m.sin(theta)) * (r * m.sin(theta))
  {
    var q, st, ct, sv, cv := r * m.sin(theta), m.sin(tilt), m.cos(tilt), m.sin(ViewAngle), m.cos(ViewAngle);
    var y, z := -q * st, q * ct;
    assert -r * m.sin(theta) * st == y;
    assert r * m.sin(theta) * ct == z;
    Brahmagupta(y, z, cv, sv);
    assert y * y + z * z == (q * q) * (st * st + ct * ct);
  }

  /** Whether the oracle's sine and cosine at `a` lie on the unit circle. */
  predicate OnUnitCircle(m: DriftField.Math, a: real)
  {
    m.sin(a) * m.sin(a) + m.cos(a) * m.cos(a) == 1.0
  }

  /** The rotation identity behind the depth bound: (ac - bd)^2 + (ad + bc)^2 = (a^2 + b^2)(c^2 + d^2). */
  lemma Brahmagupta(a: real, b: real, c: real, d: real)
    ensures (a * c - b * d) * (a * c - b * d) + (a * d + b * c) * (a * d + b * c) ==
            (a * a + b * b) * (c * c + d * d)
  {
  }

  /** A real whose square is at most 1 lies in [-1, 1]. */
  lemma SquareAtMostOne(k: real)
    requires k * k <= 1.0
    ensures -1.0 <= k <= 1.0
  {
    assert k > 1.0 ==> k * k > 1.0 * k;
    assert k < -1.0 ==> k * k > -1.0 * k;
  }

  /** Scaling a value of [-1, 1] by a value of [-1, 1] and then by `r >= 0` stays in [-r, r]. */
  lemma ProductWithin(r: real, s: real, k: real)
    requires r >= 0.0 && -1.0 <= s <= 1.0 && -1.0 <= k <= 1.0
    ensures -r <= r * (s * k) <= r
  {
    var q := s * k;
    if s >= 0.0 {
      NonNegativeProduct(s, 1.0 - k);
      NonNegativeProduct(s, 1.0 + k);
      assert s * (1.0 - k) == s - q && s * (1.0 + k) == s + q;
      assert -s <= q <= s;
    } else {
      NonNegativeProduct(-s, 1.0 - k);
      NonNegativeProduct(-s, 1.0 + k);
      assert (-s) * (1.0 - k) == q - s && (-s) * (1.0 + k) == -s - q;
      assert s <= q <= -s;
    }
    assert -1.0 <= q <= 1.0;
    NonNegativeProduct(r, 1.0 - q);
    NonNegativeProduct(r, 1.0 + q);
    assert r * (1.0 - q) == r - r * q && r * (1.0 + q) == r + r * q;
  }

  /**
   * The projected depth of a point of a ring of radius `r` never exceeds `r`
   * in size, whenever the oracle's values are those of real sines and cosines.
   */
  lemma DepthWithinRadius(m: DriftField.Math, theta: real, tilt: real, r: real)
    requires r >= 0.0 && -1.0 <= m.sin(theta) <= 1.0
    requires OnUnitCircle(m, tilt) && OnUnitCircle(m, ViewAngle)
    ensures -r <= Project(m, theta, tilt, r).depth <= r
  {
    var s, st, ct, sv, cv := m.sin(theta), m.sin(tilt), m.cos(tilt), m.sin(ViewAngle), m.cos(ViewAngle);
    var k := ct * cv - st * sv;
    var j := ct * sv + st * cv;
    Brahmagupta(ct, st, cv, sv);
    assert ct * ct + st * st == 1.0 && cv * cv + sv * sv == 1.0;
    assert j * j >= 0.0;
    assert k * k <= 1.0;
    SquareAtMostOne(k);
    ProductWithin(r, s, k);
    assert Project(m, theta, tilt, r).depth == r * (s * k);
  }

  /** `0.6 + 0.4 * (nd + 1) / 2` with `nd = depth / (R || 1)`: nearer points are larger and brighter. */
  function DepthFactor(depth: real, r: real): real
  {
    var nd := depth / (if r == 0.0 then 1.0 else r);
    0.6 + 0.4 * (nd + 1.0) / 2.0
  }

  /**
   * For a depth within the current radius the factor lies in [0.6, 1]; it is
   * 0.8 on a zero radius, where every projected depth is 0.
   */
  lemma DepthFactorBounds(depth: real, r: real)
    requires r >= 0.0 && -r <= depth <= r
    ensures 0.6 <= DepthFactor(depth, r) <= 1.0
    ensures r == 0.0 ==> DepthFactor(depth, r) == 0.8
  {
    if r > 0.0 {
      var nd := depth / r;
      assert nd * r == depth;
      assert nd > 1.0 ==> nd * r > 1.0 * r;
      assert nd < -1.0 ==> nd * r < -1.0 * r;
    }
  }

  /** `ringP`: how far ring `ri` has been drawn when the rings' shared progress is `progress`. */
  function RingP(progress: real, ri: nat): (p: real)
    ensures 0.0 <= p <= 1.0
  {
    Max(0.0, Min(1.0, progress * 1.4 - ri as real * 0.2))
  }

  /**
   * A ring is skipped exactly while `1.4 * progress <= 0.2 * ri`; each ring
   * lags the one before it, and a ring never retracts as progress grows.
   */
  lemma RingOrder(progress: real, q: real, ri: nat)
    ensures RingP(progress, ri) <= 0.0 <==> progress * 1.4 <= ri as real * 0.2
    ensures RingP(progress, ri + 1) <= RingP(progress, ri)
    ensures progress <= q ==> RingP(progress, ri) <= RingP(q, ri)
  {
  }

  /** The static electron's fade-in, `min(1, (ringP - 0.6) / 0.4)`. */
  function FadeIn(ringP: real): real
  {
    Min(1.0, (ringP - 0.6) / 0.4)
  }

  /** Once the ring is past 0.6 the fade-in is positive and at most 1, and it is 1 on a full ring. */
  lemma FadeInBounds(ringP: real)
    requires 0.6 < ringP <= 1.0
    ensures 0.0 < FadeIn(ringP) <= 1.0
    ensures ringP == 1.0 ==> FadeIn(ringP) == 1.0
  {
  }

  /** The trail after one orbit update: the newest point appended, the oldest dropped past 24. */
  function Pushed(trail: seq<TrailPoint>, pt: TrailPoint): (r: seq<TrailPoint>)
    ensures |trail| <= TrailLength ==> |r| <= TrailLength
    ensures |r| > 0 && r[|r| - 1] == pt
  {
    var t := trail + [pt];
    if |t| > TrailLength then t[1..] else t
  }

  /** The trail after pushing `ps`, oldest first, onto `trail`. */
  function PushAll(trail: seq<TrailPoint>, ps: seq<TrailPoint>): seq<TrailPoint>
  {
    if ps == [] then trail else Pushed(PushAll(trail, ps[..|ps| - 1]), ps[|ps| - 1])
  }

  /** The last 24 points of `ps`, or all of them. */
  function Window(ps: seq<TrailPoint>): (w: seq<TrailPoint>)
    ensures |w| <= TrailLength
  {
    if |ps| <= TrailLength then ps else ps[|ps| - TrailLength..]
  }

  /** The trail is a first-in first-out window: from empty, it holds exactly the latest 24 points pushed. */
  lemma {:induction false} TrailIsWindow(ps: seq<TrailPoint>)
    ensures PushAll([], ps) == Window(ps)
  {
    if ps != [] {
      var init, last := ps[..|ps| - 1], ps[|ps| - 1];
      TrailIsWindow(init);
      assert PushAll([], ps) == Pushed(Window(init), last);
      if |init| < TrailLength {
        assert Window(init) + [last] == ps;
      } else {
        var w := init[|init| - TrailLength..];
        assert Window(init) == w && |w + [last]| > TrailLength;
        assert (w + [last])[1..] == ps[|ps| - TrailLength..];
      }
    }
  }

  /** The angle ring `i` starts from, `(i / 3) * 2π`. */
  function StartAngle(i: nat): real
  {
    (i as real / |Rings| as real) * Pi * 2.0
  }

  /** The electrons as mounted and as `play` resets them: at their start angles, no trail, not orbiting. */
  function InitialElectrons(): (es: seq<Electron>)
    ensures |es| == |Rings|
    ensures forall i :: 0 <= i < |es| ==> es[i] == Electron(StartAngle(i), [], false)
  {
    seq(|Rings|, i requires 0 <= i => Electron(StartAngle(i), [], false))
  }

  /** A glowing electron: where it is, its depth factor and the alpha it is drawn with. */
  datatype Orb = Orb(px: real, py: real, depthFactor: real, alpha: real)

  /** One dot of a trail. */
  datatype Dot = Dot(px: real, py: real, radius: real, alpha: real)

  /** A ring drawn on to `maxTheta`, with its static electron while not orbiting. */
  datatype RingPaint = RingPaint(maxTheta: real, staticOrb: Option<Orb>)

  /** An electron's trail dots and its orb while orbiting. */
  datatype TrailPaint = TrailPaint(dots: seq<Dot>, orb: Option<Orb>)

  /**
   * What one run of `draw` paints: nothing without a context or a width, a
   * cleared canvas when nearly transparent, otherwise each ring (none for a
   * ring not yet started) and each electron's trail.
   */
  datatype Frame = Skipped | Cleared | Painted(rings: seq<Option<RingPaint>>, trails: seq<TrailPaint>)

  function OrbAt(m: DriftField.Math, ring: RingDef, r: real, angle: real, alpha: real): Orb
  {
    var p := Project(m, angle, ring.tilt, r);
    Orb(p.px, p.py, DepthFactor(p.depth, r), alpha)
  }

  /** Ring `ri`'s path and static electron at the current progress. */
  function RingPaintAt(m: DriftField.Math, r: real, progress: real, master: real, ri: nat, e: Electron)
    : (rp: Option<RingPaint>)
    requires ri < |Rings|
    ensures rp.Some? <==> RingP(progress, ri) > 0.0
    ensures rp.Some? ==> (rp.value.staticOrb.Some? <==> !e.orbiting && RingP(progress, ri) > 0.6)
  {
    var ringP := RingP(progress, ri);
    if ringP <= 0.0 then None
    else
      var orb := if !e.orbiting && ringP > 0.6 then Some(OrbAt(m, Rings[ri], r, e.angle, FadeIn(ringP) * master)) else None;
      Some(RingPaint(Pi * 2.0 * ringP, orb))
  }

  /** Dot `t` of a trail: older dots are smaller and fainter. */
  function DotAt(trail: seq<TrailPoint>, t: nat, r: real, master: real): Dot
    requires t < |trail|
  {
    var pt := trail[t];
    var age := t as real / |trail| as real;
    var df := DepthFactor(pt.depth, r);
    var sz := (0.5 + 2.5 * age) * df;
    Dot(pt.px, pt.py, Max(0.3, sz), age * 0.5 * df * master)
  }

  /** A trail dot's age `t / len` lies in [0, 1), its radius is at least 0.3, and its alpha grows with age. */
  lemma DotBounds(trail: seq<TrailPoint>, t: nat, r: real, master: real)
    requires t < |trail|
    ensures 0.0 <= t as real / |trail| as real < 1.0
    ensures DotAt(trail, t, r, master).radius >= 0.3
    ensures t == 0 ==> DotAt(trail, t, r, master).alpha == 0.0
  {
    var n := |trail| as real;
    var age := t as real / n;
    assert age * n == t as real;
    assert age >= 1.0 ==> age * n >= 1.0 * n;
  }

  function TrailPaintAt(m: DriftField.Math, r: real, master: real, ring: RingDef, e: Electron): TrailPaint
  {
    if !e.orbiting && |e.trail| == 0 then TrailPaint([], None)
    else
      TrailPaint(seq(|e.trail|, t requires 0 <= t < |e.trail| => DotAt(e.trail, t, r, master)),
                 if e.orbiting then Some(OrbAt(m, ring, r, e.angle, master)) else None)
  }

  /** The frame `draw` paints from the current context, size, proxy values and electrons. */
  function FrameOf(hasContext: bool, w: real, r: real, opacity: real, progress: real,
                   es: seq<Electron>, m: DriftField.Math): (f: Frame)
    requires |es| == |Rings|
    ensures f.Skipped? <==> !hasContext || w == 0.0
    ensures f.Cleared? <==> hasContext && w != 0.0 && opacity < 0.001
    ensures f.Painted? ==> |f.rings| == |Rings| && |f.trails| == |Rings|
    ensures f.Painted? ==> forall i :: 0 <= i < |Rings| ==>
              f.rings[i] == RingPaintAt(m, r, progress, opacity, i, es[i]) &&
              f.trails[i] == TrailPaintAt(m, r, opacity, Rings[i], es[i])
  {
    if !hasContext || w == 0.0 then Skipped
    else if opacity < 0.001 then Cleared
    else
      Painted(seq(|Rings|, i requires 0 <= i < |Rings| => RingPaintAt(m, r, progress, opacity, i, es[i])),
              seq(|Rings|, i requires 0 <= i < |Rings| => TrailPaintAt(m, r, opacity, Rings[i], es[i])))
  }

  /**
   * A painted static electron has a fade-in alpha in (0, opacity] and never
   * coexists with an orbiting one on the same ring.
   */
  lemma StaticElectronRule(m: DriftField.Math, r: real, progress: real, master: real, ri: nat, e: Electron)
    requires ri < |Rings| && master > 0.0
    ensures var rp := RingPaintAt(m, r, progress, master, ri, e);
            rp.Some? && rp.value.staticOrb.Some? ==>
              0.0 < rp.value.staticOrb.value.alpha <= master && TrailPaintAt(m, r, master, Rings[ri], e).orb.None?
  {
    var ringP := RingP(progress, ri);
    if ringP > 0.6 && !e.orbiting {
      FadeInBounds(ringP);
      var f := FadeIn(ringP);
      assert f * master <= 1.0 * master;
      assert 0.0 < f * master;
      assert RingPaintAt(m, r, progress, master, ri, e).value.staticOrb.value.alpha == f * master;
    }
  }

  /** The emblem's refs: the electrons, the tweened proxy, the canvas size and the pending frame. */
  class Atom {
    var electrons: seq<Electron>
    /** `proxy.opacity` and `proxy.ringProgress`, written by the timeline. */
    var opacity: real
    var ringProgress: real
    /** `dims`. */
    var w: real
    var h: real
    var radius: real
    /** The radius the running orbit tweens captured when they started. */
    var orbitRadius: real
    /** Whether orbit tweens are alive. */
    var tweensRunning: bool
    /** Whether an animation frame is requested. */
    var frameRequested: bool

    /** One electron per ring, and no trail longer than 24 points. */
    predicate Valid()
      reads this
    {
      |electrons| == |Rings| && forall i :: 0 <= i < |electrons| ==> |electrons[i].trail| <= TrailLength
    }

    constructor ()
      ensures Valid() && electrons == InitialElectrons()
      ensures opacity == 0.0 && ringProgress == 0.0 && w == 0.0 && h == 0.0 && radius == 0.0
      ensures !tweensRunning && !frameRequested
    {
      electrons := InitialElectrons();
      opacity := 0.0;
      ringProgress := 0.0;
      w := 0.0;
      h := 0.0;
      radius := 0.0;
      orbitRadius := 0.0;
      tweensRunning := false;
      frameRequested := false;
    }

    /** `play`: reset every electron and the proxy, then restart the timeline. */
    method Play()
      modifies this
      ensures Valid() && electrons == InitialElectrons() && opacity == 0.0 && ringProgress == 0.0
      ensures w == old(w) && h == old(h) && radius == old(radius) && orbitRadius == old(orbitRadius)
      ensures tweensRunning == old(tweensRunning) && frameRequested == old(frameRequested)
    {
      electrons := InitialElectrons();
      opacity := 0.0;
      ringProgress := 0.0;
    }

    /** `resize`: the parent's size, and a radius fitting both dimensions. */
    method Resize(width: real, height: real)
      modifies this
      ensures w == width && h == height && radius == Min(width * 0.22, height * 0.42)
      ensures electrons == old(electrons) && opacity == old(opacity) && ringProgress == old(ringProgress)
      ensures orbitRadius == old(orbitRadius) && tweensRunning == old(tweensRunning)
      ensures frameRequested == old(frameRequested)
    {
      w := width;
      h := height;
      radius := Min(width * 0.22, height * 0.42);
    }

    /** The timeline's call at 1.5 s: every electron starts orbiting with the current radius. */
    method StartOrbits()
      requires Valid()
      modifies this
      ensures Valid() && tweensRunning && orbitRadius == radius
      ensures |electrons| == |old(electrons)|
      ensures forall i :: 0 <= i < |electrons| ==>
                electrons[i] == old(electrons[i]).(orbiting := true)
      ensures opacity == old(opacity) && ringProgress == old(ringProgress) && radius == old(radius)
      ensures w == old(w) && h == old(h) && frameRequested == old(frameRequested)
    {
      var es := electrons;
      electrons := seq(|es|, i requires 0 <= i < |es| => es[i].(orbiting := true));
      orbitRadius := radius;
      tweensRunning := true;
    }

    /** One update of ring `i`'s orbit tween: the electron moves to `angle` and its trail takes the projected point. */
    method OrbitTick(i: nat, angle: real, m: DriftField.Math)
      requires Valid() && i < |Rings|
      modifies this
      ensures Valid()
      ensures electrons == old(electrons)[i := Electron(angle,
                Pushed(old(electrons[i].trail), Project(m, angle, Rings[i].tilt, orbitRadius)),
                old(electrons[i].orbiting))]
      ensures opacity == old(opacity) && ringProgress == old(ringProgress) && radius == old(radius)
      ensures orbitRadius == old(orbitRadius) && tweensRunning == old(tweensRunning)
      ensures w == old(w) && h == old(h) && frameRequested == old(frameRequested)
    {
      var e := electrons[i];
      var pt := Project(m, angle, Rings[i].tilt, orbitRadius);
      electrons := electrons[i := Electron(angle, Pushed(e.trail, pt), e.orbiting)];
    }

    /** The timeline's call at 8 s: the orbit tweens are killed and no electron orbits any more. */
    method StopOrbits()
      requires Valid()
      modifies this
      ensures Valid() && !tweensRunning
      ensures |electrons| == |old(electrons)|
      ensures forall i :: 0 <= i < |electrons| ==>
                !electrons[i].orbiting && electrons[i] == old(electrons[i]).(orbiting := false)
      ensures opacity == old(opacity) && ringProgress == old(ringProgress) && radius == old(radius)
      ensures orbitRadius == old(orbitRadius) && w == old(w) && h == old(h)
      ensures frameRequested == old(frameRequested)
    {
      var es := electrons;
      electrons := seq(|es|, i requires 0 <= i < |es| => es[i].(orbiting := false));
      tweensRunning := false;
    }

    /** `draw`: paint the frame, and request the next one in every case. */
    method Draw(hasContext: bool, m: DriftField.Math) returns (f: Frame)
      requires Valid()
      modifies this
      ensures electrons == old(electrons) && opacity == old(opacity) && ringProgress == old(ringProgress)
      ensures frameRequested
      ensures f == FrameOf(hasContext, w, radius, opacity, ringProgress, electrons, m)
      ensures radius == old(radius) && orbitRadius == old(orbitRadius) && tweensRunning == old(tweensRunning)
      ensures w == old(w) && h == old(h)
    {
      f := FrameOf(hasContext, w, radius, opacity, ringProgress, electrons, m);
      frameRequested := true;
    }

    /** The effect's cleanup: cancel the frame and kill the tweens. */
    method Unmount()
      modifies this
      ensures !frameRequested && !tweensRunning
      ensures electrons == old(electrons) && opacity == old(opacity) && ringProgress == old(ringProgress)
      ensures radius == old(radius) && orbitRadius == old(orbitRadius) && w == old(w) && h == old(h)
    {
      frameRequested := false;
      tweensRunning := false;
    }
  }
}
