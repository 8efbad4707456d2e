/**
 * The per-frame engine shared by the three drifting particle canvases
 * (src/components/canvas/ArenaParticles.tsx, LabConstellation.tsx and
 * ConstellationCanvas.tsx). The three `animate` callbacks are the same loop with
 * different constants: a cursor force (repulsion in the arena, attraction in the
 * two constellations), a spring toward a sine-drifting target, damping, then
 * integration, followed by a breathing alpha; the constellations then link close
 * pairs. `Scene` holds the constants, `Step` is one particle's update and `Field`
 * is a component's mutable state.
 *
 * `Math.sin`, `Math.cos` and `Math.sqrt` are not modelled: they are passed in as
 * `Math`, and the lemmas state what they assume of the values they return.
 */
module DriftField {
  import opened Wrappers

  datatype Point = Point(x: real, y: real)

  /** The transcendental functions the frame uses. */
  datatype Math = Math(sin: real -> real, cos: real -> real, sqrt: real -> real)

  /** What distinguishes the arena's rotating symbols from the constellations' dots. */
  datatype Glyph =
    | Dot(breathPhase: real)
    | Symbol(shape: int, rotation: real, rotationPhase: real)

  datatype Particle = Particle(
    x: real, y: real,
    baseX: real, baseY: real,
    vx: real, vy: real,
    size: real,
    color: string,
    baseAlpha: real, alpha: real,
    driftPhase: real, driftAmpX: real, driftAmpY: real,
    glyph: Glyph)

  /** The connection pass of a constellation: maximum distance, line alpha, cursor boost. */
  datatype Links = Links(distance: real, alpha: real, boost: real)

  datatype Scene = Scene(
    cursorRadius: real, cursorForce: real,
    repel: bool,
    driftSpeed: real,
    spring: real, damping: real,
    breathSpeed: real, breathBase: real, breathRange: real,
    rotationSpeed: real,
    links: Option<Links>)

  /** One line drawn between particles `i` and `j`, with its stroke alpha. */
  datatype Link = Link(i: nat, j: nat, alpha: real)

  /** `Math.min(timestamp - lastTime, 50)`: clamped above only. */
  function FrameDelta(timestamp: real, lastTime: real): (dt: real)
    ensures dt <= 50.0
    ensures timestamp - lastTime <= 50.0 ==> dt == timestamp - lastTime
    ensures timestamp - lastTime > 50.0 ==> dt == 50.0
  {
    if timestamp - lastTime < 50.0 then timestamp - lastTime else 50.0
  }

  /** The sine-wave drift target around the particle's base position. */
  function Target(s: Scene, m: Math, t: real, p: Particle): Point
  {
    Point(p.baseX + m.sin(t * s.driftSpeed + p.driftPhase) * p.driftAmpX,
          p.baseY + m.cos(t * s.driftSpeed * 0.7 + p.driftPhase + 1.3) * p.driftAmpY)
  }

  /**
   * The cursor force along `(dx, dy)` at distance `dist`, applied only when
   * `1 < dist < cursorRadius`.
   */
  function CursorForce(s: Scene, dx: real, dy: real, dist: real): (f: Point)
    ensures !(1.0 < dist < s.cursorRadius) ==> f == Point(0.0, 0.0)
  {
    if dist < s.cursorRadius && dist > 1.0 then
      var force := (1.0 - dist / s.cursorRadius) * s.cursorForce;
      Point(dx / dist * force, dy / dist * force)
    else
      Point(0.0, 0.0)
  }

  /** The vector the force acts along: away from the pointer for a repelling scene, toward it otherwise. */
  function ForceAxis(s: Scene, mouse: Point, p: Particle): Point
  {
    if s.repel then Point(p.x - mouse.x, p.y - mouse.y)
    else Point(mouse.x - p.x, mouse.y - p.y)
  }

  /** `Math.sqrt(d.x * d.x + d.y * d.y)`. */
  function Len(m: Math, d: Point): real
  {
    m.sqrt(d.x * d.x + d.y * d.y)
  }

  /** The velocity change the pointer causes this frame. */
  function Push(s: Scene, m: Math, mouse: Point, p: Particle): (f: Point)
    ensures !(1.0 < Len(m, ForceAxis(s, mouse, p)) < s.cursorRadius) ==> f == Point(0.0, 0.0)
  {
    var d := ForceAxis(s, mouse, p);
    CursorForce(s, d.x, d.y, Len(m, d))
  }

  /** The phase of the breathing sine: the arena breathes on its drift phase. */
  function BreathPhase(p: Particle): real
  {
    match p.glyph
    case Dot(phase) => phase
    case Symbol(_, _, _) => p.driftPhase
  }

  /** The breathing sine of this frame. */
  function Breath(s: Scene, m: Math, t: real, p: Particle): real
  {
    m.sin(t * s.breathSpeed + BreathPhase(p))
  }

  /** The fields a frame never writes. */
  predicate Untouched(p: Particle, q: Particle)
  {
    && q.baseX == p.baseX && q.baseY == p.baseY
    && q.size == p.size && q.color == p.color
    && q.baseAlpha == p.baseAlpha
    && q.driftPhase == p.driftPhase && q.driftAmpX == p.driftAmpX && q.driftAmpY == p.driftAmpY
    && (p.glyph.Dot? ==> q.glyph == p.glyph)
    && (p.glyph.Symbol? ==>
          q.glyph.Symbol? && q.glyph.shape == p.glyph.shape && q.glyph.rotationPhase == p.glyph.rotationPhase)
  }

  /**
   * One particle's update at elapsed time `t`: cursor force, spring toward the
   * drift target, damping, integration, then rotation and breathing alpha.
   */
  function Step(s: Scene, m: Math, t: real, mouse: Point, p: Particle): (q: Particle)
    ensures Untouched(p, q)
  {
    var f := Push(s, m, mouse, p);
    var target := Target(s, m, t, p);
    var vx := (p.vx + f.x + (target.x - p.x) * s.spring) * s.damping;
    var vy := (p.vy + f.y + (target.y - p.y) * s.spring) * s.damping;
    var glyph :=
      match p.glyph
      case Dot(_) => p.glyph
      case Symbol(shape, _, phase) => Symbol(shape, t * s.rotationSpeed + phase, phase);
    var breath := Breath(s, m, t, p);
    p.(x := p.x + vx, y := p.y + vy, vx := vx, vy := vy, glyph := glyph,
       alpha := p.baseAlpha * (s.breathBase + breath * s.breathRange))
  }

  /** `r` is the exact length of `d`, as `Math.sqrt` would return it over the reals. */
  predicate IsLength(d: Point, r: real)
  {
    0.0 <= r && r * r == d.x * d.x + d.y * d.y
  }

  /** Inside the guard the force points along `(dx, dy)`: same signs, and collinear. */
  lemma ForceDirection(s: Scene, dx: real, dy: real, dist: real)
    requires 1.0 < dist < s.cursorRadius && 0.0 <= s.cursorForce
    ensures var f := CursorForce(s, dx, dy, dist);
      f.x * dx >= 0.0 && f.y * dy >= 0.0 && f.x * dy == f.y * dx
  {
    var k := (1.0 - dist / s.cursorRadius) * s.cursorForce;
    FractionBelowOne(dist, s.cursorRadius);
    assert 0.0 <= k;
    var c := k / dist;
    assert 0.0 <= c;
    var f := CursorForce(s, dx, dy, dist);
    assert f.x == dx * c && f.y == dy * c;
    assert f.x * dx == c * (dx * dx);
    assert f.y * dy == c * (dy * dy);
  }

  /** Inside the guard the force has magnitude `(1 - dist/radius) * cursorForce`. */
  lemma ForceMagnitude(s: Scene, dx: real, dy: real, dist: real)
    requires 1.0 < dist < s.cursorRadius
    requires IsLength(Point(dx, dy), dist)
    ensures var f := CursorForce(s, dx, dy, dist);
      var k := (1.0 - dist / s.cursorRadius) * s.cursorForce;
      f.x * f.x + f.y * f.y == k * k
  {
    var k := (1.0 - dist / s.cursorRadius) * s.cursorForce;
    var c := k / dist;
    var f := CursorForce(s, dx, dy, dist);
    assert f.x == dx * c && f.y == dy * c;
    calc {
      f.x * f.x + f.y * f.y;
      c * c * (dx * dx + dy * dy);
      c * c * (dist * dist);
      (c * dist) * (c * dist);
      k * k;
    }
  }

  lemma NegateFactor(a: real, b: real)
    ensures a * -b == -(a * b)
  {
  }

  /**
   * A repelling scene pushes the particle away from the pointer and an
   * attracting one pulls it toward the pointer, along the line between them.
   */
  lemma PushDirection(s: Scene, m: Math, mouse: Point, p: Particle)
    requires 0.0 <= s.cursorForce
    ensures var f := Push(s, m, mouse, p);
      var ax := p.x - mouse.x;
      var ay := p.y - mouse.y;
      && (s.repel ==> f.x * ax >= 0.0 && f.y * ay >= 0.0)
      && (!s.repel ==> f.x * ax <= 0.0 && f.y * ay <= 0.0)
      && f.x * ay == f.y * ax
  {
    var d := ForceAxis(s, mouse, p);
    var r := Len(m, d);
    var f := Push(s, m, mouse, p);
    var ax := p.x - mouse.x;
    var ay := p.y - mouse.y;
    if 1.0 < r < s.cursorRadius {
      ForceDirection(s, d.x, d.y, r);
      assert f.x * d.x >= 0.0 && f.y * d.y >= 0.0 && f.x * d.y == f.y * d.x;
      if !s.repel {
        assert d.x == -ax && d.y == -ay;
        NegateFactor(f.x, ax);
        NegateFactor(f.y, ay);
        NegateFactor(f.x, ay);
        NegateFactor(f.y, ax);
      }
    }
  }

  lemma SquareBelow(r: real, R: real)
    requires 0.0 <= r < R
    ensures r * r < R * R
  {
    calc {
      r * r;
      <= r * R;
      < R * R;
    }
  }

  lemma SquareAtLeast(x: real, R: real)
    requires 0.0 <= R <= x
    ensures R * R <= x * x
  {
    calc {
      R * R;
      <= R * x;
      <= x * x;
    }
  }

  /** The first coordinate of a vector shorter than `R` is shorter than `R`. */
  lemma CoordinateBelow(d: Point, r: real, R: real)
    requires IsLength(d, r) && r < R
    ensures d.x < R && -d.x < R
  {
    SquareBelow(r, R);
    assert 0.0 <= d.y * d.y;
    if d.x >= R {
      SquareAtLeast(d.x, R);
      assert false;
    }
    if -d.x >= R {
      SquareAtLeast(-d.x, R);
      assert false;
    }
  }

  /** A pointer at least `cursorRadius` away along either axis, on either side, exerts no force. */
  lemma FarPointerNoPush(s: Scene, m: Math, mouse: Point, p: Particle)
    requires IsLength(ForceAxis(s, mouse, p), Len(m, ForceAxis(s, mouse, p)))
    requires p.x - mouse.x >= s.cursorRadius || mouse.x - p.x >= s.cursorRadius
          || p.y - mouse.y >= s.cursorRadius || mouse.y - p.y >= s.cursorRadius
    ensures Push(s, m, mouse, p) == Point(0.0, 0.0)
  {
    var d := ForceAxis(s, mouse, p);
    if Len(m, d) < s.cursorRadius {
      CoordinateBelow(d, Len(m, d), s.cursorRadius);
      CoordinateBelow(Point(d.y, d.x), Len(m, d), s.cursorRadius);
      assert false;
    }
  }

  /**
   * The update order: the force and the spring (measured from the position
   * before the move) both feed the velocity, damping scales their sum, and only
   * then does the position advance by the damped velocity.
   */
  lemma UpdateOrder(s: Scene, m: Math, t: real, mouse: Point, p: Particle)
    ensures var q := Step(s, m, t, mouse, p);
      var f := Push(s, m, mouse, p);
      var target := Target(s, m, t, p);
      && q.vx == s.damping * p.vx + s.damping * f.x + s.damping * s.spring * (target.x - p.x)
      && q.vy == s.damping * p.vy + s.damping * f.y + s.damping * s.spring * (target.y - p.y)
      && q.x - p.x == q.vx && q.y - p.y == q.vy
  {
  }

  /**
   * A particle resting on its drift target with the pointer out of reach stays
   * where it is, with zero velocity.
   */
  lemma RestIsFixed(s: Scene, m: Math, t: real, mouse: Point, p: Particle)
    requires Push(s, m, mouse, p) == Point(0.0, 0.0)
    requires Target(s, m, t, p) == Point(p.x, p.y)
    requires p.vx == 0.0 && p.vy == 0.0
    ensures var q := Step(s, m, t, mouse, p);
      q.x == p.x && q.y == p.y && q.vx == 0.0 && q.vy == 0.0
  {
  }

  /** With a breath in [-1, 1] the alpha lies between (base - range) and (base + range) times baseAlpha. */
  lemma AlphaBounds(s: Scene, m: Math, t: real, mouse: Point, p: Particle)
    requires 0.0 <= p.baseAlpha && 0.0 <= s.breathRange
    requires -1.0 <= Breath(s, m, t, p) <= 1.0
    ensures var q := Step(s, m, t, mouse, p);
      (s.breathBase - s.breathRange) * p.baseAlpha <= q.alpha <= (s.breathBase + s.breathRange) * p.baseAlpha
  {
    var b := Breath(s, m, t, p);
    assert -s.breathRange <= b * s.breathRange <= s.breathRange by {
      assert (b + 1.0) * s.breathRange >= 0.0;
      assert (1.0 - b) * s.breathRange >= 0.0;
    }
    var q := Step(s, m, t, mouse, p);
    assert q.alpha == p.baseAlpha * (s.breathBase + b * s.breathRange);
    assert (s.breathBase + s.breathRange - (s.breathBase + b * s.breathRange)) * p.baseAlpha >= 0.0;
    assert ((s.breathBase + b * s.breathRange) - (s.breathBase - s.breathRange)) * p.baseAlpha >= 0.0;
  }

  /** `a / b` for `0 <= a < b` lies in [0, 1). */
  lemma FractionBelowOne(a: real, b: real)
    requires b > 0.0
    ensures 0.0 <= a < b ==> 0.0 <= a / b < 1.0
  {
    var q := a / b;
    assert q * b == a;
    if 0.0 <= a < b && q >= 1.0 {
      assert false;
    }
  }

  /** Scaling by a factor in (0, 1] keeps a nonnegative value between 0 and itself. */
  lemma ScaleWithin(f: real, b: real)
    requires 0.0 < f <= 1.0 && 0.0 <= b
    ensures 0.0 <= f * b <= b
    ensures 0.0 < b ==> 0.0 < f * b
  {
    assert f * b <= 1.0 * b;
  }

  /** `(1 - dist / distance) * alpha`. */
  function LineAlpha(c: Links, dist: real): real
    requires c.distance > 0.0
  {
    (1.0 - dist / c.distance) * c.alpha
  }

  /** A pair strictly closer than the connection distance gets a line alpha in (0, alpha]. */
  lemma LineAlphaBounds(c: Links, dist: real)
    requires c.distance > 0.0 && 0.0 < c.alpha
    requires 0.0 <= dist < c.distance
    ensures 0.0 < LineAlpha(c, dist) <= c.alpha
  {
    FractionBelowOne(dist, c.distance);
    var f := 1.0 - dist / c.distance;
    ScaleWithin(f, c.alpha);
    assert LineAlpha(c, dist) == f * c.alpha;
  }

  /** The brightening of a line whose midpoint is within `radius` of the pointer. */
  function Boost(c: Links, radius: real, cursorDist: real): real
    requires radius > 0.0
  {
    if cursorDist < radius then (1.0 - cursorDist / radius) * c.boost else 0.0
  }

  /** The boost lies in [0, boost], and is 0 once the midpoint is `radius` or farther from the pointer. */
  lemma BoostBounds(c: Links, radius: real, cursorDist: real)
    requires radius > 0.0 && 0.0 <= c.boost && 0.0 <= cursorDist
    ensures 0.0 <= Boost(c, radius, cursorDist) <= c.boost
    ensures cursorDist >= radius ==> Boost(c, radius, cursorDist) == 0.0
  {
    FractionBelowOne(cursorDist, radius);
    if cursorDist < radius {
      ScaleWithin(1.0 - cursorDist / radius, c.boost);
    }
  }

  /** The separation of a pair. */
  function Gap(a: Particle, b: Particle): Point
  {
    Point(a.x - b.x, a.y - b.y)
  }

  function DistSq(a: Particle, b: Particle): real
  {
    var g := Gap(a, b);
    g.x * g.x + g.y * g.y
  }

  /** The squared connection distance. */
  function MaxDistSq(c: Links): real
  {
    c.distance * c.distance
  }

  /** The constants the connection pass divides by. */
  predicate CanLink(s: Scene, c: Links)
  {
    c.distance > 0.0 && s.cursorRadius > 0.0
  }

  /** The pointer's distance to the midpoint of a pair. */
  function MidpointDist(m: Math, mouse: Point, a: Particle, b: Particle): real
  {
    var mid := Point((a.x + b.x) * 0.5, (a.y + b.y) * 0.5);
    Len(m, Point(mouse.x - mid.x, mouse.y - mid.y))
  }

  /** The stroke alpha of a drawn pair: line alpha plus cursor boost. */
  function StrokeAlpha(s: Scene, c: Links, m: Math, mouse: Point, a: Particle, b: Particle): real
    requires CanLink(s, c)
  {
    LineAlpha(c, Len(m, Gap(a, b))) + Boost(c, s.cursorRadius, MidpointDist(m, mouse, a, b))
  }

  /**
   * The link drawn for the pair (i, j): present exactly when the squared
   * distance is strictly below the squared connection distance.
   */
  function PairLink(s: Scene, c: Links, m: Math, mouse: Point, ps: seq<Particle>, i: nat, j: nat): (r: seq<Link>)
    requires CanLink(s, c) && i < j < |ps|
    ensures |r| <= 1
    ensures |r| == 1 <==> DistSq(ps[i], ps[j]) < MaxDistSq(c)
    ensures forall l :: l in r ==> l.i == i && l.j == j
  {
    if DistSq(ps[i], ps[j]) < MaxDistSq(c) then
      [Link(i, j, StrokeAlpha(s, c, m, mouse, ps[i], ps[j]))]
    else
      []
  }

  /** The links of particle `i` with particles `i+1 .. j-1`, in order. */
  function Row(s: Scene, c: Links, m: Math, mouse: Point, ps: seq<Particle>, i: nat, j: nat): seq<Link>
    requires CanLink(s, c) && i < j <= |ps|
    decreases j
  {
    if j == i + 1 then [] else Row(s, c, m, mouse, ps, i, j - 1) + PairLink(s, c, m, mouse, ps, i, j - 1)
  }

  /** The links of the first `n` rows: every pair (i, j) with i < n and i < j. */
  function Rows(s: Scene, c: Links, m: Math, mouse: Point, ps: seq<Particle>, n: nat): seq<Link>
    requires CanLink(s, c) && n <= |ps|
  {
    if n == 0 then [] else Rows(s, c, m, mouse, ps, n - 1) + Row(s, c, m, mouse, ps, n - 1, |ps|)
  }

  /** All the links of a frame. */
  function AllLinks(s: Scene, c: Links, m: Math, mouse: Point, ps: seq<Particle>): seq<Link>
    requires CanLink(s, c)
  {
    Rows(s, c, m, mouse, ps, |ps|)
  }

  predicate Before(a: Link, b: Link)
  {
    a.i < b.i || (a.i == b.i && a.j < b.j)
  }

  /** Strictly increasing pairs: no pair occurs twice. */
  predicate Ordered(ls: seq<Link>)
  {
    forall x, y :: 0 <= x < y < |ls| ==> Before(ls[x], ls[y])
  }

  /** Two ordered lists, every link of the first before every link of the second, concatenate to an ordered list. */
  lemma ConcatOrdered(a: seq<Link>, b: seq<Link>)
    requires Ordered(a) && Ordered(b)
    requires forall x, y :: x in a && y in b ==> Before(x, y)
    ensures Ordered(a + b)
  {
    var r := a + b;
    forall x, y | 0 <= x < y < |r|
      ensures Before(r[x], r[y])
    {
      if y >= |a| {
        assert r[y] == b[y - |a|];
        if x < |a| {
          assert r[x] in a;
          assert r[y] in b;
        } else {
          assert r[x] == b[x - |a|];
        }
      } else {
        assert r[x] == a[x] && r[y] == a[y];
      }
    }
  }

  /** A link of a row belongs to a close pair of that row and is the one `PairLink` computes. */
  lemma {:induction false} RowSound(s: Scene, c: Links, m: Math, mouse: Point, ps: seq<Particle>, i: nat, j: nat)
    requires CanLink(s, c) && i < j <= |ps|
    ensures forall l :: l in Row(s, c, m, mouse, ps, i, j) ==>
      l.i == i && i < l.j < j && PairLink(s, c, m, mouse, ps, l.i, l.j) == [l]
  {
    if j > i + 1 {
      RowSound(s, c, m, mouse, ps, i, j - 1);
      var r0 := Row(s, c, m, mouse, ps, i, j - 1);
      var e := PairLink(s, c, m, mouse, ps, i, j - 1);
      forall l: Link | l in r0 + e
        ensures l.i == i && i < l.j < j && PairLink(s, c, m, mouse, ps, l.i, l.j) == [l]
      {
        if l !in r0 {
          assert e == [l];
        }
      }
    }
  }

  /** Every link of row `i` belongs to particle `i`. */
  lemma {:induction false} RowIndex(s: Scene, c: Links, m: Math, mouse: Point, ps: seq<Particle>, i: nat, j: nat)
    requires CanLink(s, c) && i < j <= |ps|
    ensures forall l :: l in Row(s, c, m, mouse, ps, i, j) ==> l.i == i
  {
    if j > i + 1 {
      RowIndex(s, c, m, mouse, ps, i, j - 1);
    }
  }

  /** Every link of the first `n` rows belongs to one of the first `n` particles. */
  lemma {:induction false} RowsIndex(s: Scene, c: Links, m: Math, mouse: Point, ps: seq<Particle>, n: nat)
    requires CanLink(s, c) && n <= |ps|
    ensures forall l :: l in Rows(s, c, m, mouse, ps, n) ==> l.i < n
  {
    if n > 0 {
      RowsIndex(s, c, m, mouse, ps, n - 1);
      RowIndex(s, c, m, mouse, ps, n - 1, |ps|);
    }
  }

  lemma {:induction false} RowOrdered(s: Scene, c: Links, m: Math, mouse: Point, ps: seq<Particle>, i: nat, j: nat)
    requires CanLink(s, c) && i < j <= |ps|
    ensures Ordered(Row(s, c, m, mouse, ps, i, j))
  {
    if j > i + 1 {
      RowOrdered(s, c, m, mouse, ps, i, j - 1);
      RowSound(s, c, m, mouse, ps, i, j - 1);
      var r0 := Row(s, c, m, mouse, ps, i, j - 1);
      var e := PairLink(s, c, m, mouse, ps, i, j - 1);
      ConcatOrdered(r0, e);
    }
  }

  lemma {:induction false} RowComplete(s: Scene, c: Links, m: Math, mouse: Point, ps: seq<Particle>, i: nat, j: nat, k: nat)
    requires CanLink(s, c) && i < k < j <= |ps|
    requires DistSq(ps[i], ps[k]) < MaxDistSq(c)
    ensures exists l :: l in Row(s, c, m, mouse, ps, i, j) && l.j == k
  {
    var r0 := Row(s, c, m, mouse, ps, i, j - 1);
    var e := PairLink(s, c, m, mouse, ps, i, j - 1);
    if k == j - 1 {
      assert e[0] in r0 + e;
    } else {
      RowComplete(s, c, m, mouse, ps, i, j - 1, k);
      var l :| l in r0 && l.j == k;
      assert l in r0 + e;
    }
  }

  lemma {:induction false} RowsSound(s: Scene, c: Links, m: Math, mouse: Point, ps: seq<Particle>, n: nat)
    requires CanLink(s, c) && n <= |ps|
    ensures forall l :: l in Rows(s, c, m, mouse, ps, n) ==>
      l.i < n && l.i < l.j < |ps| && PairLink(s, c, m, mouse, ps, l.i, l.j) == [l]
  {
    if n > 0 {
      RowsSound(s, c, m, mouse, ps, n - 1);
      RowSound(s, c, m, mouse, ps, n - 1, |ps|);
      var r0 := Rows(s, c, m, mouse, ps, n - 1);
      var e := Row(s, c, m, mouse, ps, n - 1, |ps|);
      assert forall l :: l in r0 + e ==> l in r0 || l in e;
    }
  }

  lemma {:induction false} RowsOrdered(s: Scene, c: Links, m: Math, mouse: Point, ps: seq<Particle>, n: nat)
    requires CanLink(s, c) && n <= |ps|
    ensures Ordered(Rows(s, c, m, mouse, ps, n))
  {
    if n > 0 {
      RowsOrdered(s, c, m, mouse, ps, n - 1);
      RowsIndex(s, c, m, mouse, ps, n - 1);
      RowOrdered(s, c, m, mouse, ps, n - 1, |ps|);
      RowIndex(s, c, m, mouse, ps, n - 1, |ps|);
      var r0 := Rows(s, c, m, mouse, ps, n - 1);
      var e := Row(s, c, m, mouse, ps, n - 1, |ps|);
      ConcatOrdered(r0, e);
    }
  }

  lemma {:induction false} RowsComplete(s: Scene, c: Links, m: Math, mouse: Point, ps: seq<Particle>, n: nat, i: nat, k: nat)
    requires CanLink(s, c) && n <= |ps| && i < n && i < k < |ps|
    requires DistSq(ps[i], ps[k]) < MaxDistSq(c)
    ensures exists l :: l in Rows(s, c, m, mouse, ps, n) && l.i == i && l.j == k
    decreases n, 0
  {
    var r0 := Rows(s, c, m, mouse, ps, n - 1);
    var e := Row(s, c, m, mouse, ps, n - 1, |ps|);
    assert Rows(s, c, m, mouse, ps, n) == r0 + e;
    var l;
    if i == n - 1 {
      l := LastRowLink(s, c, m, mouse, ps, i, k);
    } else {
      l := EarlierRowLink(s, c, m, mouse, ps, n - 1, i, k);
    }
    assert l in r0 + e;
  }

  /** The link of a close pair in the last row, as a witness. */
  lemma LastRowLink(s: Scene, c: Links, m: Math, mouse: Point, ps: seq<Particle>, i: nat, k: nat) returns (l: Link)
    requires CanLink(s, c) && i < k < |ps|
    requires DistSq(ps[i], ps[k]) < MaxDistSq(c)
    ensures l in Row(s, c, m, mouse, ps, i, |ps|) && l.i == i && l.j == k
  {
    RowComplete(s, c, m, mouse, ps, i, |ps|, k);
    RowIndex(s, c, m, mouse, ps, i, |ps|);
    l :| l in Row(s, c, m, mouse, ps, i, |ps|) && l.j == k;
  }

  /** The link of a close pair in an earlier row, as a witness. */
  lemma EarlierRowLink(s: Scene, c: Links, m: Math, mouse: Point, ps: seq<Particle>, n: nat, i: nat, k: nat) returns (l: Link)
    requires CanLink(s, c) && n <= |ps| && i < n && i < k < |ps|
    requires DistSq(ps[i], ps[k]) < MaxDistSq(c)
    ensures l in Rows(s, c, m, mouse, ps, n) && l.i == i && l.j == k
    decreases n, 1
  {
    RowsComplete(s, c, m, mouse, ps, n, i, k);
    l :| l in Rows(s, c, m, mouse, ps, n) && l.i == i && l.j == k;
  }

  /**
   * The connection pass draws a line for a pair (i, j), i < j, exactly when the
   * squared distance is strictly below the squared connection distance, and
   * examines every unordered pair once: the links come in strictly increasing
   * (i, j) order, so no pair is linked twice.
   */
  lemma LinksExact(s: Scene, c: Links, m: Math, mouse: Point, ps: seq<Particle>, i: nat, j: nat)
    requires CanLink(s, c) && i < j < |ps|
    ensures (exists l :: l in AllLinks(s, c, m, mouse, ps) && l.i == i && l.j == j)
        <==> DistSq(ps[i], ps[j]) < MaxDistSq(c)
    ensures Ordered(AllLinks(s, c, m, mouse, ps))
  {
    RowsSound(s, c, m, mouse, ps, |ps|);
    RowsOrdered(s, c, m, mouse, ps, |ps|);
    if DistSq(ps[i], ps[j]) < MaxDistSq(c) {
      RowsComplete(s, c, m, mouse, ps, |ps|, i, j);
    }
  }

  /** `Math.sqrt` over the reals: the nonnegative root. */
  ghost predicate ExactSqrt(m: Math)
  {
    forall d: Point :: IsLength(d, Len(m, d))
  }

  /**
   * With an exact square root every drawn line has an alpha in
   * (0, alpha + boost]: the line alpha is positive because the distance is
   * strictly below the threshold, and the boost is never negative.
   */
  lemma LinkAlphaBounds(s: Scene, c: Links, m: Math, mouse: Point, ps: seq<Particle>, l: Link)
    requires ExactSqrt(m)
    requires CanLink(s, c) && 0.0 < c.alpha && 0.0 <= c.boost
    requires l in AllLinks(s, c, m, mouse, ps)
    ensures 0.0 < l.alpha <= c.alpha + c.boost
  {
    RowsSound(s, c, m, mouse, ps, |ps|);
    var a := ps[l.i];
    var b := ps[l.j];
    assert PairLink(s, c, m, mouse, ps, l.i, l.j) == [l];
    var g := Gap(a, b);
    var d := Len(m, g);
    assert IsLength(g, d);
    var mid := Point((a.x + b.x) * 0.5, (a.y + b.y) * 0.5);
    assert IsLength(Point(mouse.x - mid.x, mouse.y - mid.y), Len(m, Point(mouse.x - mid.x, mouse.y - mid.y)));
    LineAlphaBounds(c, d);
    BoostBounds(c, s.cursorRadius, MidpointDist(m, mouse, a, b));
  }

  /** The update loop of `animate`: every particle takes one step, in place. */
  method UpdateParticles(a: array<Particle>, s: Scene, m: Math, t: real, mouse: Point)
    modifies a
    ensures forall k :: 0 <= k < a.Length ==> a[k] == Step(s, m, t, mouse, old(a[k]))
  {
    var i := 0;
    while i < a.Length
      invariant 0 <= i <= a.Length
      invariant forall k :: 0 <= k < i ==> a[k] == Step(s, m, t, mouse, old(a[k]))
      invariant forall k :: i <= k < a.Length ==> a[k] == old(a[k])
    {
      a[i] := Step(s, m, t, mouse, a[i]);
      i := i + 1;
    }
  }

  /** The connection loop of `animate`: each pair i < j is examined once, row by row. */
  method Connect(a: array<Particle>, s: Scene, c: Links, m: Math, mouse: Point) returns (links: seq<Link>)
    requires CanLink(s, c)
    ensures links == AllLinks(s, c, m, mouse, a[..])
  {
    links := [];
    var i := 0;
    while i < a.Length
      invariant 0 <= i <= a.Length
      invariant links == Rows(s, c, m, mouse, a[..], i)
    {
      var row := ConnectRow(a, s, c, m, mouse, i);
      links := links + row;
      i := i + 1;
    }
  }

  /**
   * The inner loop of the connection pass: particle `i` against every later
   * particle. The pass only reads the array, so it reads a snapshot of it.
   */
  method ConnectRow(a: array<Particle>, s: Scene, c: Links, m: Math, mouse: Point, i: nat) returns (row: seq<Link>)
    requires CanLink(s, c) && i < a.Length
    ensures row == Row(s, c, m, mouse, a[..], i, a.Length)
  {
    var ps := a[..];
    var maxDistSq := MaxDistSq(c);
    row := [];
    var j := i + 1;
    while j < |ps|
      invariant i < j <= |ps|
      invariant row == Row(s, c, m, mouse, ps, i, j)
    {
      var p := ps[i];
      var q := ps[j];
      if DistSq(p, q) < maxDistSq {
        row := row + [Link(i, j, StrokeAlpha(s, c, m, mouse, p, q))];
      }
      j := j + 1;
    }
  }

  /** The refs of one drifting-particle canvas component. */
  class Field {
    const scene: Scene
    /** Where the pointer is parked when it leaves the canvas. */
    const sentinel: Point
    var particles: array<Particle>
    var mouse: Point
    var lastTime: real
    var elapsed: real
    /** Whether an animation frame is pending. */
    var frameRequested: bool
    /** The canvas context's `globalAlpha` after the last frame. */
    var globalAlpha: real

    constructor (scene: Scene, sentinel: Point)
      ensures this.scene == scene && this.sentinel == sentinel
      ensures mouse == sentinel && lastTime == 0.0 && elapsed == 0.0
      ensures particles.Length == 0 && !frameRequested && globalAlpha == 1.0
    {
      this.scene := scene;
      this.sentinel := sentinel;
      particles := new Particle[0];
      mouse := sentinel;
      lastTime := 0.0;
      elapsed := 0.0;
      frameRequested := false;
      globalAlpha := 1.0;
    }

    /** `handleResize`: the particle list is replaced wholesale by a freshly built one. */
    method Replace(ps: seq<Particle>)
      modifies this
      ensures fresh(particles) && particles[..] == ps
      ensures mouse == old(mouse) && lastTime == old(lastTime) && elapsed == old(elapsed)
      ensures frameRequested == old(frameRequested) && globalAlpha == old(globalAlpha)
    {
      particles := new Particle[|ps|](k requires 0 <= k < |ps| => ps[k]);
    }

    /** The mount effect after its `handleResize`: stamp the clock and request the first frame. */
    method Start(now: real)
      modifies this
      ensures lastTime == now && frameRequested
      ensures particles == old(particles) && mouse == old(mouse) && elapsed == old(elapsed)
      ensures globalAlpha == old(globalAlpha)
    {
      lastTime := now;
      frameRequested := true;
    }

    /** The effect cleanup: the pending frame is cancelled. */
    method Stop()
      modifies this
      ensures !frameRequested
      ensures particles == old(particles) && mouse == old(mouse) && lastTime == old(lastTime)
      ensures elapsed == old(elapsed) && globalAlpha == old(globalAlpha)
    {
      frameRequested := false;
    }

    /** `handleMouseMove`: the pointer in canvas coordinates (ignored without a canvas). */
    method MouseMove(clientX: real, clientY: real, left: real, top: real, hasCanvas: bool)
      modifies this
      ensures mouse == (if hasCanvas then Point(clientX - left, clientY - top) else old(mouse))
      ensures particles == old(particles) && lastTime == old(lastTime) && elapsed == old(elapsed)
      ensures frameRequested == old(frameRequested) && globalAlpha == old(globalAlpha)
    {
      if hasCanvas {
        mouse := Point(clientX - left, clientY - top);
      }
    }

    /** `handleMouseLeave`: the pointer is parked at the sentinel. */
    method MouseLeave()
      modifies this
      ensures mouse == sentinel
      ensures particles == old(particles) && lastTime == old(lastTime) && elapsed == old(elapsed)
      ensures frameRequested == old(frameRequested) && globalAlpha == old(globalAlpha)
    {
      mouse := sentinel;
    }

    /**
     * One animation frame. Without a canvas or a context it returns before
     * requesting the next frame, so the loop stops. Otherwise the clock advances
     * by the clamped delta, every particle steps at the new elapsed time, the
     * connection pass runs over the updated particles, `globalAlpha` is reset
     * to 1 and the next frame is requested.
     */
    method Animate(timestamp: real, hasCanvas: bool, hasContext: bool, m: Math) returns (links: seq<Link>)
      requires scene.links.Some? ==> CanLink(scene, scene.links.value)
      modifies this, particles
      ensures particles == old(particles) && mouse == old(mouse)
      ensures !(hasCanvas && hasContext) ==>
        && unchanged(particles) && links == [] && !frameRequested
        && lastTime == old(lastTime) && elapsed == old(elapsed) && globalAlpha == old(globalAlpha)
      ensures hasCanvas && hasContext ==>
        && lastTime == timestamp
        && elapsed == old(elapsed) + FrameDelta(timestamp, old(lastTime))
        && (forall k :: 0 <= k < particles.Length ==>
              particles[k] == Step(scene, m, elapsed, mouse, old(particles[k])))
        && links == (if scene.links.Some? then AllLinks(scene, scene.links.value, m, mouse, particles[..]) else [])
        && globalAlpha == 1.0 && frameRequested
    {
      frameRequested := false;
      links := [];
      if !hasCanvas || !hasContext {
        return;
      }
      var dt := FrameDelta(timestamp, lastTime);
      lastTime := timestamp;
      elapsed := elapsed + dt;
      UpdateParticles(particles, scene, m, elapsed, mouse);
      if scene.links.Some? {
        links := Connect(particles, scene, scene.links.value, m, mouse);
      }
      globalAlpha := 1.0;
      frameRequested := true;
    }
  }
}
