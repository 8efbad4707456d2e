/**
 * The lab card's hover tilt (src/components/ui/LabCard.tsx): the pointer's
 * offset from the card's centre tilts it by up to 8 degrees about each axis
 * and moves a glow under the pointer; leaving the card drops the tilt and
 * hides the glow.
 */
module LabCard {
  import opened Wrappers

  /** The card's bounding box in client coordinates. */
  datatype Rect = Rect(left: real, top: real, width: real, height: real)

  /** The tilt written into the card's transform, in degrees. */
  datatype Tilt = Tilt(rotateX: real, rotateY: real)

  /** The largest tilt, in degrees. */
  const MaxTilt: real := 8.0

  /**
   * The tilt for a pointer at `(x, y)` relative to the card's top-left
   * corner: `((x - cx) / cx) * 8` about the vertical axis and
   * `((cy - y) / cy) * 8` about the horizontal one, `(cx, cy)` being the
   * centre. Each tilt is the pointer's offset from the centre in units of
   * half the card, times 8.
   */
  function TiltAt(x: real, y: real, width: real, height: real): (t: Tilt)
    requires width > 0.0 && height > 0.0
    ensures t.rotateY * (width / 2.0) == (x - width / 2.0) * MaxTilt
    ensures t.rotateX * (height / 2.0) == (height / 2.0 - y) * MaxTilt
  {
    var cx := width / 2.0;
    var cy := height / 2.0;
    var ry := ((x - cx) / cx) * MaxTilt;
    var rx := ((cy - y) / cy) * MaxTilt;
    Scaled(x - cx, cx);
    Scaled(cy - y, cy);
    assert ry * cx == (x - cx) * MaxTilt;
    Tilt(rx, ry)
  }

  lemma Scaled(d: real, c: real)
    requires c > 0.0
    ensures (d / c) * MaxTilt * c == d * MaxTilt
  {
    assert (d / c) * c == d;
  }

  /** A quotient whose product with a positive `c` lies in [-c, c] lies in [-1, 1]. */
  lemma UnitBound(r: real, c: real)
    requires c > 0.0 && -c <= r * c <= c
    ensures -1.0 <= r <= 1.0
  {
    assert r > 1.0 ==> (r - 1.0) * c > 0.0;
    assert r < -1.0 ==> (r + 1.0) * c < 0.0;
  }

  /** A pointer inside the card tilts it by at most 8 degrees about each axis. */
  lemma TiltBounded(x: real, y: real, width: real, height: real)
    requires width > 0.0 && height > 0.0
    requires 0.0 <= x <= width && 0.0 <= y <= height
    ensures -MaxTilt <= TiltAt(x, y, width, height).rotateY <= MaxTilt
    ensures -MaxTilt <= TiltAt(x, y, width, height).rotateX <= MaxTilt
  {
    var cx, cy := width / 2.0, height / 2.0;
    var ry, rx := (x - cx) / cx, (cy - y) / cy;
    assert ry * cx == x - cx && rx * cy == cy - y;
    UnitBound(ry, cx);
    UnitBound(rx, cy);
  }

  /**
   * The centre leaves the card flat; right of the centre it turns towards
   * positive `rotateY`, above the centre towards positive `rotateX`, and the
   * top-right corner reaches the full 8 degrees on both axes.
   */
  lemma TiltDirections(x: real, y: real, width: real, height: real)
    requires width > 0.0 && height > 0.0
    ensures TiltAt(width / 2.0, height / 2.0, width, height) == Tilt(0.0, 0.0)
    ensures x > width / 2.0 <==> TiltAt(x, y, width, height).rotateY > 0.0
    ensures y < height / 2.0 <==> TiltAt(x, y, width, height).rotateX > 0.0
    ensures TiltAt(width, 0.0, width, height) == Tilt(MaxTilt, MaxTilt)
  {
    var t := TiltAt(x, y, width, height);
    SignOf(t.rotateY, width / 2.0);
    SignOf(t.rotateX, height / 2.0);
    var c := TiltAt(width, 0.0, width, height);
    Cancel(c.rotateY, MaxTilt, width / 2.0);
    Cancel(c.rotateX, MaxTilt, height / 2.0);
    var z := TiltAt(width / 2.0, height / 2.0, width, height);
    Cancel(z.rotateY, 0.0, width / 2.0);
    Cancel(z.rotateX, 0.0, height / 2.0);
  }

  lemma SignOf(r: real, c: real)
    requires c > 0.0
    ensures r > 0.0 <==> r * c > 0.0
  {
    assert r > 0.0 ==> r * c > 0.0;
    assert r <= 0.0 ==> r * c <= 0.0;
  }

  lemma Cancel(r: real, v: real, c: real)
    requires c > 0.0 && r * c == v * c
    ensures r == v
  {
    assert (r - v) * c == 0.0;
    assert r > v ==> (r - v) * c > 0.0;
    assert r < v ==> (r - v) * c < 0.0;
  }

  /** What the handlers write: the card's transform (none is '') and the glow's opacity and centre. */
  datatype Look = Look(transform: Option<Tilt>, glowOpacity: real, glowAt: Option<(real, real)>)

  /** The card as rendered: no transform, the glow hidden. */
  const Rendered := Look(None, 0.0, None)

  /** `handleMouseMove`: the tilt for the pointer's place in the box, the glow shown under the pointer. */
  function AfterMove(l: Look, clientX: real, clientY: real, rect: Rect): (k: Look)
    requires rect.width > 0.0 && rect.height > 0.0
    ensures k.glowOpacity == 1.0 && k.glowAt == Some((clientX - rect.left, clientY - rect.top))
    ensures k.transform == Some(TiltAt(clientX - rect.left, clientY - rect.top, rect.width, rect.height))
  {
    var x := clientX - rect.left;
    var y := clientY - rect.top;
    Look(Some(TiltAt(x, y, rect.width, rect.height)), 1.0, Some((x, y)))
  }

  /** `handleMouseLeave`: the transform cleared and the glow hidden; its centre is kept. */
  function AfterLeave(l: Look): (k: Look)
    ensures k.transform.None? && k.glowOpacity == 0.0 && k.glowAt == l.glowAt
  {
    l.(transform := None, glowOpacity := 0.0)
  }

  /** Leaving undoes any sequence of moves, up to the glow's hidden centre. */
  lemma LeaveRestores(l: Look, clientX: real, clientY: real, rect: Rect)
    requires rect.width > 0.0 && rect.height > 0.0
    ensures AfterLeave(AfterMove(l, clientX, clientY, rect)).(glowAt := None) == Rendered
    ensures AfterLeave(AfterLeave(l)) == AfterLeave(l)
  {
  }

  /** One card: the styles its handlers write, once its elements are attached. */
  class Card {
    var attached: bool
    var transform: Option<Tilt>
    var glowOpacity: real
    var glowAt: Option<(real, real)>

    function Current(): Look
      reads this
    {
      Look(transform, glowOpacity, glowAt)
    }

    constructor ()
      ensures Current() == Rendered && !attached
    {
      attached := false;
      transform, glowOpacity, glowAt := None, 0.0, None;
    }

    /** React attaches the card and glow elements to their refs. */
    method Attach()
      modifies this
      ensures attached && Current() == old(Current())
    {
      attached := true;
    }

    /** The pointer moves over the card; before the refs are attached nothing is written. */
    method MouseMove(clientX: real, clientY: real, rect: Rect)
      requires rect.width > 0.0 && rect.height > 0.0
      modifies this
      ensures attached == old(attached)
      ensures attached ==> Current() == AfterMove(old(Current()), clientX, clientY, rect)
      ensures !attached ==> Current() == old(Current())
    {
      if !attached {
        return;
      }
      var x := clientX - rect.left;
      var y := clientY - rect.top;
      transform := Some(TiltAt(x, y, rect.width, rect.height));
      glowOpacity := 1.0;
      glowAt := Some((x, y));
    }

    method MouseLeave()
      modifies this
      ensures attached == old(attached)
      ensures attached ==> Current() == AfterLeave(old(Current()))
      ensures !attached ==> Current() == old(Current())
    {
      if !attached {
        return;
      }
      transform := None;
      glowOpacity := 0.0;
    }
  }
}
