/**
 * The custom cursor (src/components/ui/CursorFollower.tsx): a dot drawn at
 * the pointer and a ring that eases towards it, a fixed fraction of the
 * remaining distance per animation frame. Both start off screen at
 * (-100, -100); without a fine pointer nothing is installed.
 */
module CursorFollower {
  import opened Wrappers
  import opened JsMath

  datatype Props = Props(ringSize: real, dotSize: real, lag: real)

  /** The props' defaults. */
  const DefaultProps := Props(28.0, 6.0, 0.15)

  /** The ring's width while the pointer is over an interactive element. */
  const HoverRingSize: real := 48.0

  /** Where the ring and the dot are translated to. */
  datatype Placement = Placement(ringX: real, ringY: real, dotX: real, dotY: real)

  /** One lerp step: `p += (t - p) * lag`. */
  function Lerp(p: real, t: real, lag: real): (q: real)
    ensures lag == 0.0 ==> q == p
    ensures lag == 1.0 ==> q == t
  {
    p + (t - p) * lag
  }

  /** A step scales the gap to the target by `1 - lag`. */
  lemma LerpGap(p: real, t: real, lag: real)
    ensures t - Lerp(p, t, lag) == (1.0 - lag) * (t - p)
  {
  }

  function Abs(x: real): real
  {
    if x < 0.0 then -x else x
  }

  /** For a lag in (0, 1] a step never moves away from the target; a lag of 1 lands on it. */
  lemma LerpContracts(p: real, t: real, lag: real)
    requires 0.0 < lag <= 1.0
    ensures Abs(t - Lerp(p, t, lag)) == (1.0 - lag) * Abs(t - p) <= Abs(t - p)
    ensures lag == 1.0 ==> Lerp(p, t, lag) == t
    ensures lag < 1.0 && p != t ==> Abs(t - Lerp(p, t, lag)) < Abs(t - p)
  {
    var k := 1.0 - lag;
    var d := t - p;
    LerpGap(p, t, lag);
    assert t - Lerp(p, t, lag) == k * d;
    Shrink(k, d);
    assert k == 0.0 ==> k * d == 0.0;
  }

  /** Scaling by `k` in [0, 1) keeps the sign and, for a non-zero value, shrinks it. */
  lemma Shrink(k: real, d: real)
    requires 0.0 <= k <= 1.0
    ensures Abs(k * d) == k * Abs(d) <= Abs(d)
    ensures k < 1.0 && d != 0.0 ==> k * Abs(d) < Abs(d)
  {
    var e := Abs(d);
    NonNegativeProduct(k, e);
    NonNegativeProduct(1.0 - k, e);
    if k < 1.0 && d != 0.0 {
      PosProduct(1.0 - k, e);
    }
    assert k * d == if d >= 0.0 then k * e else -(k * e);
  }

  lemma PosProduct(a: real, b: real)
    requires a > 0.0 && b > 0.0
    ensures a * b > 0.0
  {
  }

  function Pow(b: real, n: nat): real
  {
    if n == 0 then 1.0 else b * Pow(b, n - 1)
  }

  /** `n` frames towards a fixed target. */
  function LerpN(p: real, t: real, lag: real, n: nat): real
  {
    if n == 0 then p else Lerp(LerpN(p, t, lag, n - 1), t, lag)
  }

  /** After `n` frames towards a fixed target the gap is `(1 - lag)^n` of the first. */
  lemma {:induction false} LerpNGap(p: real, t: real, lag: real, n: nat)
    ensures t - LerpN(p, t, lag, n) == Pow(1.0 - lag, n) * (t - p)
  {
    if n > 0 {
      LerpNGap(p, t, lag, n - 1);
      LerpGap(LerpN(p, t, lag, n - 1), t, lag);
      GapStep(t - p, t - LerpN(p, t, lag, n - 1), t - LerpN(p, t, lag, n),
              1.0 - lag, Pow(1.0 - lag, n - 1), Pow(1.0 - lag, n));
    }
  }

  /**
   * One more frame: a gap `y` of `g` times the first gap `e` becomes
   * `x == b * y`, which is `b * g` times the first gap.
   */
  lemma GapStep(e: real, y: real, x: real, b: real, g: real, bg: real)
    requires y == g * e && x == b * y && bg == b * g
    ensures x == bg * e
  {
    assert b * (g * e) == (b * g) * e;
  }

  /** The ring's width: 48 while hovering an interactive element, the prop otherwise. */
  function RingWidth(props: Props, hovering: bool): (w: real)
    ensures hovering ==> w == HoverRingSize
    ensures !hovering ==> w == props.ringSize
  {
    if hovering then HoverRingSize else props.ringSize
  }

  /** The placement for an eased position and a target: the ring offset by half its prop size, the dot centred on the target. */
  function Place(props: Props, posX: real, posY: real, targetX: real, targetY: real): (pl: Placement)
    ensures pl.dotX + props.dotSize / 2.0 == targetX && pl.dotY + props.dotSize / 2.0 == targetY
    ensures pl.ringX + props.ringSize / 2.0 == posX && pl.ringY + props.ringSize / 2.0 == posY
  {
    Placement(posX - props.ringSize / 2.0, posY - props.ringSize / 2.0,
              targetX - props.dotSize / 2.0, targetY - props.dotSize / 2.0)
  }

  /**
   * The ring's centre: on the eased position at its normal size, but off by
   * half the growth to 48 while hovering, since the offset stays half the
   * prop size: 10 pixels right and down with the defaults.
   */
  lemma RingCentre(props: Props, hovering: bool, posX: real, posY: real, targetX: real, targetY: real)
    ensures var pl := Place(props, posX, posY, targetX, targetY);
            var half := RingWidth(props, hovering) / 2.0;
            pl.ringX + half == posX + (RingWidth(props, hovering) - props.ringSize) / 2.0
            && (!hovering ==> pl.ringX + half == posX && pl.ringY + half == posY)
    ensures hovering && props == DefaultProps ==>
              Place(props, posX, posY, targetX, targetY).ringX + HoverRingSize / 2.0 == posX + 10.0
  {
  }

  /** One mounted cursor: the two refs' positions, the hover and visibility flags and what was last drawn. */
  class Follower {
    const props: Props
    var posX: real
    var posY: real
    var targetX: real
    var targetY: real
    var hovering: bool
    var visible: bool
    var installed: bool
    var placement: Option<Placement>

    constructor (props: Props)
      ensures this.props == props
      ensures posX == posY == targetX == targetY == -100.0
      ensures !hovering && !visible && !installed && placement.None?
    {
      this.props := props;
      posX, posY, targetX, targetY := -100.0, -100.0, -100.0, -100.0;
      hovering, visible, installed := false, false, false;
      placement := None;
    }

    /** The effect: listeners and the frame loop are installed only for a fine pointer. */
    method Mount(finePointer: bool)
      modifies this
      ensures installed == finePointer
      ensures posX == old(posX) && posY == old(posY) && targetX == old(targetX) && targetY == old(targetY)
      ensures hovering == old(hovering) && visible == old(visible) && placement == old(placement)
    {
      installed := finePointer;
    }

    /** A pointer move: both window listeners run, setting the target, showing the cursor and the hover flag. */
    method MouseMove(x: real, y: real, interactive: bool)
      modifies this
      ensures old(installed) ==> targetX == x && targetY == y && visible && hovering == interactive
      ensures !old(installed) ==> targetX == old(targetX) && targetY == old(targetY)
                                  && visible == old(visible) && hovering == old(hovering)
      ensures posX == old(posX) && posY == old(posY) && placement == old(placement) && installed == old(installed)
    {
      if installed {
        targetX, targetY := x, y;
        visible := true;
        hovering := interactive;
      }
    }

    /** The pointer enters or leaves the document. */
    method EnterLeave(entered: bool)
      modifies this
      ensures visible == if old(installed) then entered else old(visible)
      ensures posX == old(posX) && posY == old(posY) && targetX == old(targetX) && targetY == old(targetY)
      ensures hovering == old(hovering) && placement == old(placement) && installed == old(installed)
    {
      if installed {
        visible := entered;
      }
    }

    /** One animation frame: with both elements present, the position eases and both are placed. */
    method Frame(elements: bool)
      modifies this
      ensures old(installed) && elements ==>
                posX == Lerp(old(posX), targetX, props.lag) && posY == Lerp(old(posY), targetY, props.lag)
                && placement == Some(Place(props, posX, posY, targetX, targetY))
      ensures !(old(installed) && elements) ==> posX == old(posX) && posY == old(posY) && placement == old(placement)
      ensures targetX == old(targetX) && targetY == old(targetY)
      ensures hovering == old(hovering) && visible == old(visible) && installed == old(installed)
    {
      if installed && elements {
        posX := posX + (targetX - posX) * props.lag;
        posY := posY + (targetY - posY) * props.lag;
        placement := Some(Place(props, posX, posY, targetX, targetY));
      }
    }

    /** `n` frames without pointer events: the ring closes `(1 - lag)^n` of the gap on each axis. */
    method Frames(n: nat)
      requires installed
      modifies this
      ensures posX == LerpN(old(posX), targetX, props.lag, n) && posY == LerpN(old(posY), targetY, props.lag, n)
      ensures targetX - posX == Pow(1.0 - props.lag, n) * (targetX - old(posX))
      ensures targetX == old(targetX) && targetY == old(targetY) && installed
    {
      var i := 0;
      while i < n
        invariant 0 <= i <= n && installed
        invariant targetX == old(targetX) && targetY == old(targetY)
        invariant posX == LerpN(old(posX), targetX, props.lag, i)
        invariant posY == LerpN(old(posY), targetY, props.lag, i)
      {
        Frame(true);
        i := i + 1;
      }
      LerpNGap(old(posX), targetX, props.lag, n);
    }

    /** The cleanup: listeners removed and the frame cancelled. */
    method Unmount()
      modifies this
      ensures !installed
      ensures posX == old(posX) && posY == old(posY) && targetX == old(targetX) && targetY == old(targetY)
      ensures hovering == old(hovering) && visible == old(visible) && placement == old(placement)
    {
      installed := false;
    }
  }
}
