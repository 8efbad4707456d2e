/**
 * The width-scaled element count shared by every seeded field builder:
 * `Math.floor(base * Math.max(0.35, Math.min(1, width / 1920)))`.
 */
module FieldScale {

  /** The full-size width: at this width or wider a field has its full count. */
  const FullWidth: real := 1920.0

  /** The smallest multiplier: narrow (and zero-width) viewports keep 35% of the elements. */
  const MinMultiplier: real := 0.35

  /** `Math.max(0.35, Math.min(1, width / 1920))`. */
  function Multiplier(width: real): (m: real)
    ensures MinMultiplier <= m <= 1.0
    ensures width >= FullWidth ==> m == 1.0
    ensures width <= FullWidth * MinMultiplier ==> m == MinMultiplier
  {
    var ratio := width / FullWidth;
    var capped := if 1.0 < ratio then 1.0 else ratio;
    if MinMultiplier < capped then capped else MinMultiplier
  }

  /** `Math.floor(base * multiplier)`. */
  function ScaledCount(base: nat, width: real): (n: int)
    ensures width >= FullWidth ==> n == base
    // narrow viewports, a zero-width one included, still get floor(base * 0.35)
    // elements: there is no empty-field rule
    ensures width <= FullWidth * MinMultiplier ==> n == (base as real * MinMultiplier).Floor
  {
    (base as real * Multiplier(width)).Floor
  }

  lemma FloorMonotone(a: real, b: real)
    requires a <= b
    ensures a.Floor <= b.Floor
  {
  }

  lemma MultiplierMonotone(w1: real, w2: real)
    requires w1 <= w2
    ensures Multiplier(w1) <= Multiplier(w2)
  {
    assert w1 / FullWidth <= w2 / FullWidth;
  }

  /** The count lies between `floor(base * 0.35)` and `base`, both included. */
  lemma CountBounds(base: nat, width: real)
    ensures (base as real * MinMultiplier).Floor <= ScaledCount(base, width) <= base
  {
    var m := Multiplier(width);
    ScaleMonotone(base as real, MinMultiplier, m);
    FloorMonotone(base as real * MinMultiplier, base as real * m);
    ScaleMonotone(base as real, m, 1.0);
    FloorMonotone(base as real * m, base as real * 1.0);
  }

  /** A wider viewport never gets fewer elements. */
  lemma CountMonotone(base: nat, w1: real, w2: real)
    requires w1 <= w2
    ensures ScaledCount(base, w1) <= ScaledCount(base, w2)
  {
    MultiplierMonotone(w1, w2);
    ScaleMonotone(base as real, Multiplier(w1), Multiplier(w2));
    FloorMonotone(base as real * Multiplier(w1), base as real * Multiplier(w2));
  }

  /** Scaling by a non-negative factor keeps the order. */
  lemma ScaleMonotone(c: real, a: real, b: real)
    requires 0.0 <= c && a <= b
    ensures c * a <= c * b
  {
    var d := b - a;
    assert c * b == c * a + c * d;
  }
}
