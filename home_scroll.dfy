/**
 * The home page's scroll tracking (src/app/page.tsx): the scroll offset and
 * the window height decide which of the six sections the scroll dots mark as
 * active.
 */
module HomeScroll {
  /** The ids of the page's sections, in order: the dots' `SECTIONS`. */
  const Sections: seq<string> := ["hero", "lab", "arena", "shadow", "ai-tools", "finale"]

  /** The offsets `handleScroll` computes from the window height. */
  datatype Marks = Marks(
    heroEnd: real, iconWaveEnd: real, labEnd: real, arenaStart: real,
    shadowStart: real, aiToolsStart: real, finaleStart: real)

  /**
   * The marks for window height `h`: the hero takes one screen, the icon wave
   * 0.6 of one and the lab three, and the arena, shadow and AI-tools sections
   * one each.
   */
  function MarksFor(h: real): (m: Marks)
    ensures m.heroEnd == h && m.labEnd == 4.6 * h && m.shadowStart == 5.6 * h
    ensures m.aiToolsStart == 6.6 * h && m.finaleStart == 7.6 * h
    ensures m.labEnd - m.iconWaveEnd == 3.0 * h && m.arenaStart == m.labEnd
  {
    var heroEnd := h;
    var iconWaveEnd := heroEnd + h * 0.6;
    var labEnd := iconWaveEnd + h * 3.0;
    var arenaStart := labEnd;
    var shadowStart := arenaStart + h;
    var aiToolsStart := shadowStart + h;
    var finaleStart := aiToolsStart + h;
    Marks(heroEnd, iconWaveEnd, labEnd, arenaStart, shadowStart, aiToolsStart, finaleStart)
  }

  /** `handleScroll`: the index of the active section. */
  function ActiveSection(scrollY: real, h: real): (i: int)
    ensures 0 <= i < |Sections|
    ensures scrollY < h ==> i == 0
  {
    var m := MarksFor(h);
    if scrollY < m.heroEnd then 0
    else if scrollY < m.labEnd then 1
    else if scrollY < m.shadowStart then 2
    else if scrollY < m.aiToolsStart then 3
    else if scrollY < m.finaleStart then 4
    else 5
  }

  /** The number of section starts (1, 4.6, 5.6, 6.6 and 7.6 screens down) at or above the scroll offset. */
  function Passed(scrollY: real, h: real): (n: int)
    ensures 0 <= n <= 5
    ensures h >= 0.0 && scrollY < h ==> n == 0
    ensures h >= 0.0 && scrollY >= 7.6 * h ==> n == 5
  {
    (if scrollY >= h then 1 else 0) + (if scrollY >= 4.6 * h then 1 else 0)
    + (if scrollY >= 5.6 * h then 1 else 0) + (if scrollY >= 6.6 * h then 1 else 0)
    + (if scrollY >= 7.6 * h then 1 else 0)
  }

  /** For a window of non-negative height, the active section is the number of section starts scrolled past. */
  lemma ActiveCountsStarts(scrollY: real, h: real)
    requires h >= 0.0
    ensures ActiveSection(scrollY, h) == Passed(scrollY, h)
  {
    var m := MarksFor(h);
    assert h <= 4.6 * h <= 5.6 * h <= 6.6 * h <= 7.6 * h;
  }

  /** Scrolling further down never moves the active section up. */
  lemma ActiveMonotone(y1: real, y2: real, h: real)
    requires h >= 0.0 && y1 <= y2
    ensures ActiveSection(y1, h) <= ActiveSection(y2, h)
  {
    ActiveCountsStarts(y1, h);
    ActiveCountsStarts(y2, h);
  }

  /** The icon wave below the hero counts as the lab: the lab's dot is active from one screen down to 4.6. */
  lemma IconWaveMarksLab(scrollY: real, h: real)
    requires h > 0.0 && h <= scrollY < 4.6 * h
    ensures Sections[ActiveSection(scrollY, h)] == "lab"
  {
  }
}
