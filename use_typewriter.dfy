/**
 * The two hooks of src/hooks/useTypewriter.ts. `useTypewriter`'s `typeText`
 * is an async loop over lines and characters, guarded by a ref; its waits are
 * awaited timers, so here one call runs to its end. `useAutoTypewriter` is a
 * chain of timer callbacks over closure variables, modelled like the
 * component's typing effect: `AutoStep` is one callback firing. The draws of
 * `Math.random()` are inputs.
 */
module UseTypewriter {
  import opened Wrappers
  import opened JsString
  import opened TypoMap
  import opened TypewriterText

  /** The hooks' options. */
  datatype Options = Options(
    minDelay: int, maxDelay: int, typoChance: real, pauseOnPunctuation: bool, punctuationPause: int)

  /** `DEFAULT_OPTIONS`. */
  const DefaultOptions := Options(40, 120, 0.03, true, 400)

  /**
   * `getTypo`: a typo for `c` when its lower case has an entry in the map and
   * the roll is under the typo chance. Nothing here looks at the position of
   * `c` in its line.
   */
  function GetTypo(c: char, opts: Options, roll: real, pick: real): (t: Option<char>)
    requires 0.0 <= pick < 1.0
    ensures t.Some? <==> HasEntry(Lower(c)) && roll < opts.typoChance
    ensures t.Some? ==> t.value != c
  {
    TypoDiffers(c, pick);
    if HasEntry(Lower(c)) && roll < opts.typoChance then TypoFor(c, pick) else None
  }

  /** With the default options, the first character of a line can come out as a typo: 'a' as 's'. */
  lemma FirstCharMaySlip()
    ensures GetTypo('a', DefaultOptions, 0.0, 0.0) == Some('s')
  {
  }

  /** The characters `typeText` pauses after. */
  const PauseList: seq<string> := [".", ",", "!", "?", "..."]

  predicate Pauses(c: char)
  {
    [c] in PauseList
  }

  /** "..." never equals a single character, so the pause follows exactly '.', ',', '!' and '?'. */
  lemma PausesOnFourChars(c: char)
    ensures Pauses(c) <==> c in ".,!?"
  {
    assert |PauseList[4]| == 3;
  }

  /** What line `i` adds to the display: nothing when empty, otherwise a "\n" before every line but the first, then the line. */
  function LineText(lines: seq<string>, i: nat): string
    requires i < |lines|
  {
    if |lines[i]| == 0 then "" else Sep(i) + lines[i]
  }

  /** What `typeText` appends for the first `k` lines. */
  function TypedLines(lines: seq<string>, k: nat): string
    requires k <= |lines|
  {
    if k == 0 then "" else TypedLines(lines, k - 1) + LineText(lines, k - 1)
  }

  /** The display after the first `k` lines are typed onto `base`, one line at a time. */
  function ShownAfter(base: string, lines: seq<string>, k: nat): string
    requires k <= |lines|
  {
    if k == 0 then base else ShownAfter(base, lines, k - 1) + LineText(lines, k - 1)
  }

  /** Typing the lines one at a time onto `base` appends what `typeText` types. */
  lemma {:induction false} ShownAfterAppends(base: string, lines: seq<string>, k: nat)
    requires k <= |lines|
    ensures ShownAfter(base, lines, k) == base + TypedLines(lines, k)
  {
    if k > 0 {
      ShownAfterAppends(base, lines, k - 1);
      assert base + (TypedLines(lines, k - 1) + LineText(lines, k - 1))
          == base + TypedLines(lines, k - 1) + LineText(lines, k - 1);
    }
  }

  /** What one uninterrupted `typeText` appends to the display. */
  function HookText(lines: seq<string>): string
  {
    TypedLines(lines, |lines|)
  }

  /** When no line after the first is empty, the first `k` lines are shown joined with "\n". */
  lemma {:induction false} TypedLinesJoin(lines: seq<string>, k: nat)
    requires k <= |lines| && forall i :: 0 < i < |lines| ==> |lines[i]| > 0
    ensures TypedLines(lines, k) == Join(lines[..k])
  {
    if k > 0 {
      TypedLinesJoin(lines, k - 1);
      JoinSnoc(lines, k - 1);
    }
  }

  /** When no line after the first is empty, `typeText` shows the lines joined with "\n". */
  lemma HookTextJoins(lines: seq<string>)
    requires forall i :: 0 < i < |lines| ==> |lines[i]| > 0
    ensures HookText(lines) == Join(lines)
  {
    TypedLinesJoin(lines, |lines|);
    assert lines[..|lines|] == lines;
  }

  /** An empty later line loses its "\n": ["a", "", "b"] shows "a\nb", not "a\n\nb". */
  lemma EmptyLineDropsNewline()
    ensures HookText(["a", "", "b"]) == "a\nb"
    ensures Join(["a", "", "b"]) == "a\n\nb"
  {
    var ls := ["a", "", "b"];
    assert TypedLines(ls, 1) == "a";
    assert TypedLines(ls, 2) == "a";
    assert ls[..2] == ["a", ""] && ls[..2][..1] == ["a"];
  }

  /** The state `useTypewriter` keeps: the four state fields and the typing ref. */
  class Hook {
    var display: string
    var isTyping: bool
    var isComplete: bool
    var currentLineIndex: nat
    var typingRef: bool

    constructor ()
      ensures display == "" && !isTyping && !isComplete && currentLineIndex == 0 && !typingRef
    {
      display, isTyping, isComplete, currentLineIndex, typingRef := "", false, false, 0, false;
    }

    /**
     * `typeText`: a call while a run is under way returns at once. Otherwise
     * each character is typed (or its typo, which is then erased and
     * corrected), with "\n" before the first character of every later line,
     * and the run ends complete.
     */
    method TypeText(lines: seq<string>, opts: Options, draws: (nat, nat) -> Draws) returns (ran: bool)
      requires forall i, j :: DrawsValid(draws(i, j))
      modifies this
      ensures ran == !old(typingRef)
      ensures !ran ==> unchanged(this)
      ensures ran ==> display == old(display) + HookText(lines) && !isTyping && isComplete && !typingRef
      ensures ran ==> currentLineIndex == if |lines| == 0 then old(currentLineIndex) else |lines| - 1
    {
      if typingRef {
        return false;
      }
      typingRef := true;
      isTyping := true;
      TypeLines(lines, opts, draws);
      isTyping, isComplete, typingRef := false, true, false;
      ran := true;
    }

    /** The outer loop of `typeText`: every line in turn. */
    method TypeLines(lines: seq<string>, opts: Options, draws: (nat, nat) -> Draws)
      requires forall i, j :: DrawsValid(draws(i, j))
      modifies this
      ensures display == old(display) + HookText(lines)
      ensures currentLineIndex == if |lines| == 0 then old(currentLineIndex) else |lines| - 1
      ensures isTyping == old(isTyping) && isComplete == old(isComplete) && typingRef == old(typingRef)
    {
      var base := display;
      var li := 0;
      while li < |lines|
        invariant 0 <= li <= |lines|
        invariant display == ShownAfter(base, lines, li)
        invariant currentLineIndex == if li == 0 then old(currentLineIndex) else li - 1
        invariant isTyping == old(isTyping) && isComplete == old(isComplete) && typingRef == old(typingRef)
      {
        TypeLine(lines, li, opts, draws);
        li := li + 1;
      }
      ShownAfterAppends(base, lines, |lines|);
    }

    /** One pass of the outer loop: line `li` is announced, then typed character by character. */
    method TypeLine(lines: seq<string>, li: nat, opts: Options, draws: (nat, nat) -> Draws)
      requires li < |lines| && forall i, j :: DrawsValid(draws(i, j))
      modifies this
      ensures display == old(display) + LineText(lines, li)
      ensures currentLineIndex == li
      ensures isTyping == old(isTyping) && isComplete == old(isComplete) && typingRef == old(typingRef)
    {
      var line := lines[li];
      var prefix := if li > 0 then "\n" else "";
      currentLineIndex := li;
      var head := display;
      var ci := 0;
      while ci < |line|
        invariant 0 <= ci <= |line|
        invariant display == head + if ci == 0 then "" else prefix + line[..ci]
        invariant currentLineIndex == li
        invariant isTyping == old(isTyping) && isComplete == old(isComplete) && typingRef == old(typingRef)
      {
        var c := line[ci];
        var d := draws(li, ci);
        Keystroke(if ci == 0 && li > 0 then prefix else "", c, GetTypo(c, opts, d.typo, d.pick));
        assert line[..ci + 1] == line[..ci] + [c];
        ci := ci + 1;
      }
      assert line[..|line|] == line;
    }

    /**
     * One character of `typeText`: the prefix and the character, or its typo,
     * which is erased and replaced by the character.
     */
    method Keystroke(prefix: string, c: char, typo: Option<char>)
      modifies this
      ensures display == old(display) + prefix + [c]
      ensures isTyping == old(isTyping) && isComplete == old(isComplete)
      ensures currentLineIndex == old(currentLineIndex) && typingRef == old(typingRef)
    {
      var shown := if typo.Some? then typo.value else c;
      display := display + prefix + [shown];
      if typo.Some? {
        display := DropLast(display);
        display := display + [c];
      }
    }

    /** `restart`: the pending timer is cleared, the guard is released and the state is back to its start. */
    method Restart()
      modifies this
      ensures display == "" && !isTyping && !isComplete && currentLineIndex == 0 && !typingRef
    {
      typingRef := false;
      display, isTyping, isComplete, currentLineIndex := "", false, false, 0;
    }

    /** The unmount cleanup: the pending timer is cleared and the guard released. */
    method Unmount()
      modifies this
      ensures !typingRef
      ensures display == old(display) && isTyping == old(isTyping) && isComplete == old(isComplete)
      ensures currentLineIndex == old(currentLineIndex)
    {
      typingRef := false;
    }
  }

  /** After a restart a call of `typeText` types the lines from an empty display. */
  method RestartThenType(h: Hook, lines: seq<string>, opts: Options, draws: (nat, nat) -> Draws)
    requires forall i, j :: DrawsValid(draws(i, j))
    modifies h
    ensures h.display == HookText(lines) && h.isComplete && !h.isTyping
  {
    h.Restart();
    var ran := h.TypeText(lines, opts, draws);
  }
}
