/**
 * `useAutoTypewriter` (src/hooks/useTypewriter.ts): an effect that, once per
 * mount, sets a start timer; when it fires, a chain of `type` callbacks types
 * the lines over the closure's `currentText`, `lineIndex`, `charIndex` and
 * `isBackspacing`. `AutoStep` is one callback firing; the draws of
 * `Math.random()` are inputs.
 */
module AutoTypewriter {
  import opened Wrappers
  import opened JsString
  import opened TypoMap
  import opened TypewriterText
  import opened UseTypewriter

  /** The callback pending in the chain: `type`, the correction after a backspace, or none. */
  datatype Pending = Type | Correct | Idle

  /** The closure's variables, the hook's state fields and the pending callback. */
  datatype Auto = Auto(
    text: string, display: string, lineIndex: nat, charIndex: nat, backspacing: bool,
    isTyping: bool, isComplete: bool, currentLineIndex: nat, next: Pending)

  /** The state when the start timer fires: typing is on and `type` runs at once. */
  const Begin := Auto("", "", 0, 0, false, true, false, 0, Type)

  /** The wait after typing `c` normally: the punctuation pause after '.', '!' or '?' when enabled, 200 after ',', a random delay otherwise. */
  function AutoDelay(opts: Options, c: char, r: real): (d: int)
    ensures opts.pauseOnPunctuation && c in ".!?" ==> d == opts.punctuationPause
    ensures c == ',' ==> d == 200
    ensures !(opts.pauseOnPunctuation && c in ".!?") && c != ',' ==> d == RandomDelay(opts.minDelay, opts.maxDelay, r)
  {
    if opts.pauseOnPunctuation && c in ['.', '!', '?'] then opts.punctuationPause
    else if c == ',' then 200
    else RandomDelay(opts.minDelay, opts.maxDelay, r)
  }

  /** The positions `AutoStep` reads are inside the lines. */
  predicate Shaped(lines: seq<string>, s: Auto)
  {
    && At(lines, s.lineIndex, s.charIndex)
    && (s.backspacing || s.next.Correct? ==> s.lineIndex < |lines| && s.charIndex < |lines[s.lineIndex]|)
  }

  /**
   * One callback firing: the new state and the delay of the timer it sets.
   * After the last line's "\n" is added the display is not updated; the
   * next character typed shows it.
   */
  function AutoStep(lines: seq<string>, opts: Options, s: Auto, d: Draws): (r: (Auto, Option<int>))
    requires Shaped(lines, s) && DrawsValid(d)
    ensures r.1.Some? <==> r.0.next != Idle
    ensures r.0.isComplete != s.isComplete ==> r.0.isComplete && !r.0.isTyping && r.0.lineIndex >= |lines|
    ensures r.0.text == DropLast(s.text) || (s.text <= r.0.text && |r.0.text| <= |s.text| + 1)
  {
    match s.next
    case Idle => (s, None)
    case Correct =>
      var t := s.text + [lines[s.lineIndex][s.charIndex]];
      (s.(text := t, display := t, charIndex := s.charIndex + 1, next := Type),
       Some(RandomDelay(opts.minDelay, opts.maxDelay, d.delay)))
    case Type =>
      if s.lineIndex >= |lines| then
        (s.(isTyping := false, isComplete := true, next := Idle), None)
      else if s.backspacing then
        var t := DropLast(s.text);
        (s.(text := t, display := t, backspacing := false, next := Correct), Some(100))
      else
        var line := lines[s.lineIndex];
        if s.charIndex >= |line| then
          var li := s.lineIndex + 1;
          if li < |lines| then
            (s.(lineIndex := li, charIndex := 0, currentLineIndex := li, text := s.text + "\n"), Some(800))
          else
            (s.(lineIndex := li, charIndex := 0, currentLineIndex := li,
                isTyping := false, isComplete := true, next := Idle), None)
        else
          var c := line[s.charIndex];
          if HasEntry(Lower(c)) && d.typo < opts.typoChance && s.charIndex > 0 then
            var t := s.text + [TypoFor(c, d.pick).value];
            (s.(text := t, display := t, backspacing := true), Some(150))
          else
            var t := s.text + [c];
            (s.(text := t, display := t, charIndex := s.charIndex + 1), Some(AutoDelay(opts, c, d.delay)))
  }

  /** Every character of `t` from index `k` on is "\n". */
  predicate NewlinesFrom(t: string, k: nat)
  {
    forall j :: k <= j < |t| ==> t[j] == '\n'
  }

  /**
   * What holds between callbacks. The text is what has been typed, plus the
   * typo while its backspace is pending. The display is the text, short of
   * the "\n"s added since the last character typed: there are some exactly
   * at the start of a later line. Once complete, the display equals the text
   * unless the last of several lines is empty.
   */
  predicate AutoInv(lines: seq<string>, s: Auto)
  {
    && Shaped(lines, s)
    && s.currentLineIndex == s.lineIndex
    && (s.backspacing ==> s.next.Type? && 0 < s.charIndex && s.display == s.text
                          && |s.text| == |Typed(lines, s.lineIndex, s.charIndex)| + 1
                          && s.text[..|s.text| - 1] == Typed(lines, s.lineIndex, s.charIndex))
    && (!s.backspacing ==> s.text == Typed(lines, s.lineIndex, s.charIndex))
    && (s.next.Correct? ==> 0 < s.charIndex && s.display == s.text)
    && (s.isComplete <==> s.next.Idle?)
    && (s.isComplete ==> s.lineIndex == |lines| && !s.isTyping)
    && (s.lineIndex == |lines| && |lines| > 0 ==> s.isComplete)
    && s.display <= s.text && NewlinesFrom(s.text, |s.display|)
    && (|s.display| < |s.text| ==> s.charIndex == 0 && !s.backspacing)
    && (0 < s.lineIndex < |lines| && s.charIndex == 0 ==> |s.display| < |s.text|)
    && (s.isComplete ==> (s.display == s.text <==> |lines| < 2 || |lines[|lines| - 1]| > 0))
  }

  lemma BeginInv(lines: seq<string>)
    ensures AutoInv(lines, Begin)
  {
    if |lines| > 0 {
      assert Typed(lines, 0, 0) == Join(lines[..0]) + "" + lines[0][..0];
    }
  }

  /** Every callback keeps the invariant. */
  lemma AutoStepInv(lines: seq<string>, opts: Options, s: Auto, d: Draws)
    requires AutoInv(lines, s) && DrawsValid(d)
    ensures AutoInv(lines, AutoStep(lines, opts, s, d).0)
  {
    match s.next
    case Idle =>
    case Correct =>
      TypedChar(lines, s.lineIndex, s.charIndex);
    case Type =>
      if s.lineIndex >= |lines| {
      } else if s.backspacing {
        var t := AutoStep(lines, opts, s, d).0;
        assert t.text == s.text[..|s.text| - 1];
      } else if s.charIndex >= |lines[s.lineIndex]| {
        LineEndInv(lines, opts, s, d);
      } else {
        TypedChar(lines, s.lineIndex, s.charIndex);
      }
  }

  /** The end of a line keeps the invariant. */
  lemma LineEndInv(lines: seq<string>, opts: Options, s: Auto, d: Draws)
    requires AutoInv(lines, s) && DrawsValid(d) && s.next.Type? && !s.backspacing
    requires s.lineIndex < |lines| && s.charIndex >= |lines[s.lineIndex]|
    ensures AutoInv(lines, AutoStep(lines, opts, s, d).0)
  {
    var t := AutoStep(lines, opts, s, d).0;
    TypedLineEnd(lines, s.lineIndex);
    if s.lineIndex + 1 == |lines| {
      LastLineEnd(lines, s);
    } else {
      assert NewlinesFrom(t.text, |t.display|);
    }
  }

  /** At the end of the last line the display equals the text exactly when that line is not empty or is the only one. */
  lemma LastLineEnd(lines: seq<string>, s: Auto)
    requires AutoInv(lines, s) && s.next.Type? && !s.backspacing
    requires s.lineIndex + 1 == |lines| && s.charIndex == |lines[s.lineIndex]|
    ensures s.display == s.text <==> |lines| < 2 || |lines[|lines| - 1]| > 0
  {
    if |lines[s.lineIndex]| == 0 && |lines| == 1 {
      assert s.text == Join(lines[..0]) + "" + lines[0][..0];
    }
  }

  /**
   * A finished run holds the lines joined with "\n" in its text, with typing
   * off; the display shows the same unless the last of several lines is
   * empty, in which case the final "\n" is never shown.
   */
  lemma AutoFinish(lines: seq<string>, s: Auto)
    requires AutoInv(lines, s) && s.isComplete
    ensures s.text == Join(lines) && !s.isTyping
    ensures s.display == Join(lines) <==> |lines| < 2 || |lines[|lines| - 1]| > 0
  {
  }

  /** The first character of a line is never a typo: a typo needs `charIndex > 0`. */
  lemma FirstCharExact(lines: seq<string>, opts: Options, s: Auto, d: Draws)
    requires Shaped(lines, s) && DrawsValid(d) && s.next.Type? && !s.backspacing && s.charIndex == 0
    ensures !AutoStep(lines, opts, s, d).0.backspacing
  {
  }

  /** The characters and line ends still to come. */
  function Left(lines: seq<string>, li: nat, ci: nat): nat
    requires At(lines, li, ci)
    decreases |lines| - li
  {
    if li == |lines| then 0
    else |lines[li]| - ci + 1 + Left(lines, li + 1, 0)
  }

  /** A measure of the work left before the run completes. */
  function AutoWork(lines: seq<string>, s: Auto): nat
    requires At(lines, s.lineIndex, s.charIndex)
  {
    var r := 3 * Left(lines, s.lineIndex, s.charIndex);
    match s.next
    case Type => if s.backspacing then r + 2 else r + 3
    case Correct => r + 1
    case Idle => 0
  }

  /** Every callback of an unfinished run does work, so the run completes after finitely many callbacks. */
  lemma AutoProgress(lines: seq<string>, opts: Options, s: Auto, d: Draws)
    requires AutoInv(lines, s) && DrawsValid(d) && !s.next.Idle?
    ensures var t := AutoStep(lines, opts, s, d).0;
            AutoWork(lines, t) < AutoWork(lines, s) && (t.next.Idle? ==> t.isComplete)
  {
    AutoStepInv(lines, opts, s, d);
  }

  /**
   * The start of typing across the effect's runs: the `hasStartedRef` flag,
   * whether the start timer is set, and whether it has fired.
   */
  datatype Launch = Launch(hasStarted: bool, startPending: bool, started: bool)

  /** On mount: nothing started, no timer. */
  const Unlaunched := Launch(false, false, false)

  /**
   * The effect as written: it returns when the flag is set, and otherwise sets
   * the flag and then the start timer.
   */
  function EffectAsWritten(l: Launch): (m: Launch)
    ensures l.hasStarted ==> m == l
    ensures !l.hasStarted ==> m.hasStarted && m.startPending && m.started == l.started
  {
    if l.hasStarted then l else l.(hasStarted := true, startPending := true)
  }

  /** The effect's cleanup: the start timer is cleared. */
  function Cleanup(l: Launch): (m: Launch)
    ensures !m.startPending && m.hasStarted == l.hasStarted && m.started == l.started
  {
    l.(startPending := false)
  }

  /**
   * The effect re-runs after every render, because its dependencies hold the
   * options object built afresh each render: the cleanup, then the effect.
   * A re-render before the start timer fires leaves the flag set and no timer,
   * and every later re-render leaves it so: typing never begins. React's
   * development strict mode, which cleans up and re-runs each effect right
   * after mounting, does this on every mount.
   */
  lemma StartLostAsWritten()
    ensures var l := EffectAsWritten(Cleanup(EffectAsWritten(Unlaunched)));
            l.hasStarted && !l.startPending && !l.started
            && EffectAsWritten(Cleanup(l)) == l
  {
  }

  /** The corrected effect: the flag is set by the start timer when it fires, so a cleared start is set again. */
  function Effect(l: Launch): (m: Launch)
    ensures l.hasStarted ==> m == l
    ensures !l.hasStarted ==> m.startPending && m.started == l.started
  {
    if l.hasStarted then l else l.(startPending := true)
  }

  /** The start timer fires: the flag is set and typing begins. */
  function Fire(l: Launch): (m: Launch)
    ensures m.started && m.hasStarted && !m.startPending
  {
    l.(hasStarted := true, startPending := false, started := true)
  }

  /** The flag is set exactly when typing has begun, and then no start timer is set. */
  predicate LaunchInv(l: Launch)
  {
    (l.hasStarted <==> l.started) && (l.started ==> !l.startPending)
  }

  /**
   * With the corrected effect, after any re-render the start timer is set
   * unless typing has begun, and once it has begun no start timer is ever
   * set again: typing begins once per mount.
   */
  lemma StartKept(l: Launch)
    requires LaunchInv(l)
    ensures LaunchInv(Effect(Cleanup(l))) && LaunchInv(Effect(l)) && LaunchInv(Cleanup(l))
    ensures Effect(Cleanup(l)).startPending <==> !l.started
    ensures l.startPending ==> LaunchInv(Fire(l))
    ensures l.started ==> Effect(Cleanup(l)) == Cleanup(l) && !Cleanup(l).startPending
  {
  }

  /** Mounting, cleaning up and mounting again leaves the start timer set. */
  lemma StrictModeStarts()
    ensures Effect(Cleanup(Effect(Unlaunched))).startPending
  {
  }

  /** One mount of a component using the hook, with the corrected start. */
  class AutoHook {
    const lines: seq<string>
    const opts: Options
    var hasStarted: bool
    var startPending: bool
    var started: bool
    var text: string
    var display: string
    var lineIndex: nat
    var charIndex: nat
    var backspacing: bool
    var isTyping: bool
    var isComplete: bool
    var currentLineIndex: nat
    var next: Pending

    function LaunchState(): Launch
      reads this
    {
      Launch(hasStarted, startPending, started)
    }

    function State(): Auto
      reads this
    {
      Auto(text, display, lineIndex, charIndex, backspacing, isTyping, isComplete, currentLineIndex, next)
    }

    predicate Valid()
      reads this
    {
      && LaunchInv(LaunchState())
      && (started ==> AutoInv(lines, State()))
      && (!started ==> display == "" && !isTyping && !isComplete && currentLineIndex == 0)
    }

    /** The mount: initial state, then the effect's first run. */
    constructor (lines: seq<string>, opts: Options)
      ensures this.lines == lines && this.opts == opts
      ensures LaunchState() == Effect(Unlaunched) && Valid()
    {
      this.lines := lines;
      this.opts := opts;
      hasStarted, startPending, started := false, true, false;
      text, display, lineIndex, charIndex, backspacing := "", "", 0, 0, false;
      isTyping, isComplete, currentLineIndex, next := false, false, 0, Idle;
    }

    /** A re-render: the cleanup clears the start timer, then the effect runs again. */
    method Rerender()
      requires Valid()
      modifies this
      ensures LaunchState() == Effect(Cleanup(old(LaunchState())))
      ensures State() == old(State()) && Valid()
      ensures startPending <==> !started
    {
      StartKept(LaunchState());
      startPending := false;
      if !hasStarted {
        startPending := true;
      }
    }

    /** The unmount: only the start timer is cleared; a chain already running goes on. */
    method Unmount()
      requires Valid()
      modifies this
      ensures LaunchState() == Cleanup(old(LaunchState()))
      ensures State() == old(State()) && Valid()
    {
      startPending := false;
    }

    /** The start timer fires: typing is on and the chain's first `type` is pending. */
    method Start()
      requires Valid() && startPending
      modifies this
      ensures LaunchState() == Fire(old(LaunchState())) && State() == Begin
      ensures Valid()
    {
      hasStarted, startPending, started := true, false, true;
      text, lineIndex, charIndex, backspacing := "", 0, 0, false;
      isTyping, isComplete, currentLineIndex, next := true, false, 0, Type;
      BeginInv(lines);
    }

    /** The pending callback of the chain fires; `delay` is the timer it sets, if any. */
    method Step(d: Draws) returns (delay: Option<int>)
      requires Valid() && started && DrawsValid(d)
      modifies this
      ensures State() == AutoStep(lines, opts, old(State()), d).0
      ensures delay == AutoStep(lines, opts, old(State()), d).1
      ensures LaunchState() == old(LaunchState()) && Valid()
    {
      AutoStepInv(lines, opts, State(), d);
      var r := AutoStep(lines, opts, State(), d);
      text, display, lineIndex, charIndex, backspacing := r.0.text, r.0.display, r.0.lineIndex, r.0.charIndex, r.0.backspacing;
      isTyping, isComplete, currentLineIndex, next := r.0.isTyping, r.0.isComplete, r.0.currentLineIndex, r.0.next;
      delay := r.1;
    }
  }
}
