/**
 * The typing effect of src/components/ui/TypewriterText.tsx. One run of the
 * effect is a chain of timer callbacks over the closure's `currentText`,
 * `lineIndex` and `charIndex`; `Step` is one callback firing and the pending
 * callback is named by `Next`. The draws of `Math.random()` a callback makes
 * are its inputs.
 */
module TypewriterText {
  import opened Wrappers
  import opened JsString
  import opened TypoMap

  /** The component's timing props. */
  datatype Config = Config(minCharDelay: int, maxCharDelay: int, typoChance: real, linePause: int)

  /** The props' defaults. */
  const Defaults := Config(40, 120, 0.03, 800)

  /**
   * The callback the chain will run next: `typeNextChar`, the backspace after
   * a typo, the retyping of the intended character, or none.
   */
  datatype Next = TypeNext | Erase(intended: char) | Retype(intended: char) | Stopped

  /** The draws one callback may make: the typo roll, the neighbour pick and the delay roll. */
  datatype Draws = Draws(typo: real, pick: real, delay: real)

  predicate DrawsValid(d: Draws)
  {
    0.0 <= d.typo < 1.0 && 0.0 <= d.pick < 1.0 && 0.0 <= d.delay < 1.0
  }

  /** The closure's variables, the three state hooks, the calls to `onComplete` and the pending callback. */
  datatype Run = Run(
    text: string, display: string, lineIndex: nat, charIndex: nat, cancelled: bool,
    complete: bool, showCursor: bool, completions: nat, next: Next)

  /** The state when the effect starts: `typeNextChar` is called straight away. */
  const Start := Run("", "", 0, 0, false, false, true, 0, TypeNext)

  /** The lines joined with "\n". */
  function Join(lines: seq<string>): (s: string)
    ensures |lines| == 1 ==> s == lines[0]
  {
    if |lines| == 0 then ""
    else if |lines| == 1 then lines[0]
    else Join(lines[..|lines| - 1]) + "\n" + lines[|lines| - 1]
  }

  /** The separator put before line `i`. */
  function Sep(i: nat): string
  {
    if i > 0 then "\n" else ""
  }

  /** Joining one more line appends the separator and the line. */
  lemma JoinSnoc(lines: seq<string>, k: nat)
    requires k < |lines|
    ensures Join(lines[..k + 1]) == Join(lines[..k]) + Sep(k) + lines[k]
  {
    var p := lines[..k + 1];
    assert p[..|p| - 1] == lines[..k];
  }

  /** Whether `(li, ci)` is a position in the lines: a line and a column up to its end, or the end of all lines. */
  predicate At(lines: seq<string>, li: nat, ci: nat)
  {
    (li < |lines| && ci <= |lines[li]|) || (li == |lines| && ci == 0)
  }

  /** The text once every character before `(li, ci)` has been typed. */
  function Typed(lines: seq<string>, li: nat, ci: nat): string
    requires At(lines, li, ci)
  {
    if li == |lines| then Join(lines)
    else Join(lines[..li]) + Sep(li) + lines[li][..ci]
  }

  /** The text typed up to any position is a prefix of the whole text. */
  lemma {:induction false} TypedPrefix(lines: seq<string>, li: nat, ci: nat)
    requires At(lines, li, ci)
    ensures Typed(lines, li, ci) <= Join(lines)
  {
    if li < |lines| {
      var line := lines[li];
      JoinSnoc(lines, li);
      assert Typed(lines, li, ci) <= Join(lines[..li + 1]) by {
        assert line[..ci] <= line;
      }
      JoinPrefix(lines, li + 1);
    }
  }

  /** Joining the first `k` lines gives a prefix of joining them all. */
  lemma {:induction false} JoinPrefix(lines: seq<string>, k: nat)
    requires k <= |lines|
    ensures Join(lines[..k]) <= Join(lines)
    decreases |lines| - k
  {
    if k < |lines| {
      JoinSnoc(lines, k);
      JoinPrefix(lines, k + 1);
    } else {
      assert lines[..k] == lines;
    }
  }

  /** `getRandomDelay`: `Math.floor(r * (max - min) + min)`, for a draw `r`. */
  function RandomDelay(min: int, max: int, r: real): (d: int)
    ensures 0.0 <= r < 1.0 && min <= max ==> min <= d <= max
  {
    Scale(r, min, max);
    (r * (max - min) as real + min as real).Floor
  }

  lemma Scale(r: real, lo: int, hi: int)
    ensures 0.0 <= r < 1.0 && lo <= hi ==>
              lo as real <= r * (hi - lo) as real + lo as real <= hi as real
  {
    if 0.0 <= r < 1.0 && lo <= hi {
      assert r * (hi - lo) as real <= 1.0 * (hi - lo) as real;
    }
  }

  /** The wait after typing `c` normally: 280 after '.', '!' or '?', 140 after ',', half a random delay after ' '. */
  function CharDelay(cfg: Config, c: char, r: real): (d: int)
    ensures c in ".!?" ==> d == 280
    ensures c == ',' ==> d == 140
    ensures c == ' ' ==> d == (RandomDelay(cfg.minCharDelay, cfg.maxCharDelay, r) as real * 0.5).Floor
    ensures !(c in ".!?, ") ==> d == RandomDelay(cfg.minCharDelay, cfg.maxCharDelay, r)
  {
    var delay := RandomDelay(cfg.minCharDelay, cfg.maxCharDelay, r);
    if c in ['.', '!', '?'] then 280
    else if c == ',' then 140
    else if c == ' ' then (delay as real * 0.5).Floor
    else delay
  }

  /** With the default props a space waits between 20 and 60 ms and any other plain character between 40 and 120. */
  lemma DefaultDelays(c: char, r: real)
    requires 0.0 <= r < 1.0
    ensures c == ' ' ==> 20 <= CharDelay(Defaults, c, r) <= 60
    ensures !(c in ".!?, ") ==> 40 <= CharDelay(Defaults, c, r) <= 120
  {
    var d := RandomDelay(40, 120, r);
    assert 40 <= d <= 120;
  }

  /** `slice(0, -1)`: the text without its last character; the empty text stays empty. */
  function DropLast(s: string): (t: string)
    ensures |s| > 0 ==> t == s[..|s| - 1]
    ensures |s| == 0 ==> t == s
  {
    if |s| == 0 then s else s[..|s| - 1]
  }

  /** The run once all lines are typed: complete, cursor hidden, `onComplete` called. */
  function Finish(s: Run): Run
  {
    s.(complete := true, showCursor := false, completions := s.completions + 1, next := Stopped)
  }

  /** `typeNextChar`: the new state and the delay of the timer it sets, if any. */
  function TypeNextChar(lines: seq<string>, cfg: Config, s: Run, d: Draws): (r: (Run, Option<int>))
    requires DrawsValid(d)
    ensures r.1.Some? <==> r.0.next != Stopped
    ensures r.0.cancelled == s.cancelled && (s.cancelled ==> r.1.None?)
    ensures s.text <= r.0.text && |r.0.text| <= |s.text| + 1
    ensures r.0.complete != s.complete ==> r.0.complete && r.0.lineIndex >= |lines| && r.1.None?
  {
    if s.cancelled then (s.(next := Stopped), None)
    else if s.lineIndex >= |lines| then (Finish(s), None)
    else
      var line := lines[s.lineIndex];
      if s.charIndex >= |line| then
        var li := s.lineIndex + 1;
        if li < |lines| then
          var t := s.text + "\n";
          (s.(text := t, display := t, lineIndex := li, charIndex := 0, next := TypeNext), Some(cfg.linePause))
        else
          (Finish(s.(lineIndex := li, charIndex := 0)), None)
      else
        var c := line[s.charIndex];
        if HasEntry(Lower(c)) && d.typo < cfg.typoChance && s.charIndex > 0 then
          var t := s.text + [TypoFor(c, d.pick).value];
          (s.(text := t, display := t, next := Erase(c)), Some(120))
        else
          var t := s.text + [c];
          (s.(text := t, display := t, charIndex := s.charIndex + 1, next := TypeNext),
           Some(CharDelay(cfg, c, d.delay)))
  }

  /** One pending callback firing. Every callback first returns if the run was cancelled. */
  function Step(lines: seq<string>, cfg: Config, s: Run, d: Draws): (r: (Run, Option<int>))
    requires DrawsValid(d)
    ensures r.1.Some? <==> r.0.next != Stopped
    ensures r.0.cancelled == s.cancelled && (s.cancelled ==> r.1.None?)
    ensures s.next.Erase? && !s.cancelled ==> r.0.text == DropLast(s.text)
    ensures !(s.next.Erase? && !s.cancelled) ==> s.text <= r.0.text && |r.0.text| <= |s.text| + 1
  {
    match s.next
    case Stopped => (s, None)
    case TypeNext => TypeNextChar(lines, cfg, s, d)
    case Erase(c) =>
      if s.cancelled then (s.(next := Stopped), None)
      else
        var t := DropLast(s.text);
        (s.(text := t, display := t, next := Retype(c)), Some(80))
    case Retype(c) =>
      if s.cancelled then (s.(next := Stopped), None)
      else
        var t := s.text + [c];
        (s.(text := t, display := t, charIndex := s.charIndex + 1, next := TypeNext),
         Some(RandomDelay(cfg.minCharDelay, cfg.maxCharDelay, d.delay)))
  }

  /**
   * What holds between callbacks: the display shows the closure's text, which
   * is everything typed so far, plus the typo while its backspace is pending;
   * `onComplete` has run once exactly when the run is complete, and then the
   * display holds all the lines.
   */
  predicate Inv(lines: seq<string>, s: Run)
  {
    && At(lines, s.lineIndex, s.charIndex)
    && s.display == s.text
    && s.completions == (if s.complete then 1 else 0)
    && s.showCursor == !s.complete
    && (s.complete ==> s.lineIndex == |lines| && s.next.Stopped? && s.text == Join(lines))
    && (s.next.Erase? || s.next.Retype? ==>
          && s.lineIndex < |lines| && 0 < s.charIndex < |lines[s.lineIndex]|
          && s.next.intended == lines[s.lineIndex][s.charIndex])
    && (s.next.Erase? ==> TypoShown(lines, s) && s.text[|s.text| - 1] != s.next.intended)
    && (s.next.TypeNext? || s.next.Retype? ==> s.text == Typed(lines, s.lineIndex, s.charIndex))
    && (s.next.Stopped? ==> s.text == Typed(lines, s.lineIndex, s.charIndex) || TypoShown(lines, s))
  }

  /** The text is what has been typed followed by one typo. */
  predicate TypoShown(lines: seq<string>, s: Run)
    requires At(lines, s.lineIndex, s.charIndex)
  {
    |s.text| == |Typed(lines, s.lineIndex, s.charIndex)| + 1
    && s.text[..|s.text| - 1] == Typed(lines, s.lineIndex, s.charIndex)
  }

  lemma StartInv(lines: seq<string>)
    ensures Inv(lines, Start)
  {
    if |lines| == 0 {
      assert Typed(lines, 0, 0) == "";
    } else {
      assert Typed(lines, 0, 0) == Join(lines[..0]) + "" + lines[0][..0];
    }
  }

  /** Typing the character at `(li, ci)` moves the position one column on. */
  lemma TypedChar(lines: seq<string>, li: nat, ci: nat)
    requires li < |lines| && ci < |lines[li]|
    ensures Typed(lines, li, ci) + [lines[li][ci]] == Typed(lines, li, ci + 1)
  {
    assert lines[li][..ci] + [lines[li][ci]] == lines[li][..ci + 1];
  }

  /** Ending line `li` appends "\n" when a line follows, and otherwise leaves the whole text. */
  lemma TypedLineEnd(lines: seq<string>, li: nat)
    requires li < |lines|
    ensures li + 1 < |lines| ==> Typed(lines, li, |lines[li]|) + "\n" == Typed(lines, li + 1, 0)
    ensures li + 1 == |lines| ==> Typed(lines, li, |lines[li]|) == Join(lines)
  {
    JoinSnoc(lines, li);
    assert lines[li][..|lines[li]|] == lines[li];
    if li + 1 == |lines| {
      assert lines[..li + 1] == lines;
    }
  }

  /** Every callback keeps the invariant. */
  lemma StepInv(lines: seq<string>, cfg: Config, s: Run, d: Draws)
    requires Inv(lines, s) && DrawsValid(d)
    ensures Inv(lines, Step(lines, cfg, s, d).0)
  {
    var t := Step(lines, cfg, s, d).0;
    if !s.cancelled && s.lineIndex < |lines| {
      var line := lines[s.lineIndex];
      match s.next
      case TypeNext =>
        if s.charIndex >= |line| {
          TypedLineEnd(lines, s.lineIndex);
        } else {
          var c := line[s.charIndex];
          if HasEntry(Lower(c)) && d.typo < cfg.typoChance && s.charIndex > 0 {
            TypoDiffers(c, d.pick);
          } else {
            TypedChar(lines, s.lineIndex, s.charIndex);
          }
        }
      case Erase(c) =>
        assert t.text == s.text[..|s.text| - 1];
      case Retype(c) =>
        TypedChar(lines, s.lineIndex, s.charIndex);
      case Stopped =>
    }
  }

  /**
   * A typo is made only past the first character of a line, and only for a
   * character whose lower case has an entry in the map.
   */
  lemma TypoOnlyWhereAllowed(lines: seq<string>, cfg: Config, s: Run, d: Draws)
    requires DrawsValid(d) && s.next.TypeNext? && !s.cancelled
    ensures var t := Step(lines, cfg, s, d).0;
            t.next.Erase? ==> s.charIndex > 0 && s.lineIndex < |lines|
                              && s.charIndex < |lines[s.lineIndex]|
                              && HasEntry(Lower(lines[s.lineIndex][s.charIndex]))
                              && d.typo < cfg.typoChance
  {
  }

  /** Between callbacks the display is a prefix of the whole text, or such a prefix followed by one typo. */
  lemma DisplayPrefix(lines: seq<string>, s: Run)
    requires Inv(lines, s)
    ensures s.next.TypeNext? || s.next.Retype? || s.complete ==> s.display <= Join(lines)
    ensures s.display <= Join(lines) || (|s.display| > 0 && s.display[..|s.display| - 1] <= Join(lines))
  {
    TypedPrefix(lines, s.lineIndex, s.charIndex);
  }

  /** Once complete, the display holds the lines joined with "\n", whatever typos were made on the way. */
  lemma CompleteShowsAll(lines: seq<string>, s: Run)
    requires Inv(lines, s) && s.complete
    ensures s.display == Join(lines) && !s.showCursor && s.completions == 1
  {
  }

  /** A cancelled run changes nothing visible: the pending callback returns at once and sets no timer. */
  lemma CancelledStepInert(lines: seq<string>, cfg: Config, s: Run, d: Draws)
    requires s.cancelled && DrawsValid(d)
    ensures var (t, delay) := Step(lines, cfg, s, d);
            t == s.(next := Stopped) && delay.None?
  {
  }

  /** The characters, typo round trips and line ends still to come. */
  function Remaining(lines: seq<string>, li: nat, ci: nat): nat
    requires At(lines, li, ci)
    decreases |lines| - li
  {
    if li == |lines| then 0
    else |lines[li]| - ci + 1 + Remaining(lines, li + 1, 0)
  }

  /** A measure of the work left before the run completes. */
  function Work(lines: seq<string>, s: Run): nat
    requires At(lines, s.lineIndex, s.charIndex)
  {
    var r := 3 * Remaining(lines, s.lineIndex, s.charIndex);
    match s.next
    case TypeNext => r + 3
    case Erase(_) => r + 2
    case Retype(_) => r + 1
    case Stopped => 0
  }

  /**
   * Every callback of a live run does work, so the chain reaches `complete`
   * after finitely many callbacks, and `onComplete` is then called once and
   * never again.
   */
  lemma StepProgress(lines: seq<string>, cfg: Config, s: Run, d: Draws)
    requires Inv(lines, s) && DrawsValid(d) && !s.cancelled && !s.next.Stopped?
    ensures var t := Step(lines, cfg, s, d).0;
            Work(lines, t) < Work(lines, s)
            && t.completions == (if t.complete then 1 else 0)
            && (t.next.Stopped? ==> t.complete)
  {
    StepInv(lines, cfg, s, d);
  }

  /** A completed run stays as it is, so `onComplete` is never called a second time. */
  lemma CompleteIsFinal(lines: seq<string>, cfg: Config, s: Run, d: Draws)
    requires Inv(lines, s) && s.complete && DrawsValid(d)
    ensures Step(lines, cfg, s, d).0 == s
  {
  }

  /** One run of the effect, with its state in place. */
  class Typing {
    const lines: seq<string>
    const cfg: Config
    var text: string
    var display: string
    var lineIndex: nat
    var charIndex: nat
    var cancelled: bool
    var complete: bool
    var showCursor: bool
    var completions: nat
    var next: Next

    function State(): Run
      reads this
    {
      Run(text, display, lineIndex, charIndex, cancelled, complete, showCursor, completions, next)
    }

    predicate Valid()
      reads this
    {
      Inv(lines, State())
    }

    /** The effect starts: fresh closure variables, with `typeNextChar` to run. */
    constructor (lines: seq<string>, cfg: Config)
      ensures this.lines == lines && this.cfg == cfg
      ensures State() == Start && Valid()
    {
      this.lines := lines;
      this.cfg := cfg;
      text, display := "", "";
      lineIndex, charIndex := 0, 0;
      cancelled, complete, showCursor := false, false, true;
      completions := 0;
      next := TypeNext;
      new;
      StartInv(lines);
    }

    /** The pending callback fires; `delay` is the timer it sets, if any. */
    method Fire(d: Draws) returns (delay: Option<int>)
      requires Valid() && DrawsValid(d)
      modifies this
      ensures State() == Step(lines, cfg, old(State()), d).0
      ensures delay == Step(lines, cfg, old(State()), d).1
      ensures Valid()
    {
      StepInv(lines, cfg, State(), d);
      var r := Step(lines, cfg, State(), d);
      text, display, lineIndex, charIndex := r.0.text, r.0.display, r.0.lineIndex, r.0.charIndex;
      cancelled, complete, showCursor := r.0.cancelled, r.0.complete, r.0.showCursor;
      completions, next := r.0.completions, r.0.next;
      delay := r.1;
    }

    /** The effect's cleanup: the run is cancelled; pending timers still fire but return at once. */
    method Cancel()
      requires Valid()
      modifies this
      ensures State() == old(State()).(cancelled := true)
      ensures Valid()
    {
      cancelled := true;
    }
  }
}
