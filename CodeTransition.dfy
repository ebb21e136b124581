/**
 * The code-themed helpers of src/components/ui/CodeTransition.jsx: a
 * typewriter started after a delay, the four-step compilation log, the bracket
 * lookup, the padded line numbers and the wrapper's delayed content.
 */
module CodeTransition {
  import opened Wrappers
  import opened Strings

  /** The timers a typewriter holds: the start delay and the typing interval. */
  datatype Timers = Timers(timeout: bool, interval: bool)

  /**
   * What survives an unmount as written: the effect's cleanup clears only the
   * timeout, while the interval's cleanup is returned from inside the timeout
   * callback, where nothing keeps it.
   */
  function CleanupAsWritten(t: Timers): (r: Timers)
    ensures !r.timeout && r.interval == t.interval
  {
    Timers(false, t.interval)
  }

  /** The cleanup as evidently intended: nothing is left running. */
  function Cleanup(t: Timers): (r: Timers)
    ensures r == Timers(false, false)
    ensures !t.interval ==> r == CleanupAsWritten(t)
  {
    Timers(false, false)
  }

  /** A typewriter unmounted while typing keeps its interval, which goes on setting state. */
  lemma TypingOutlivesUnmount()
    ensures CleanupAsWritten(Timers(false, true)).interval
    ensures !Cleanup(Timers(false, true)).interval
  {
  }

  /**
   * `TypewriterText`: once in view, wait `delay`, then every `speed` ms show
   * one more character of `text`, and mark itself complete after the last.
   * `next` is the interval's local `currentIndex`.
   */
  class Typewriter {
    const text: string
    var isInView: bool
    var timeoutPending: bool
    var intervalRunning: bool
    var displayedText: string
    var next: nat
    var isComplete: bool

    /** The text shown is always a prefix of `text`, and all of it once complete. */
    ghost predicate Valid()
      reads this
    {
      displayedText <= text &&
      (intervalRunning ==>
         next <= |text| + 1 && displayedText == text[..if next == 0 then 0 else next - 1]) &&
      (isComplete ==> displayedText == text && !intervalRunning && !timeoutPending) &&
      (timeoutPending ==> isInView && !intervalRunning && next == 0 && displayedText == "") &&
      ((intervalRunning || isComplete) ==> isInView) &&
      (!isInView ==> displayedText == "")
    }

    constructor (text: string)
      ensures Valid() && this.text == text && !isInView && !isComplete && displayedText == ""
      ensures !timeoutPending && !intervalRunning
    {
      this.text := text;
      isInView := false;
      timeoutPending := false;
      intervalRunning := false;
      displayedText := "";
      next := 0;
      isComplete := false;
    }

    /** `isInView` becomes true (once): the start delay begins. */
    method EnterView()
      requires Valid() && !isInView
      modifies this
      ensures Valid() && isInView && timeoutPending && displayedText == "" && !isComplete
    {
      isInView := true;
      next := 0;
      timeoutPending := true;
    }

    /** The delay is over: the interval starts at index 0. */
    method StartTyping()
      requires Valid() && timeoutPending
      modifies this
      ensures Valid() && !timeoutPending && intervalRunning && next == 0 && displayedText == ""
      ensures isComplete == old(isComplete)
    {
      timeoutPending := false;
      intervalRunning := true;
    }

    /** One interval tick: one more character, or stop and mark complete. */
    method Tick()
      requires Valid() && intervalRunning
      modifies this
      ensures Valid()
      ensures old(next) <= |text| ==>
                displayedText == text[..old(next)] && next == old(next) + 1 && intervalRunning && !isComplete
      ensures old(next) > |text| ==> !intervalRunning && isComplete && displayedText == text
    {
      if next <= |text| {
        displayedText := text[..next];
        next := next + 1;
      } else {
        intervalRunning := false;
        isComplete := true;
        assert displayedText == text[..|text|] == text;
      }
    }

    /** Unmounting as written: the pending delay is cancelled, a running interval is not. */
    method Unmount()
      requires Valid()
      modifies this
      ensures Valid() && !timeoutPending
      ensures Timers(timeoutPending, intervalRunning) == CleanupAsWritten(old(Timers(timeoutPending, intervalRunning)))
      ensures displayedText == old(displayedText) && isComplete == old(isComplete)
    {
      timeoutPending := false;
    }

    /** Unmounting with the corrected cleanup: both the pending delay and a running interval are cleared. */
    method UnmountCorrected()
      requires Valid()
      modifies this
      ensures Valid() && !timeoutPending && !intervalRunning
      ensures Timers(timeoutPending, intervalRunning) == Cleanup(old(Timers(timeoutPending, intervalRunning)))
      ensures displayedText == old(displayedText) && isComplete == old(isComplete)
    {
      timeoutPending := false;
      intervalRunning := false;
    }

    /** `!isComplete && isInView && <BlinkingCursor />`. */
    function CursorShown(): (shown: bool)
      reads this
      requires Valid()
      ensures shown <==> isInView && !isComplete
      ensures isComplete ==> !shown && displayedText == text
    {
      !isComplete && isInView
    }
  }

  /**
   * A typewriter run from entering the view to completion: the frames it
   * shows, each one character longer, ending on the whole text with the
   * cursor gone.
   */
  method TypeAll(text: string) returns (frames: seq<string>, finalText: string, cursor: bool)
    ensures |frames| == |text| + 1
    ensures forall k :: 0 <= k < |frames| ==> frames[k] <= text && |frames[k]| == k
    ensures finalText == text && !cursor
  {
    var t := new Typewriter(text);
    t.EnterView();
    t.StartTyping();
    frames := [];
    while t.intervalRunning
      invariant t.Valid() && t.isInView && t.text == text && !t.timeoutPending
      invariant t.intervalRunning ==> t.next == |frames| <= |text| + 1
      invariant !t.intervalRunning ==> t.isComplete && |frames| == |text| + 1
      invariant forall k :: 0 <= k < |frames| ==> frames[k] == text[..k]
      decreases |text| + 1 - |frames|, t.intervalRunning
      modifies t
    {
      var typing := t.next <= |text|;
      t.Tick();
      if typing {
        frames := frames + [t.displayedText];
      }
    }
    finalText := t.displayedText;
    cursor := t.CursorShown();
  }

  /**
   * Two typewriters unmounted at the same point of their typing, after
   * `ticks` characters: as written the interval is still running and can tick
   * again, with the corrected cleanup no timer is left at all.
   */
  method UnmountWhileTyping(text: string, ticks: nat) returns (asWritten: Timers, corrected: Timers)
    requires ticks <= |text|
    ensures asWritten == Timers(false, true)
    ensures corrected == Timers(false, false)
  {
    var a := new Typewriter(text);
    var b := new Typewriter(text);
    a.EnterView();
    b.EnterView();
    a.StartTyping();
    b.StartTyping();
    var i := 0;
    while i < ticks
      invariant 0 <= i <= ticks
      invariant a.Valid() && b.Valid() && a.text == text && b.text == text
      invariant a.intervalRunning && b.intervalRunning && a.next == i && b.next == i
      modifies a, b
    {
      a.Tick();
      b.Tick();
      i := i + 1;
    }
    a.Unmount();
    b.UnmountCorrected();
    asWritten := Timers(a.timeoutPending, a.intervalRunning);
    corrected := Timers(b.timeoutPending, b.intervalRunning);
  }

  /** The compilation log. */
  const Steps: seq<string> := ["Compiling section...", "Resolving dependencies...", "Optimizing render...", "Build successful!"]

  /**
   * `CompilationLoader`: `step` advances by one every 400 ms; the effect that
   * sees `step >= 4` calls `onComplete` instead of scheduling another step.
   * `completions` counts the calls to `onComplete`.
   */
  class CompilationLoader {
    var step: nat
    var timeoutPending: bool
    var completions: nat

    /** The step never passes 4, and a step is pending exactly while the log is unfinished. */
    ghost predicate Valid()
      reads this
    {
      step <= |Steps| && (timeoutPending <==> step < |Steps|) && (completions > 0 ==> step == |Steps|)
    }

    /** Mounting: step 0, and the effect schedules the first advance. */
    constructor ()
      ensures Valid() && step == 0 && timeoutPending && completions == 0
    {
      step := 0;
      timeoutPending := true;
      completions := 0;
    }

    /** The 400 ms timer fires: `setStep(s => s + 1)`, then the effect runs for the new step. */
    method Advance()
      requires Valid() && timeoutPending
      modifies this
      ensures Valid() && step == old(step) + 1
      ensures step == |Steps| ==> !timeoutPending && completions == old(completions) + 1
      ensures step < |Steps| ==> timeoutPending && completions == old(completions)
    {
      step := step + 1;
      timeoutPending := step < |Steps|;
      if step >= |Steps| {
        completions := completions + 1;
      }
    }

    /**
     * The parent re-renders. `onComplete` is a dependency of the effect, so a
     * new callback identity re-runs it: before the end the pending step is
     * rescheduled, at the end `onComplete` is called once more.
     */
    method Rerender(callbackChanged: bool)
      requires Valid()
      modifies this
      ensures Valid() && step == old(step) && timeoutPending == old(timeoutPending)
      ensures completions == if callbackChanged && step == |Steps| then old(completions) + 1 else old(completions)
    {
      if callbackChanged && step >= |Steps| {
        completions := completions + 1;
      }
    }
  }

  /** The marker in front of a log line. */
  datatype Marker = Done | Running

  /** `i < step ? '[OK] ' : i === step && step < steps.length - 1 ? '[...] ' : '[OK] '`. */
  function LineMarker(i: nat, step: nat): Marker
  {
    if i < step then Done else if i == step && step < |Steps| - 1 then Running else Done
  }

  /** The log shown at `step`: `steps.slice(0, step + 1)`, each line with its marker. */
  function LogLines(step: nat): (lines: seq<(Marker, string)>)
    ensures |lines| == if step + 1 < |Steps| then step + 1 else |Steps|
    ensures forall i :: 0 <= i < |lines| ==> lines[i].1 == Steps[i]
  {
    var n := if step + 1 < |Steps| then step + 1 else |Steps|;
    seq(n, i requires 0 <= i < n => (LineMarker(i, step), Steps[i]))
  }

  /**
   * At most one line is still running: the last one shown, and only before
   * the final step; from step 3 on every line is done.
   */
  lemma LogMarkers(step: nat)
    ensures forall i :: 0 <= i < |LogLines(step)| ==>
              (LogLines(step)[i].0 == Running <==> i == step && step < |Steps| - 1)
    ensures step >= |Steps| - 1 ==> forall i :: 0 <= i < |LogLines(step)| ==> LogLines(step)[i].0 == Done
    ensures step < |Steps| - 1 ==> LogLines(step)[|LogLines(step)| - 1].0 == Running
  {
  }

  /** The brackets `BracketsReveal` draws around its content. */
  datatype Brackets = Brackets(open: string, close: string)

  const BracketTypes: map<string, Brackets> := map[
    "curly" := Brackets("{", "}"),
    "angle" := Brackets("<", "/>"),
    "square" := Brackets("[", "]"),
    "paren" := Brackets("(", ")")]

  /** `brackets[type] || brackets.curly`. */
  function BracketsFor(kind: string): (b: Brackets)
    ensures kind in BracketTypes ==> b == BracketTypes[kind]
    ensures kind !in BracketTypes ==> b == Brackets("{", "}")
    ensures |b.open| == 1
  {
    if kind in BracketTypes then BracketTypes[kind] else BracketTypes["curly"]
  }

  /** Every known bracket type but `angle` closes with a single character; `angle` closes a tag. */
  lemma BracketShapes(kind: string)
    ensures BracketsFor(kind).close == "/>" <==> kind == "angle"
    ensures kind != "angle" ==> |BracketsFor(kind).close| == 1
  {
  }

  /** `String(startFrom + i).padStart(3, ' ')` for `i` below `count`. */
  function LineNumberRows(count: nat, startFrom: int): (rows: seq<string>)
    ensures |rows| == count
  {
    seq(count, i requires 0 <= i < count => PadStart(IntString(startFrom + i), 3, ' '))
  }

  /** Every row is at least three wide and reads back as its line number. */
  lemma LineNumberRowsRead(count: nat, startFrom: int, i: nat)
    requires i < count
    ensures |LineNumberRows(count, startFrom)[i]| >= 3
    ensures ParseInt(LineNumberRows(count, startFrom)[i]) == Some(startFrom + i)
  {
    var s := IntString(startFrom + i);
    var row := LineNumberRows(count, startFrom)[i];
    assert row == PadStart(s, 3, ' ');
    var pad := row[..|row| - |s|];
    assert row == pad + s;
    IntStringStart(startFrom + i);
    PaddingIgnored(pad, s);
    ParseIntString(startFrom + i, []);
    assert s + [] == s;
  }

  /** A number's text starts with a sign or a digit, never with white space. */
  lemma IntStringStart(n: int)
    ensures !IsWhiteSpace(IntString(n)[0])
  {
    if n >= 0 {
      assert IsDigit(Decimal(n)[0]);
    }
  }

  /** `parseInt` skips the spaces `padStart` put in front. */
  lemma PaddingIgnored(pad: string, s: string)
    requires forall k :: 0 <= k < |pad| ==> pad[k] == ' '
    requires s != [] && !IsWhiteSpace(s[0])
    ensures ParseInt(pad + s) == ParseInt(s)
  {
    TrimStartPadding(pad, s);
    TrimStartPadding([], s);
    assert [] + s == s;
    assert TrimStart(pad + s) == TrimStart(s);
  }

  /**
   * The wrapper: in view (once), it shows the line numbers and the tags at
   * once and the content 200 ms later.
   */
  class CodeSection {
    var isInView: bool
    var timeoutPending: bool
    var showContent: bool

    /** Content never shows before the section was in view. */
    ghost predicate Valid()
      reads this
    {
      (showContent ==> isInView) && (timeoutPending ==> isInView && !showContent)
    }

    constructor ()
      ensures Valid() && !isInView && !timeoutPending && !showContent
    {
      isInView := false;
      timeoutPending := false;
      showContent := false;
    }

    method EnterView()
      requires Valid() && !isInView
      modifies this
      ensures Valid() && isInView && timeoutPending && !showContent
    {
      isInView := true;
      timeoutPending := true;
    }

    /** The 200 ms timer fires. */
    method Reveal()
      requires Valid() && timeoutPending
      modifies this
      ensures Valid() && showContent && !timeoutPending && isInView
    {
      timeoutPending := false;
      showContent := true;
    }

    /** Unmounting clears the pending timer. */
    method Unmount()
      requires Valid()
      modifies this
      ensures Valid() && !timeoutPending && showContent == old(showContent) && isInView == old(isInView)
    {
      timeoutPending := false;
    }

    /** Line numbers render iff the section is in view; content only after the delay. */
    function Shown(): (r: (bool, bool))
      reads this
      requires Valid()
      ensures r.0 <==> isInView
      ensures r.1 ==> r.0
    {
      (isInView, showContent)
    }
  }
}
