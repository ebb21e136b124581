/**
 * The wrapper every section is rendered in (src/components/ui/SectionTransition.jsx):
 * the "entered once" latch, the terminal line that types its command out,
 * and the compilation bar.
 */
module SectionTransition {
  import opened Wrappers
  import opened Loading

  /** `command || \`render --section ${sectionId}\``: a missing or empty command gives the default. */
  function TerminalCommandText(command: Option<string>, sectionId: string): (text: string)
    ensures command.Some? && command.value != "" ==> text == command.value
    ensures command.None? || command.value == "" ==> text == "render --section " + sectionId
  {
    if command.Some? && command.value != "" then command.value else "render --section " + sectionId
  }

  /** The parts of the wrapper a section turns on; an absent prop takes its default. */
  datatype Props = Props(showTerminal: Option<bool>, showTags: Option<bool>, showCompilation: Option<bool>)

  datatype Parts = Parts(terminal: bool, tags: bool, compilation: bool)

  function PartsShown(p: Props): (r: Parts)
    ensures p.showTerminal.None? ==> r.terminal
    ensures p.showTags.None? ==> r.tags
    ensures p.showCompilation.None? ==> !r.compilation
    ensures p.showTerminal.Some? ==> r.terminal == p.showTerminal.value
    ensures p.showTags.Some? ==> r.tags == p.showTags.value
    ensures p.showCompilation.Some? ==> r.compilation == p.showCompilation.value
  {
    Parts(p.showTerminal.GetOr(true), p.showTags.GetOr(true), p.showCompilation.GetOr(false))
  }

  /** The latch as a function of the sequence of `isInView` values the effect has seen. */
  predicate EnteredAfter(views: seq<bool>)
  {
    exists k :: 0 <= k < |views| && views[k]
  }

  /**
   * The effect `if (isInView && !hasEntered) setHasEntered(true)` replayed over
   * a sequence of renders.
   */
  method ReplayViews(views: seq<bool>) returns (hasEntered: bool, rises: nat)
    ensures hasEntered <==> EnteredAfter(views)
    ensures rises <= 1 && (rises == 1 <==> hasEntered)
  {
    hasEntered := false;
    rises := 0;
    var i := 0;
    while i < |views|
      invariant 0 <= i <= |views|
      invariant hasEntered <==> EnteredAfter(views[..i])
      invariant rises <= 1 && (rises == 1 <==> hasEntered)
    {
      if views[i] && !hasEntered {
        hasEntered := true;
        rises := rises + 1;
      }
      assert views[..i + 1] == views[..i] + [views[i]];
      i := i + 1;
    }
    assert views[..i] == views;
  }

  /** Once entered, always entered: later renders cannot undo the latch. */
  lemma LatchStays(views: seq<bool>, later: seq<bool>)
    requires EnteredAfter(views)
    ensures EnteredAfter(views + later)
  {
    var k :| 0 <= k < |views| && views[k];
    assert (views + later)[k];
  }

  /** The typing terminal of one section. `next` is the interval's local `currentIndex`. */
  class TerminalCommand {
    const command: string
    var isVisible: bool
    var displayedText: string
    var next: nat
    var intervalRunning: bool
    var showCursor: bool
    var cursorHideScheduled: bool

    /** The text on screen is always a prefix of the command; while typing, it is the prefix before `next`. */
    ghost predicate Valid()
      reads this
    {
      displayedText <= command &&
      (intervalRunning ==>
         isVisible && next <= |command| + 1 && displayedText == command[..if next == 0 then 0 else next - 1]) &&
      (!isVisible ==> displayedText == "" && !intervalRunning) &&
      (isVisible && !intervalRunning ==> displayedText == command && (cursorHideScheduled || !showCursor))
    }

    constructor (command: string)
      ensures Valid() && this.command == command && !isVisible && showCursor
    {
      this.command := command;
      isVisible := false;
      displayedText := "";
      next := 0;
      intervalRunning := false;
      showCursor := true;
      cursorHideScheduled := false;
    }

    /** `isVisible` turns true: the effect starts a fresh interval at index 0. */
    method Show()
      requires Valid() && !isVisible
      modifies this
      ensures Valid() && isVisible && intervalRunning && next == 0 && displayedText == ""
      ensures showCursor == old(showCursor)
    {
      isVisible := true;
      next := 0;
      intervalRunning := true;
    }

    /** `isVisible` turns false: the cleanup clears the interval and the effect empties the text. */
    method Hide()
      requires Valid()
      modifies this
      ensures Valid() && !isVisible && !intervalRunning && displayedText == ""
    {
      isVisible := false;
      intervalRunning := false;
      displayedText := "";
    }

    /** One 50 ms tick: show one more character, or stop and schedule hiding the cursor. */
    method Tick()
      requires Valid() && intervalRunning
      modifies this
      ensures Valid()
      ensures old(next) <= |command| ==> displayedText == command[..old(next)] && next == old(next) + 1 && intervalRunning
      ensures old(next) > |command| ==> !intervalRunning && displayedText == command && cursorHideScheduled
    {
      if next <= |command| {
        displayedText := command[..next];
        next := next + 1;
      } else {
        intervalRunning := false;
        cursorHideScheduled := true;
        assert displayedText == command[..|command|] == command;
      }
    }

    /** The 500 ms timeout that hides the cursor (it is never cleared). */
    method HideCursor()
      requires Valid() && cursorHideScheduled
      modifies this
      ensures Valid() && !showCursor && !cursorHideScheduled
      ensures displayedText == old(displayedText) && isVisible == old(isVisible)
    {
      showCursor := false;
      cursorHideScheduled := false;
    }
  }

  /** The frames the terminal shows while typing `command`: one per tick, each one character longer. */
  method TypeOut(command: string) returns (frames: seq<string>)
    ensures |frames| == |command| + 1
    ensures frames[0] == "" && frames[|command|] == command
    ensures forall k :: 0 <= k < |frames| ==> frames[k] <= command && |frames[k]| == k
  {
    var t := new TerminalCommand(command);
    t.Show();
    frames := [];
    while t.intervalRunning && t.next <= |command|
      invariant t.Valid() && t.isVisible && t.command == command
      invariant t.intervalRunning && t.next == |frames| <= |command| + 1
      invariant forall k :: 0 <= k < |frames| ==> frames[k] == command[..k]
      decreases |command| + 1 - t.next
      modifies t
    {
      t.Tick();
      frames := frames + [t.displayedText];
    }
  }

  const BarStep: real := 30.0

  datatype Status = Compiling | Complete

  /** The compilation bar of a section. */
  class CompilationBar {
    var isVisible: bool
    var progress: real
    var status: Status
    var intervalRunning: bool

    /** Progress stays in [0, 130); "complete" only ever shows with progress at exactly 100 and the interval stopped. */
    ghost predicate Valid()
      reads this
    {
      0.0 <= progress < Full + BarStep &&
      (status == Complete ==> progress == Full && !intervalRunning && isVisible) &&
      (intervalRunning ==> isVisible && status == Compiling) &&
      (!isVisible ==> progress == 0.0 && status == Compiling)
    }

    constructor ()
      ensures Valid() && !isVisible && progress == 0.0 && status == Compiling
    {
      isVisible := false;
      progress := 0.0;
      status := Compiling;
      intervalRunning := false;
    }

    /** Becoming visible starts the interval. */
    method Show()
      requires Valid() && !isVisible
      modifies this
      ensures Valid() && isVisible && intervalRunning && progress == 0.0
    {
      isVisible := true;
      intervalRunning := true;
    }

    /** Becoming invisible clears the interval and resets progress and status. */
    method Hide()
      requires Valid()
      modifies this
      ensures Valid() && !isVisible && progress == 0.0 && status == Compiling && !intervalRunning
    {
      isVisible := false;
      intervalRunning := false;
      progress := 0.0;
      status := Compiling;
    }

    /** One 100 ms tick with `Math.random()` = `draw`. */
    method Tick(draw: real)
      requires Valid() && intervalRunning && 0.0 <= draw < 1.0
      modifies this
      ensures Valid()
      ensures old(progress) >= Full ==> progress == Full && status == Complete && !intervalRunning
      ensures old(progress) < Full ==> old(progress) <= progress < old(progress) + BarStep && status == Compiling
      ensures Shown(progress) >= Shown(old(progress))
    {
      if progress >= Full {
        intervalRunning := false;
        status := Complete;
        progress := Full;
      } else {
        progress := progress + draw * BarStep;
      }
    }

    /** The percentage shown beside the label. */
    function ShownPercent(): (p: int)
      reads this
      requires Valid()
      ensures 0 <= p <= 100
      ensures status == Complete ==> p == 100
    {
      PercentInRange(progress);
      Percent(progress)
    }
  }

  /** The bar's caption: `[OK] … loaded` once complete, `[...] Loading …...` before. */
  function BarCaption(status: Status, sectionName: string): (caption: string)
    ensures |caption| > 4 && caption[0] == '['
    ensures caption[1] == 'O' <==> status == Complete
  {
    match status
    case Complete => "[OK] " + sectionName + " loaded"
    case Compiling => "[...] Loading " + sectionName + "..."
  }
}
