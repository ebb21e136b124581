/**
 * The loading screen and the loading flag of the application shell
 * (src/App.jsx): a 100 ms interval adds a random amount below 15 to
 * `progress` until a tick finds it at 100 or more, which pins it to 100,
 * stops the interval and calls `onComplete` 500 ms later.
 */
module Loading {

  const Full: real := 100.0
  const MaxStep: real := 15.0

  /** The updater passed to `setProgress` on one tick; `draw` is `Math.random()`. */
  function Step(prev: real, draw: real): (next: real)
    requires 0.0 <= draw < 1.0
  {
    if prev >= Full then Full else prev + draw * MaxStep
  }

  /** `Math.min(progress, 100)`: the bar's width in percent. */
  function Shown(progress: real): (w: real)
    ensures w <= Full
    ensures progress <= Full ==> w == progress
  {
    if progress < Full then progress else Full
  }

  /** `Math.round(x)`: the nearest integer, halves rounded up. */
  function Round(x: real): int
  {
    (x + 0.5).Floor
  }

  /** The percentage printed under the bar. */
  function Percent(progress: real): int
  {
    Round(Shown(progress))
  }

  /** The printed percentage is between 0 and 100 for every reachable progress value. */
  lemma PercentInRange(progress: real)
    requires 0.0 <= progress
    ensures 0 <= Percent(progress) <= 100
  {
    var w := Shown(progress);
    assert 0.5 <= w + 0.5 < 101.0;
  }

  /**
   * One tick keeps progress in [0, 115), never moves the bar backwards, and a
   * tick that starts at 100 or more leaves exactly 100.
   */
  lemma StepInvariant(prev: real, draw: real)
    requires 0.0 <= draw < 1.0
    requires 0.0 <= prev < Full + MaxStep
    ensures 0.0 <= Step(prev, draw) < Full + MaxStep
    ensures Shown(Step(prev, draw)) >= Shown(prev)
    ensures prev >= Full ==> Step(prev, draw) == Full
    ensures prev < Full ==> prev <= Step(prev, draw) < prev + MaxStep
  {
  }

  /** The progress after a run of ticks, stopping at the first tick that finds 100 or more. */
  function Run(progress: real, draws: seq<real>): real
    requires forall k :: 0 <= k < |draws| ==> 0.0 <= draws[k] < 1.0
    decreases |draws|
  {
    if draws == [] then progress
    else if progress >= Full then Full
    else Run(Step(progress, draws[0]), draws[1..])
  }

  /**
   * The interval, tick by tick, from 0: returns the progress it leaves, the
   * number of ticks run and whether it cleared itself.
   */
  method RunInterval(draws: seq<real>) returns (progress: real, ticks: nat, stopped: bool)
    requires forall k :: 0 <= k < |draws| ==> 0.0 <= draws[k] < 1.0
    ensures progress == Run(0.0, draws)
    ensures stopped ==> progress == Full
    ensures stopped || ticks == |draws|
    ensures ticks <= |draws|
  {
    progress := 0.0;
    ticks := 0;
    stopped := false;
    while ticks < |draws| && !stopped
      invariant 0 <= ticks <= |draws|
      invariant stopped ==> progress == Full && Run(0.0, draws) == Full
      invariant !stopped ==> Run(progress, draws[ticks..]) == Run(0.0, draws)
    {
      assert draws[ticks..][1..] == draws[ticks + 1..];
      if progress >= Full {
        progress := Full;
        stopped := true;
      } else {
        progress := progress + draws[ticks] * MaxStep;
      }
      ticks := ticks + 1;
    }
  }

  /**
   * Over any run of ticks progress stays in [0, 115), the bar never moves
   * backwards, and progress grows by less than 15 per tick (there is no bound
   * on the number of ticks: a draw may be 0).
   */
  lemma {:induction false} RunBounds(progress: real, draws: seq<real>)
    requires forall k :: 0 <= k < |draws| ==> 0.0 <= draws[k] < 1.0
    requires 0.0 <= progress < Full + MaxStep
    ensures 0.0 <= Run(progress, draws) < Full + MaxStep
    ensures Shown(Run(progress, draws)) >= Shown(progress)
    ensures Run(progress, draws) <= progress + |draws| as real * MaxStep
    decreases |draws|
  {
    if draws != [] && progress < Full {
      var next := Step(progress, draws[0]);
      StepInvariant(progress, draws[0]);
      RunBounds(next, draws[1..]);
    }
  }

  /** The loading screen: the progress state, whether the interval still runs, and the pending `onComplete`. */
  class LoadingScreen {
    var progress: real
    var intervalRunning: bool
    var completeScheduled: bool

    /** Progress stays in [0, 115); once the interval is gone, progress is 100 and completion is on its way. */
    ghost predicate Valid()
      reads this
    {
      0.0 <= progress < Full + MaxStep &&
      (!intervalRunning ==> progress == Full && completeScheduled) &&
      (completeScheduled ==> !intervalRunning)
    }

    constructor ()
      ensures Valid() && progress == 0.0 && intervalRunning && !completeScheduled
    {
      progress := 0.0;
      intervalRunning := true;
      completeScheduled := false;
    }

    /** One interval tick with `Math.random()` = `draw`. */
    method Tick(draw: real)
      requires Valid() && intervalRunning && 0.0 <= draw < 1.0
      modifies this
      ensures Valid()
      ensures progress == Step(old(progress), draw)
      ensures Shown(progress) >= Shown(old(progress))
      ensures !intervalRunning <==> old(progress) >= Full
      ensures completeScheduled <==> old(progress) >= Full
    {
      StepInvariant(progress, draw);
      if progress >= Full {
        intervalRunning := false;
        completeScheduled := true;
        progress := Full;
      } else {
        progress := progress + draw * MaxStep;
      }
    }
  }

  /** The application shell's loading flag. */
  class AppShell {
    var isLoading: bool

    constructor ()
      ensures isLoading
    {
      isLoading := true;
    }

    /** `onComplete`: `setIsLoading(false)`; nothing sets the flag back. */
    method OnComplete()
      modifies this
      ensures !isLoading
    {
      isLoading := false;
    }

    /** The main content fades in only once loading is over. */
    function ContentOpacity(): (o: real)
      reads this
      ensures o == 0.0 <==> isLoading
      ensures o == 1.0 <==> !isLoading
    {
      if isLoading then 0.0 else 1.0
    }
  }
}
