/**
 * The smooth-scrolling hook of src/hooks/useLenis.js: the touch-device test,
 * the Lenis configuration, the debounced `ScrollTrigger.refresh` on resize,
 * and the setup/teardown pairing of the effect.
 */
module SmoothScroll {
  import opened Wrappers
  import opened Dom

  /** What `isTouchDevice` reads from the browser; `window` may be absent (server rendering). */
  datatype Browser = NoWindow | Window(hasOntouchstart: bool, maxTouchPoints: int, coarsePointer: bool)

  /** `'ontouchstart' in window || navigator.maxTouchPoints > 0 || matchMedia('(pointer: coarse)').matches`. */
  predicate IsTouchDevice(b: Browser)
  {
    b.Window? && (b.hasOntouchstart || b.maxTouchPoints > 0 || b.coarsePointer)
  }

  /** A device without any of the three touch signs, or without a window, is not a touch device. */
  lemma TouchSigns(b: Browser)
    ensures b.NoWindow? ==> !IsTouchDevice(b)
    ensures b.Window? && !b.hasOntouchstart && b.maxTouchPoints <= 0 && !b.coarsePointer ==> !IsTouchDevice(b)
    ensures b.Window? && b.maxTouchPoints > 0 ==> IsTouchDevice(b)
  {
  }

  /** The options given to `new Lenis` (the easing function is left out). */
  datatype LenisConfig = LenisConfig(
    duration: real, orientation: string, gestureOrientation: string, smoothWheel: bool,
    smoothTouch: bool, wheelMultiplier: real, touchMultiplier: real, infinite: bool,
    syncTouch: bool, syncTouchLerp: real)

  /** The configuration built by the effect. `isTouch` is computed but never read. */
  function ConfigFor(isTouch: bool): (c: LenisConfig)
    ensures !c.smoothTouch && !c.syncTouch && c.smoothWheel
  {
    LenisConfig(1.2, "vertical", "vertical", true, false, 1.0, 2.0, false, false, 0.075)
  }

  /** Touch and non-touch devices get the very same Lenis. */
  lemma SameConfigEverywhere(b: Browser)
    ensures ConfigFor(IsTouchDevice(b)) == ConfigFor(false) == ConfigFor(true)
  {
  }

  /** `lenis.raf(time * 1000)`: the ticker's seconds become milliseconds. */
  function RafTime(seconds: real): (ms: real)
    ensures ms / 1000.0 == seconds
  {
    seconds * 1000.0
  }

  const RefreshDelay: int := 200

  /** The resize handler of the window. */
  const ResizeListener := Listener("resize", 2)

  /** Whether the refresh scheduled by resize `i` runs: no later resize clears it first, and time reaches it. */
  predicate Fires(ts: seq<int>, end: int, i: nat)
    requires i < |ts|
  {
    if i + 1 < |ts| then ts[i + 1] >= ts[i] + RefreshDelay else end >= ts[i] + RefreshDelay
  }

  /** The times of the refreshes caused by the resizes from index `i` on, in order. */
  function RefreshesFrom(ts: seq<int>, end: int, i: nat): seq<int>
    decreases |ts| - i
  {
    if i >= |ts| then []
    else (if Fires(ts, end, i) then [ts[i] + RefreshDelay] else []) + RefreshesFrom(ts, end, i + 1)
  }

  /** Resize times in the order they happened. */
  predicate Ordered(ts: seq<int>)
  {
    forall i, j :: 0 <= i < j < |ts| ==> ts[i] <= ts[j]
  }

  /** A burst of resizes less than 200 ms apart. */
  predicate Burst(ts: seq<int>)
  {
    forall i :: 0 <= i < |ts| - 1 ==> ts[i + 1] < ts[i] + RefreshDelay
  }

  /** A burst yields a single refresh, 200 ms after its last resize. */
  lemma {:induction false} BurstRefreshesOnce(ts: seq<int>, end: int, i: nat)
    requires Burst(ts) && i < |ts| && end >= ts[|ts| - 1] + RefreshDelay
    ensures RefreshesFrom(ts, end, i) == [ts[|ts| - 1] + RefreshDelay]
    decreases |ts| - i
  {
    if i + 1 < |ts| {
      BurstRefreshesOnce(ts, end, i + 1);
    }
  }

  /** Every refresh happens exactly 200 ms after a resize, and there are never more refreshes than resizes. */
  lemma {:induction false} RefreshesFollowResizes(ts: seq<int>, end: int, i: nat)
    requires i <= |ts|
    ensures |RefreshesFrom(ts, end, i)| <= |ts| - i
    ensures forall k :: 0 <= k < |RefreshesFrom(ts, end, i)| ==>
              exists j :: i <= j < |ts| && RefreshesFrom(ts, end, i)[k] == ts[j] + RefreshDelay
    decreases |ts| - i
  {
    if i < |ts| {
      RefreshesFollowResizes(ts, end, i + 1);
      var rest := RefreshesFrom(ts, end, i + 1);
      var here := if Fires(ts, end, i) then [ts[i] + RefreshDelay] else [];
      assert RefreshesFrom(ts, end, i) == here + rest;
      forall k | 0 <= k < |here + rest|
        ensures exists j :: i <= j < |ts| && (here + rest)[k] == ts[j] + RefreshDelay
      {
        if k < |here| {
          assert (here + rest)[k] == ts[i] + RefreshDelay;
        } else {
          assert (here + rest)[k] == rest[k - |here|];
        }
      }
    }
  }

  /**
   * The hook's effect and what it holds: the Lenis instance, the ticker
   * callback, the window's listeners, the pending refresh (its due time) and
   * the refreshes run so far.
   */
  class LenisHook {
    var lenisAlive: bool
    var tickerHasCallback: bool
    var windowListeners: seq<Listener>
    var pendingRefresh: Option<int>
    var refreshes: seq<int>

    /** While the effect is set up, the resize listener is registered; otherwise no refresh is pending. */
    ghost predicate Valid()
      reads this
    {
      (lenisAlive ==> tickerHasCallback && ResizeListener in windowListeners) &&
      (!lenisAlive ==> pendingRefresh.None? && !tickerHasCallback)
    }

    constructor (windowListeners: seq<Listener>)
      requires ResizeListener !in windowListeners
      ensures Valid() && !lenisAlive && this.windowListeners == windowListeners && refreshes == []
    {
      lenisAlive := false;
      tickerHasCallback := false;
      this.windowListeners := windowListeners;
      pendingRefresh := None;
      refreshes := [];
    }

    /** The effect (run once per mount): Lenis, the ticker callback and the resize listener. */
    method Setup()
      requires Valid() && !lenisAlive
      modifies this
      ensures Valid() && lenisAlive && tickerHasCallback && pendingRefresh.None?
      ensures windowListeners == AddListener(old(windowListeners), ResizeListener)
      ensures refreshes == old(refreshes)
    {
      lenisAlive := true;
      tickerHasCallback := true;
      windowListeners := AddListener(windowListeners, ResizeListener);
    }

    /** `handleResize` at time `t`: the pending refresh is cancelled and a new one is due 200 ms later. */
    method HandleResize(t: int)
      requires Valid() && lenisAlive
      modifies this
      ensures Valid() && pendingRefresh == Some(t + RefreshDelay)
      ensures refreshes == old(refreshes) && windowListeners == old(windowListeners) && lenisAlive
    {
      pendingRefresh := Some(t + RefreshDelay);
    }

    /** The pending timeout runs `ScrollTrigger.refresh()`. */
    method RunRefresh()
      requires Valid() && pendingRefresh.Some?
      modifies this
      ensures Valid() && pendingRefresh.None? && refreshes == old(refreshes) + [old(pendingRefresh).value]
      ensures windowListeners == old(windowListeners) && lenisAlive == old(lenisAlive)
    {
      refreshes := refreshes + [pendingRefresh.value];
      pendingRefresh := None;
    }

    /** Time passes until `now`: the pending timeout runs if it is due by then. */
    method Settle(now: int)
      requires Valid() && lenisAlive && pendingRefresh.Some?
      modifies this
      ensures Valid() && lenisAlive && windowListeners == old(windowListeners)
      ensures old(pendingRefresh).value <= now ==> pendingRefresh.None? && refreshes == old(refreshes) + [old(pendingRefresh).value]
      ensures now < old(pendingRefresh).value ==> pendingRefresh == old(pendingRefresh) && refreshes == old(refreshes)
    {
      if pendingRefresh.value <= now {
        RunRefresh();
      }
    }

    /** The cleanup: the pending timeout, Lenis, the ticker callback and the listener all go. */
    method Teardown()
      requires Valid() && lenisAlive
      modifies this
      ensures Valid() && !lenisAlive && !tickerHasCallback && pendingRefresh.None?
      ensures windowListeners == RemoveListener(old(windowListeners), ResizeListener)
      ensures refreshes == old(refreshes)
    {
      pendingRefresh := None;
      lenisAlive := false;
      tickerHasCallback := false;
      windowListeners := RemoveListener(windowListeners, ResizeListener);
    }
  }

  /** Settling the timeout of resize `i` adds exactly what `RefreshesFrom` counts for it. */
  lemma SettleStep(ts: seq<int>, end: int, i: nat, before: seq<int>, after: seq<int>)
    requires i < |ts|
    requires Fires(ts, end, i) ==> after == before + [ts[i] + RefreshDelay]
    requires !Fires(ts, end, i) ==> after == before
    ensures after + RefreshesFrom(ts, end, i + 1) == before + RefreshesFrom(ts, end, i)
  {
    var here := if Fires(ts, end, i) then [ts[i] + RefreshDelay] else [];
    assert RefreshesFrom(ts, end, i) == here + RefreshesFrom(ts, end, i + 1);
    assert after == before + here;
    assert (before + here) + RefreshesFrom(ts, end, i + 1) == before + (here + RefreshesFrom(ts, end, i + 1));
  }

  /**
   * The resize at `ts[i]`: the timeout of the previous resize runs first if
   * it fell due by then, and the new one is scheduled.
   */
  method ResizeAt(hook: LenisHook, ts: seq<int>, end: int, i: nat)
    requires i < |ts| && hook.Valid() && hook.lenisAlive
    requires i == 0 ==> hook.pendingRefresh.None?
    requires i > 0 ==> hook.pendingRefresh == Some(ts[i - 1] + RefreshDelay)
    modifies hook
    ensures hook.Valid() && hook.lenisAlive && hook.windowListeners == old(hook.windowListeners)
    ensures hook.pendingRefresh == Some(ts[i] + RefreshDelay)
    ensures i == 0 ==> hook.refreshes == old(hook.refreshes)
    ensures i > 0 ==> hook.refreshes + RefreshesFrom(ts, end, i) == old(hook.refreshes) + RefreshesFrom(ts, end, i - 1)
  {
    if i > 0 {
      ghost var before := hook.refreshes;
      hook.Settle(ts[i]);
      SettleStep(ts, end, i - 1, before, hook.refreshes);
    }
    hook.HandleResize(ts[i]);
  }

  /**
   * Mount, a sequence of resizes at times `ts`, the timers that fall due up to
   * `end`, and unmount: the refreshes are exactly `RefreshesFrom(ts, end, 0)`
   * and the window is left with the listeners it had.
   */
  method ReplayResizes(ts: seq<int>, end: int, windowListeners: seq<Listener>)
    returns (refreshes: seq<int>, listenersAfter: seq<Listener>, pendingAfter: bool)
    requires ResizeListener !in windowListeners
    requires Ordered(ts) && (|ts| > 0 ==> end >= ts[|ts| - 1])
    ensures refreshes == RefreshesFrom(ts, end, 0)
    ensures listenersAfter == windowListeners && !pendingAfter
  {
    var hook := new LenisHook(windowListeners);
    hook.Setup();
    var i := 0;
    while i < |ts|
      invariant 0 <= i <= |ts|
      invariant hook.Valid() && hook.lenisAlive
      invariant hook.windowListeners == AddListener(windowListeners, ResizeListener)
      invariant i == 0 ==> hook.pendingRefresh.None? && hook.refreshes == []
      invariant i > 0 ==> hook.pendingRefresh == Some(ts[i - 1] + RefreshDelay) &&
                          hook.refreshes + RefreshesFrom(ts, end, i - 1) == RefreshesFrom(ts, end, 0)
      modifies hook
    {
      ResizeAt(hook, ts, end, i);
      i := i + 1;
    }
    if i > 0 {
      ghost var before := hook.refreshes;
      hook.Settle(end);
      SettleStep(ts, end, i - 1, before, hook.refreshes);
    }
    hook.Teardown();
    AddThenRemove(windowListeners, ResizeListener);
    refreshes := hook.refreshes;
    listenersAfter := hook.windowListeners;
    pendingAfter := hook.pendingRefresh.Some?;
  }
}
