/**
 * The pointer hook of src/hooks/useMousePosition.js: the mapping of client
 * coordinates to [-1, 1] (x to the right, y upwards), the ref it overwrites on
 * every move, its listener, and how src/App.jsx reads what it returns.
 */
module Pointer {
  import opened Wrappers
  import opened Dom

  datatype Position = Position(x: real, y: real)

  /** `x = clientX / innerWidth * 2 - 1`, `y = -(clientY / innerHeight) * 2 + 1`. */
  function Normalize(clientX: real, clientY: real, innerWidth: real, innerHeight: real): (p: Position)
    requires innerWidth > 0.0 && innerHeight > 0.0
  {
    Position(clientX / innerWidth * 2.0 - 1.0, -(clientY / innerHeight) * 2.0 + 1.0)
  }

  /** Back from the normalised position to client coordinates. */
  function ClientOf(p: Position, innerWidth: real, innerHeight: real): (client: (real, real))
  {
    ((p.x + 1.0) / 2.0 * innerWidth, (1.0 - p.y) / 2.0 * innerHeight)
  }

  /** The mapping loses nothing: the client point is recovered from the normalised one. */
  lemma NormalizeInverse(clientX: real, clientY: real, innerWidth: real, innerHeight: real)
    requires innerWidth > 0.0 && innerHeight > 0.0
    ensures ClientOf(Normalize(clientX, clientY, innerWidth, innerHeight), innerWidth, innerHeight) == (clientX, clientY)
  {
    Scaled(clientX, innerWidth);
    Scaled(clientY, innerHeight);
    var p := Normalize(clientX, clientY, innerWidth, innerHeight);
    assert (p.x + 1.0) / 2.0 == clientX / innerWidth;
    assert (1.0 - p.y) / 2.0 == clientY / innerHeight;
    var c := ClientOf(p, innerWidth, innerHeight);
    assert c.0 == clientX / innerWidth * innerWidth;
    assert c.1 == clientY / innerHeight * innerHeight;
  }

  /** Dividing by a positive width and multiplying back gives the coordinate again. */
  lemma Scaled(c: real, w: real)
    requires w > 0.0
    ensures c / w * w == c
    ensures 0.0 <= c <= w <==> 0.0 <= c / w <= 1.0
  {
    var q := c / w;
    assert q * w == c;
    if 0.0 <= q <= 1.0 {
      assert w - c == (1.0 - q) * w;
    }
    if 0.0 <= c <= w {
      assert (1.0 - q) * w == w - c;
    }
  }

  /** A point is inside the window exactly when both coordinates lie in [-1, 1]. */
  lemma NormalizeRange(clientX: real, clientY: real, innerWidth: real, innerHeight: real)
    requires innerWidth > 0.0 && innerHeight > 0.0
    ensures 0.0 <= clientX <= innerWidth <==> -1.0 <= Normalize(clientX, clientY, innerWidth, innerHeight).x <= 1.0
    ensures 0.0 <= clientY <= innerHeight <==> -1.0 <= Normalize(clientX, clientY, innerWidth, innerHeight).y <= 1.0
  {
    Scaled(clientX, innerWidth);
    Scaled(clientY, innerHeight);
  }

  /** The left edge is x = -1, the right edge x = 1, the top edge y = 1, the bottom edge y = -1, the centre (0, 0). */
  lemma NormalizeLandmarks(innerWidth: real, innerHeight: real, clientY: real, clientX: real)
    requires innerWidth > 0.0 && innerHeight > 0.0
    ensures Normalize(0.0, clientY, innerWidth, innerHeight).x == -1.0
    ensures Normalize(innerWidth, clientY, innerWidth, innerHeight).x == 1.0
    ensures Normalize(clientX, 0.0, innerWidth, innerHeight).y == 1.0
    ensures Normalize(clientX, innerHeight, innerWidth, innerHeight).y == -1.0
    ensures Normalize(innerWidth / 2.0, innerHeight / 2.0, innerWidth, innerHeight) == Position(0.0, 0.0)
  {
  }

  /** Moving right increases x, moving down decreases y. */
  lemma NormalizeMonotone(x1: real, x2: real, y1: real, y2: real, innerWidth: real, innerHeight: real)
    requires innerWidth > 0.0 && innerHeight > 0.0
    requires x1 < x2 && y1 < y2
    ensures Normalize(x1, y1, innerWidth, innerHeight).x < Normalize(x2, y2, innerWidth, innerHeight).x
    ensures Normalize(x1, y1, innerWidth, innerHeight).y > Normalize(x2, y2, innerWidth, innerHeight).y
  {
    assert x1 / innerWidth < x2 / innerWidth;
    assert y1 / innerHeight < y2 / innerHeight;
  }

  const MouseMoveListener := Listener("mousemove", 3)

  /** The hook: its ref, the window's listeners, and how many renders it has caused. */
  class MousePositionHook {
    var position: Position
    var windowListeners: seq<Listener>
    var renders: nat

    ghost predicate Valid()
      reads this
    {
      Distinct(windowListeners)
    }

    /** The ref starts at (0, 0). */
    constructor (windowListeners: seq<Listener>)
      requires Distinct(windowListeners)
      ensures Valid() && position == Position(0.0, 0.0) && this.windowListeners == windowListeners && renders == 0
    {
      position := Position(0.0, 0.0);
      this.windowListeners := windowListeners;
      renders := 0;
    }

    method Mount()
      requires Valid()
      modifies this
      ensures Valid() && windowListeners == AddListener(old(windowListeners), MouseMoveListener)
      ensures position == old(position) && renders == old(renders)
    {
      windowListeners := AddListener(windowListeners, MouseMoveListener);
    }

    /** A mouse move overwrites the ref; being a ref, it causes no render. */
    method OnMouseMove(clientX: real, clientY: real, innerWidth: real, innerHeight: real)
      requires Valid() && innerWidth > 0.0 && innerHeight > 0.0
      modifies this
      ensures Valid() && position == Normalize(clientX, clientY, innerWidth, innerHeight)
      ensures windowListeners == old(windowListeners) && renders == old(renders)
    {
      position := Normalize(clientX, clientY, innerWidth, innerHeight);
    }

    method Unmount()
      requires Valid()
      modifies this
      ensures Valid() && windowListeners == RemoveListener(old(windowListeners), MouseMoveListener)
      ensures position == old(position) && renders == old(renders)
    {
      windowListeners := RemoveListener(windowListeners, MouseMoveListener);
    }
  }

  /**
   * A mount, a series of moves inside the window and an unmount: the last
   * move is what the ref holds, within [-1, 1]², no render happened, and the
   * window keeps only the listeners it had.
   */
  method TrackMoves(xs: seq<real>, ys: seq<real>, innerWidth: real, innerHeight: real, windowListeners: seq<Listener>)
    returns (last: Position, renders: nat, listenersAfter: seq<Listener>)
    requires innerWidth > 0.0 && innerHeight > 0.0 && |xs| == |ys|
    requires forall k :: 0 <= k < |xs| ==> 0.0 <= xs[k] <= innerWidth && 0.0 <= ys[k] <= innerHeight
    requires Distinct(windowListeners) && MouseMoveListener !in windowListeners
    ensures -1.0 <= last.x <= 1.0 && -1.0 <= last.y <= 1.0
    ensures |xs| == 0 ==> last == Position(0.0, 0.0)
    ensures |xs| > 0 ==> last == Normalize(xs[|xs| - 1], ys[|ys| - 1], innerWidth, innerHeight)
    ensures renders == 0 && listenersAfter == windowListeners
  {
    var hook := new MousePositionHook(windowListeners);
    hook.Mount();
    var i := 0;
    while i < |xs|
      invariant 0 <= i <= |xs|
      invariant hook.Valid() && hook.renders == 0
      invariant hook.windowListeners == AddListener(windowListeners, MouseMoveListener)
      invariant i == 0 ==> hook.position == Position(0.0, 0.0)
      invariant i > 0 ==> hook.position == Normalize(xs[i - 1], ys[i - 1], innerWidth, innerHeight)
      invariant -1.0 <= hook.position.x <= 1.0 && -1.0 <= hook.position.y <= 1.0
      modifies hook
    {
      NormalizeRange(xs[i], ys[i], innerWidth, innerHeight);
      hook.OnMouseMove(xs[i], ys[i], innerWidth, innerHeight);
      i := i + 1;
    }
    hook.Unmount();
    AddThenRemove(windowListeners, MouseMoveListener);
    last := hook.position;
    renders := hook.renders;
    listenersAfter := hook.windowListeners;
  }

  /** The object the hook returns: `{ normalizedPositionRef }`, keyed by property name. */
  function HookResult(ref: Position): (r: map<string, Position>)
    ensures r.Keys == {"normalizedPositionRef"}
  {
    map["normalizedPositionRef" := ref]
  }

  /** `const { normalizedPosition } = useMousePosition()` in the application shell; None is `undefined`. */
  function ScenePropAsWritten(result: map<string, Position>): Option<Position>
  {
    if "normalizedPosition" in result then Some(result["normalizedPosition"]) else None
  }

  /** The destructuring with the name the hook actually returns. */
  function SceneProp(result: map<string, Position>): (p: Option<Position>)
    ensures "normalizedPositionRef" in result ==> p == Some(result["normalizedPositionRef"])
  {
    if "normalizedPositionRef" in result then Some(result["normalizedPositionRef"]) else None
  }

  /** As written, the scene always receives `undefined`; with the returned name it receives the ref. */
  lemma ScenePropUndefined(ref: Position)
    ensures ScenePropAsWritten(HookResult(ref)).None?
    ensures SceneProp(HookResult(ref)) == Some(ref)
  {
    assert "normalizedPosition" !in HookResult(ref);
  }
}
