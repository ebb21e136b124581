/**
 * The canvas background of src/components/ui/ParticleBackground.jsx: the
 * particles (spawned at random, moved each frame, pushed away from the
 * pointer, wrapped at the edges), the connections drawn between close ones,
 * the slowly shifting background colour, and the effect's listeners.
 * `Math.random()` values are given as draws in [0, 1); the square root,
 * `atan2`, `sin` and `cos` of a frame are given as their results.
 */
module Particles {
  import opened Wrappers
  import opened Dom
  import opened Pairs
  import Loading

  /** `innerWidth < 768 || 'ontouchstart' in window || maxTouchPoints > 0`. */
  predicate IsMobile(innerWidth: int, hasOntouchstart: bool, maxTouchPoints: int)
  {
    innerWidth < 768 || hasOntouchstart || maxTouchPoints > 0
  }

  /** The number of particles: fewer on mobile. */
  function ParticleCount(mobile: bool): nat
  {
    if mobile then 15 else 40
  }

  /** The seven `Math.random()` values `reset` consumes. */
  datatype Draw = Draw(x: real, y: real, size: real, speedX: real, speedY: real, opacity: real, violet: real)

  predicate Unit(r: real)
  {
    0.0 <= r < 1.0
  }

  predicate Random(d: Draw)
  {
    Unit(d.x) && Unit(d.y) && Unit(d.size) && Unit(d.speedX) && Unit(d.speedY) && Unit(d.opacity) && Unit(d.violet)
  }

  /** What `reset` assigns to a particle. */
  datatype Spawn = Spawn(x: real, y: real, size: real, speedX: real, speedY: real, opacity: real, isViolet: bool)

  /** A draw in [0, 1) scaled to a non-negative length stays within it, strictly below when it is positive. */
  lemma Scale(r: real, length: real)
    requires Unit(r) && length >= 0.0
    ensures 0.0 <= r * length <= length
    ensures length > 0.0 ==> r * length < length
  {
    assert length - r * length == (1.0 - r) * length;
  }

  /** `Math.random() * length`. */
  function Scaled(r: real, length: real): (v: real)
    requires Unit(r) && length >= 0.0
    ensures 0.0 <= v <= length
    ensures length > 0.0 ==> v < length
  {
    Scale(r, length);
    r * length
  }

  /** `reset()` on a canvas of the given size: the ranges its comments promise. */
  function Spawned(width: real, height: real, d: Draw): (s: Spawn)
    requires width >= 0.0 && height >= 0.0 && Random(d)
    ensures 0.0 <= s.x <= width && 0.0 <= s.y <= height
    ensures width > 0.0 ==> s.x < width
    ensures height > 0.0 ==> s.y < height
    ensures 1.5 <= s.size < 3.0
    ensures -0.15 <= s.speedX < 0.15 && -0.15 <= s.speedY < 0.15
    ensures 0.3 <= s.opacity < 0.5
  {
    Spawn(Scaled(d.x, width), Scaled(d.y, height), d.size * 1.5 + 1.5, (d.speedX - 0.5) * 0.3, (d.speedY - 0.5) * 0.3,
          d.opacity * 0.2 + 0.3, d.violet > 0.5)
  }

  /** The edge checks of `update`: past the near edge to the far one, past the far edge to 0. */
  function Wrap(v: real, limit: real): (r: real)
    requires limit >= 0.0
    ensures 0.0 <= r <= limit
    ensures 0.0 <= v <= limit ==> r == v
    ensures v < 0.0 ==> r == limit
    ensures v > limit ==> r == 0.0
  {
    if v < 0.0 then limit else if v > limit then 0.0 else v
  }

  /** Wrapping is idempotent: a wrapped coordinate wraps to itself. */
  lemma WrapIdempotent(v: real, limit: real)
    requires limit >= 0.0
    ensures Wrap(Wrap(v, limit), limit) == Wrap(v, limit)
  {
  }

  const MaxRepelDistance: real := 100.0

  /** What a frame computes from the pointer: its distance and the direction (cosine, sine) away from it. */
  datatype Sense = Sense(distance: real, cos: real, sin: real)

  predicate Sensible(s: Sense)
  {
    s.distance >= 0.0 && -1.0 <= s.cos <= 1.0 && -1.0 <= s.sin <= 1.0
  }

  /** Whether a particle is pushed: the pointer is over the page, the device is not mobile, and it is within 100 px. */
  predicate Repels(pointerKnown: bool, mobile: bool, distance: real)
  {
    pointerKnown && !mobile && distance < MaxRepelDistance
  }

  /** `(maxDistance - distance) / maxDistance`: 1 at the pointer, falling towards 0 at 100 px. */
  function Force(distance: real): (f: real)
    requires 0.0 <= distance < MaxRepelDistance
    ensures 0.0 < f <= 1.0
  {
    (MaxRepelDistance - distance) / MaxRepelDistance
  }

  /** The push along one axis: `direction * force * 0.5`, with `force = (100 - distance) / 100`. */
  function Push(pointerKnown: bool, mobile: bool, distance: real, direction: real): (p: real)
    requires distance >= 0.0 && -1.0 <= direction <= 1.0
    ensures !Repels(pointerKnown, mobile, distance) ==> p == 0.0
    ensures -0.5 <= p <= 0.5
    ensures Repels(pointerKnown, mobile, distance) && direction != 0.0 ==> p != 0.0
  {
    if Repels(pointerKnown, mobile, distance) then
      var force := Force(distance);
      PushBounds(force, direction);
      Nudge(direction, force)
    else 0.0
  }

  /** `direction * force * 0.5`. */
  function Nudge(direction: real, force: real): real
  {
    direction * force * 0.5
  }

  lemma PushBounds(force: real, direction: real)
    requires 0.0 < force <= 1.0 && -1.0 <= direction <= 1.0
    ensures -0.5 <= Nudge(direction, force) <= 0.5
    ensures direction != 0.0 ==> Nudge(direction, force) != 0.0
  {
    if direction >= 0.0 {
      assert direction * force <= direction;
    } else {
      assert direction * force >= direction;
    }
  }

  /** The closer the pointer, the harder the push. */
  lemma PushGrowsCloser(d1: real, d2: real, direction: real)
    requires 0.0 <= d1 < d2 < MaxRepelDistance && 0.0 < direction <= 1.0
    ensures Push(true, false, d1, direction) > Push(true, false, d2, direction)
  {
    assert Force(d1) > Force(d2);
    NudgeStrict(direction, Force(d1), Force(d2));
  }

  /** A positive direction pushes harder under a stronger force. */
  lemma NudgeStrict(c: real, a: real, b: real)
    requires c > 0.0 && a > b
    ensures Nudge(c, a) > Nudge(c, b)
  {
    var x := c * a;
    var y := c * b;
    assert x - y == c * (a - b);
    assert x > y;
  }

  /** A particle: its position moves, the rest is fixed by `reset`. */
  class Particle {
    var x: real
    var y: real
    const size: real
    const speedX: real
    const speedY: real
    const opacity: real
    const isViolet: bool

    function State(): Spawn
      reads this
    {
      Spawn(x, y, size, speedX, speedY, opacity, isViolet)
    }

    predicate InBounds(width: real, height: real)
      reads this
    {
      0.0 <= x <= width && 0.0 <= y <= height
    }

    /** `new Particle()`, whose constructor is a call of `reset()`. */
    constructor (width: real, height: real, d: Draw)
      requires width >= 0.0 && height >= 0.0 && Random(d)
      ensures State() == Spawned(width, height, d) && InBounds(width, height)
    {
      var s := Spawned(width, height, d);
      x := s.x;
      y := s.y;
      size := s.size;
      speedX := s.speedX;
      speedY := s.speedY;
      opacity := s.opacity;
      isViolet := s.isViolet;
    }

    /** `update()`: move, maybe get pushed away from the pointer, then wrap at the edges. */
    method Update(width: real, height: real, pointerKnown: bool, mobile: bool, sense: Sense)
      requires width >= 0.0 && height >= 0.0 && Sensible(sense)
      modifies this
      ensures x == Wrap(old(x) + speedX + Push(pointerKnown, mobile, sense.distance, sense.cos), width)
      ensures y == Wrap(old(y) + speedY + Push(pointerKnown, mobile, sense.distance, sense.sin), height)
      ensures InBounds(width, height)
    {
      x := x + speedX;
      y := y + speedY;
      if pointerKnown && !mobile {
        if sense.distance < MaxRepelDistance {
          var force := Force(sense.distance);
          x := x + Nudge(sense.cos, force);
          y := y + Nudge(sense.sin, force);
        }
      }
      if x < 0.0 {
        x := width;
      }
      if x > width {
        x := 0.0;
      }
      if y < 0.0 {
        y := height;
      }
      if y > height {
        y := 0.0;
      }
    }
  }

  /** `mobile ? 80 : 120`, read only by the connection pass, which never runs on mobile. */
  function MaxLinkDistance(mobile: bool): real
  {
    if mobile then 80.0 else 120.0
  }

  /** `(1 - distance / maxDistance) * 0.1`: a line fades out as its particles part. */
  function LineOpacity(distance: real, max: real): (o: real)
    requires 0.0 <= distance < max
    ensures 0.0 < o <= 0.1
  {
    assert distance / max * max == distance;
    (1.0 - distance / max) * 0.1
  }

  /** Every line drawn has an opacity in (0, 0.1], and closer pairs get stronger lines. */
  lemma LineOpacities(n: nat, dist: (nat, nat) -> real, max: real, d1: real, d2: real)
    requires forall i: nat, j: nat :: dist(i, j) >= 0.0
    requires 0.0 <= d1 < d2 < max
    ensures forall p :: p in Connections(n, dist, max) ==> 0.0 < LineOpacity(dist(p.i, p.j), max) <= 0.1
    ensures LineOpacity(d1, max) > LineOpacity(d2, max)
  {
    assert d1 / max < d2 / max;
  }

  datatype Rgb = Rgb(r: int, g: int, b: int)

  /** `Math.sin(phase) * 0.5 + 0.5`. */
  function Shift(sinPhase: real): (s: real)
    requires -1.0 <= sinPhase <= 1.0
    ensures 0.0 <= s <= 1.0
  {
    sinPhase * 0.5 + 0.5
  }

  /** The outer colour of the gradient, between #0a0a0a and #1a1a2e. */
  function Background(shift: real): (c: Rgb)
    requires 0.0 <= shift <= 1.0
    ensures 10 <= c.r <= 26 && c.g == c.r && 10 <= c.b <= 46
  {
    Rgb(Loading.Round(10.0 + shift * 16.0), Loading.Round(10.0 + shift * 16.0), Loading.Round(10.0 + shift * 36.0))
  }

  /** The centre colour of the gradient: a little lighter and bluer. */
  function Centre(c: Rgb): (inner: Rgb)
    ensures inner.r - c.r == 5 && inner.g - c.g == 5 && inner.b - c.b == 10
  {
    Rgb(c.r + 5, c.g + 5, c.b + 10)
  }

  /** The two ends are exactly #0a0a0a and #1a1a2e, every channel grows with the shift, and both stops are valid colours. */
  lemma BackgroundRange(s1: real, s2: real)
    requires 0.0 <= s1 <= s2 <= 1.0
    ensures Background(0.0) == Rgb(10, 10, 10) && Background(1.0) == Rgb(26, 26, 46)
    ensures Background(s1).r <= Background(s2).r && Background(s1).b <= Background(s2).b
    ensures 0 <= Centre(Background(s1)).b < 256 && 0 <= Centre(Background(s1)).r < 256
  {
    assert 10.0 + s1 * 16.0 <= 10.0 + s2 * 16.0;
    assert 10.0 + s1 * 36.0 <= 10.0 + s2 * 36.0;
  }

  const ResizeListener := Listener("resize", 4)
  const MouseMoveListener := Listener("mousemove", 5)
  const MouseLeaveListener := Listener("mouseleave", 6)

  /**
   * The component's effect and its refs: the canvas size, the particles,
   * the pointer (`None` for `{ x: null, y: null }`), the gradient phase,
   * whether an animation frame is requested, and the window's listeners.
   */
  class ParticleBackground {
    var mounted: bool
    var mobile: bool
    var width: real
    var height: real
    var particles: seq<Particle>
    var pointer: Option<(real, real)>
    var phase: real
    var frameRequested: bool
    var windowListeners: seq<Listener>

    /** The particles are distinct objects, as many as the device calls for, and the listeners are in place while mounted. */
    ghost predicate Valid()
      reads this
    {
      width >= 0.0 && height >= 0.0 &&
      (forall a, b :: 0 <= a < b < |particles| ==> particles[a] != particles[b]) &&
      Distinct(windowListeners) &&
      (mounted ==> |particles| == ParticleCount(mobile) &&
                   ResizeListener in windowListeners && MouseMoveListener in windowListeners &&
                   MouseLeaveListener in windowListeners) &&
      (!mounted ==> !frameRequested)
    }

    /** Every particle is on the canvas. */
    ghost predicate Placed()
      reads this, particles
    {
      forall k :: 0 <= k < |particles| ==> particles[k].InBounds(width, height)
    }

    constructor (windowListeners: seq<Listener>)
      requires Distinct(windowListeners)
      ensures Valid() && Placed() && !mounted && particles == [] && pointer.None? && phase == 0.0
      ensures this.windowListeners == windowListeners
    {
      mounted := false;
      mobile := false;
      width := 0.0;
      height := 0.0;
      particles := [];
      pointer := None;
      phase := 0.0;
      frameRequested := false;
      this.windowListeners := windowListeners;
    }

    /** `initParticles()`: the list is rebuilt from scratch with fresh particles. */
    method InitParticles(draws: seq<Draw>)
      requires width >= 0.0 && height >= 0.0
      requires |draws| >= ParticleCount(mobile) && forall k :: 0 <= k < |draws| ==> Random(draws[k])
      modifies this
      ensures mounted == old(mounted) && mobile == old(mobile) && width == old(width) && height == old(height)
      ensures pointer == old(pointer) && phase == old(phase) && frameRequested == old(frameRequested)
      ensures windowListeners == old(windowListeners)
      ensures |particles| == ParticleCount(mobile)
      ensures forall k :: 0 <= k < |particles| ==> fresh(particles[k]) && particles[k].State() == Spawned(width, height, draws[k])
      ensures forall a, b :: 0 <= a < b < |particles| ==> particles[a] != particles[b]
      ensures Placed()
    {
      particles := [];
      var i := 0;
      while i < ParticleCount(mobile)
        invariant mounted == old(mounted) && mobile == old(mobile) && width == old(width) && height == old(height)
        invariant pointer == old(pointer) && phase == old(phase) && frameRequested == old(frameRequested)
        invariant windowListeners == old(windowListeners)
        invariant 0 <= i <= ParticleCount(mobile) && |particles| == i
        invariant forall k :: 0 <= k < i ==> fresh(particles[k]) && particles[k].State() == Spawned(width, height, draws[k])
        invariant forall k :: 0 <= k < i ==> particles[k].InBounds(width, height)
        invariant forall a, b :: 0 <= a < b < i ==> particles[a] != particles[b]
      {
        var p := new Particle(width, height, draws[i]);
        particles := particles + [p];
        i := i + 1;
      }
    }

    /** `resizeCanvas()`: the canvas takes the window's size and the particles are spawned again. */
    method Resize(innerWidth: nat, innerHeight: nat, draws: seq<Draw>)
      requires Valid()
      requires |draws| >= ParticleCount(mobile) && forall k :: 0 <= k < |draws| ==> Random(draws[k])
      modifies this
      ensures mounted == old(mounted) && mobile == old(mobile) && pointer == old(pointer) && phase == old(phase)
      ensures frameRequested == old(frameRequested) && windowListeners == old(windowListeners)
      ensures Valid() && Placed()
      ensures width == innerWidth as real && height == innerHeight as real
      ensures |particles| == ParticleCount(mobile)
      ensures forall k :: 0 <= k < |particles| ==> fresh(particles[k]) && particles[k].State() == Spawned(width, height, draws[k])
    {
      width := innerWidth as real;
      height := innerHeight as real;
      InitParticles(draws);
    }

    /**
     * The effect: detect a mobile device, and with a canvas, size it, spawn
     * the particles and add the three window listeners. Its first `animate()`
     * is the first call of `Frame`.
     */
    method Mount(hasCanvas: bool, innerWidth: nat, innerHeight: nat, hasOntouchstart: bool, maxTouchPoints: int,
                 draws: seq<Draw>)
      requires Valid() && !mounted
      requires ResizeListener !in windowListeners && MouseMoveListener !in windowListeners
      requires MouseLeaveListener !in windowListeners
      requires |draws| >= ParticleCount(IsMobile(innerWidth, hasOntouchstart, maxTouchPoints))
      requires forall k :: 0 <= k < |draws| ==> Random(draws[k])
      modifies this
      ensures Valid() && mobile == IsMobile(innerWidth, hasOntouchstart, maxTouchPoints)
      ensures !hasCanvas ==> !mounted && windowListeners == old(windowListeners)
      ensures hasCanvas ==> mounted && Placed() && |particles| == ParticleCount(mobile)
      ensures hasCanvas ==> forall k :: 0 <= k < |particles| ==> fresh(particles[k])
      ensures hasCanvas ==> windowListeners == Registered(old(windowListeners))
      ensures pointer == old(pointer) && !frameRequested
    {
      mobile := IsMobile(innerWidth, hasOntouchstart, maxTouchPoints);
      if hasCanvas {
        Resize(innerWidth, innerHeight, draws);
        windowListeners := AddListener(windowListeners, ResizeListener);
        windowListeners := AddListener(windowListeners, MouseMoveListener);
        windowListeners := AddListener(windowListeners, MouseLeaveListener);
        mounted := true;
      }
    }

    /** `handleMouseMove`. */
    method MouseMove(clientX: real, clientY: real)
      requires Valid()
      modifies this
      ensures Valid() && pointer == Some((clientX, clientY))
      ensures particles == old(particles) && width == old(width) && height == old(height)
      ensures mounted == old(mounted) && mobile == old(mobile) && phase == old(phase)
      ensures frameRequested == old(frameRequested) && windowListeners == old(windowListeners)
    {
      pointer := Some((clientX, clientY));
    }

    /** `handleMouseLeave`: the pointer is forgotten, so nothing is pushed until it comes back. */
    method MouseLeave()
      requires Valid()
      modifies this
      ensures Valid() && pointer.None?
      ensures particles == old(particles) && width == old(width) && height == old(height)
      ensures mounted == old(mounted) && mobile == old(mobile) && phase == old(phase)
      ensures frameRequested == old(frameRequested) && windowListeners == old(windowListeners)
    {
      pointer := None;
    }

    /**
     * `animate()`: the phase advances, the connections are computed (not on
     * mobile), every particle is updated, and the next frame is requested.
     * `sinPhase` is `Math.sin` of the new phase, `dist` the distance between
     * two particles, and `senses[k]` what particle `k` measures of the pointer.
     */
    method Frame(sinPhase: real, dist: (nat, nat) -> real, senses: seq<Sense>) returns (background: Rgb, lines: seq<Pair>)
      requires Valid() && mounted && Placed()
      requires -1.0 <= sinPhase <= 1.0
      requires |senses| == |particles| && forall k :: 0 <= k < |senses| ==> Sensible(senses[k])
      modifies this, particles
      ensures particles == old(particles) && width == old(width) && height == old(height) && pointer == old(pointer)
      ensures mounted == old(mounted) && mobile == old(mobile) && windowListeners == old(windowListeners)
      ensures Valid() && Placed() && frameRequested
      ensures phase == old(phase) + 0.002 && background == Background(Shift(sinPhase))
      ensures mobile ==> lines == []
      ensures !mobile ==> lines == Connections(|particles|, dist, 120.0)
      ensures forall k :: 0 <= k < |particles| ==>
                Moved(particles[k], old(particles[k].x), old(particles[k].y), width, height, pointer.Some?, mobile, senses[k])
    {
      phase := phase + 0.002;
      background := Background(Shift(sinPhase));
      lines := [];
      if !mobile {
        lines := Scan(|particles|, dist, MaxLinkDistance(mobile));
      }
      UpdateAll(particles, width, height, pointer.Some?, mobile, senses);
      frameRequested := true;
    }

    /** The cleanup: the pending frame is cancelled and the three listeners are removed. */
    method Cleanup()
      requires Valid() && mounted
      modifies this
      ensures Valid() && !mounted && !frameRequested
      ensures windowListeners == Unregistered(old(windowListeners))
      ensures particles == old(particles) && pointer == old(pointer)
    {
      frameRequested := false;
      windowListeners := RemoveListener(windowListeners, ResizeListener);
      windowListeners := RemoveListener(windowListeners, MouseMoveListener);
      windowListeners := RemoveListener(windowListeners, MouseLeaveListener);
      mounted := false;
    }
  }

  /** Particle `p`, which was at (`x`, `y`), took one `update()` step with the pointer as sensed. */
  ghost predicate Moved(p: Particle, x: real, y: real, width: real, height: real, pointerKnown: bool, mobile: bool,
                        sense: Sense)
    reads p
    requires width >= 0.0 && height >= 0.0 && Sensible(sense)
  {
    p.x == Wrap(x + p.speedX + Push(pointerKnown, mobile, sense.distance, sense.cos), width) &&
    p.y == Wrap(y + p.speedY + Push(pointerKnown, mobile, sense.distance, sense.sin), height) &&
    p.InBounds(width, height)
  }

  /** `particlesRef.current.forEach(particle => particle.update())`. */
  method UpdateAll(particles: seq<Particle>, width: real, height: real, pointerKnown: bool, mobile: bool,
                   senses: seq<Sense>)
    requires width >= 0.0 && height >= 0.0
    requires forall a, b :: 0 <= a < b < |particles| ==> particles[a] != particles[b]
    requires |senses| == |particles| && forall k :: 0 <= k < |senses| ==> Sensible(senses[k])
    modifies particles
    ensures forall k :: 0 <= k < |particles| ==>
              Moved(particles[k], old(particles[k].x), old(particles[k].y), width, height, pointerKnown, mobile, senses[k])
  {
    var i := 0;
    while i < |particles|
      invariant 0 <= i <= |particles|
      invariant forall k :: 0 <= k < i ==>
                  Moved(particles[k], old(particles[k].x), old(particles[k].y), width, height, pointerKnown, mobile, senses[k])
      invariant forall k :: i <= k < |particles| ==> particles[k].x == old(particles[k].x) && particles[k].y == old(particles[k].y)
    {
      particles[i].Update(width, height, pointerKnown, mobile, senses[i]);
      i := i + 1;
    }
  }

  /** The three listeners of the effect, added in order. */
  function Registered(ls: seq<Listener>): seq<Listener>
  {
    AddListener(AddListener(AddListener(ls, ResizeListener), MouseMoveListener), MouseLeaveListener)
  }

  /** The three listeners of the effect, removed in order. */
  function Unregistered(ls: seq<Listener>): seq<Listener>
  {
    RemoveListener(RemoveListener(RemoveListener(ls, ResizeListener), MouseMoveListener), MouseLeaveListener)
  }

  /** Adding the three listeners and removing them again leaves the window as it was. */
  lemma ListenersRestored(ls: seq<Listener>)
    requires ResizeListener !in ls && MouseMoveListener !in ls && MouseLeaveListener !in ls
    ensures Unregistered(Registered(ls)) == ls
  {
    assert ResizeListener != MouseMoveListener && ResizeListener != MouseLeaveListener;
    assert MouseMoveListener != MouseLeaveListener;
    var a := AddListener(ls, ResizeListener);
    assert a == ls + [ResizeListener];
    var b := AddListener(a, MouseMoveListener);
    assert b == a + [MouseMoveListener];
    var c := AddListener(b, MouseLeaveListener);
    assert c == ls + [ResizeListener] + [MouseMoveListener, MouseLeaveListener];
    RemoveMiddle(ls, ResizeListener, [MouseMoveListener, MouseLeaveListener]);
    var d := RemoveListener(c, ResizeListener);
    assert d == ls + [MouseMoveListener] + [MouseLeaveListener];
    RemoveMiddle(ls, MouseMoveListener, [MouseLeaveListener]);
    RemoveLast(ls, MouseLeaveListener);
  }

  /** Removing a listener registered once, between others, keeps the others in order. */
  lemma {:induction false} RemoveMiddle(ls: seq<Listener>, l: Listener, rest: seq<Listener>)
    requires l !in ls && l !in rest
    ensures RemoveListener(ls + [l] + rest, l) == ls + rest
    decreases |ls|
  {
    if ls == [] {
      assert [l] + rest == [l] + rest;
      assert ([l] + rest)[1..] == rest;
      RemoveAbsent(rest, l);
    } else {
      assert (ls + [l] + rest)[1..] == ls[1..] + [l] + rest;
      RemoveMiddle(ls[1..], l, rest);
      assert [ls[0]] + (ls[1..] + rest) == ls + rest;
    }
  }

  /**
   * A whole lifetime on a page with a canvas: mount, `frames` animation
   * frames with the pointer over the page or gone, and unmount. Every frame
   * keeps every particle on the canvas, the particle count is the one for
   * the device, and the window is left with the listeners it had.
   */
  method Run(innerWidth: nat, innerHeight: nat, hasOntouchstart: bool, maxTouchPoints: int, draws: seq<Draw>,
             pointers: seq<Option<(real, real)>>, sinPhases: seq<real>, dist: (nat, nat) -> real,
             senses: seq<Sense>, windowListeners: seq<Listener>)
    returns (count: nat, onCanvas: bool, listenersAfter: seq<Listener>)
    requires Distinct(windowListeners)
    requires ResizeListener !in windowListeners && MouseMoveListener !in windowListeners
    requires MouseLeaveListener !in windowListeners
    requires |draws| >= ParticleCount(IsMobile(innerWidth, hasOntouchstart, maxTouchPoints))
    requires forall k :: 0 <= k < |draws| ==> Random(draws[k])
    requires |sinPhases| == |pointers| && forall f :: 0 <= f < |sinPhases| ==> -1.0 <= sinPhases[f] <= 1.0
    requires |senses| == ParticleCount(IsMobile(innerWidth, hasOntouchstart, maxTouchPoints))
    requires forall k :: 0 <= k < |senses| ==> Sensible(senses[k])
    ensures count == ParticleCount(IsMobile(innerWidth, hasOntouchstart, maxTouchPoints))
    ensures onCanvas && listenersAfter == windowListeners
  {
    var bg := new ParticleBackground(windowListeners);
    bg.Mount(true, innerWidth, innerHeight, hasOntouchstart, maxTouchPoints, draws);
    var f := 0;
    while f < |pointers|
      invariant 0 <= f <= |pointers|
      invariant bg.Valid() && bg.Placed() && bg.mounted
      invariant bg.mobile == IsMobile(innerWidth, hasOntouchstart, maxTouchPoints)
      invariant bg.windowListeners == Registered(windowListeners)
      invariant forall k :: 0 <= k < |bg.particles| ==> fresh(bg.particles[k])
    {
      if pointers[f].Some? {
        bg.MouseMove(pointers[f].value.0, pointers[f].value.1);
      } else {
        bg.MouseLeave();
      }
      var background, lines := bg.Frame(sinPhases[f], dist, senses);
      f := f + 1;
    }
    count := |bg.particles|;
    onCanvas := forall k :: 0 <= k < |bg.particles| ==> bg.particles[k].InBounds(bg.width, bg.height);
    bg.Cleanup();
    ListenersRestored(windowListeners);
    listenersAfter := bg.windowListeners;
  }
}
