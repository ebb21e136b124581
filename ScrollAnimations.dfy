/**
 * The scroll-animation hooks of src/hooks/useScrollAnimations.js: the preset
 * tables and their fallback, the replay mode, the register/cleanup discipline
 * every hook follows against GSAP's trigger list, and the parameters of the
 * parallax and section-reveal hooks.
 */
module ScrollAnimations {
  import opened Wrappers
  import opened Registry

  /**
   * A preset: the properties set before the tween (`from`) and the values
   * tweened to (`to`). `filter: blur(Npx)` is kept as the key "blur" with value N.
   */
  datatype Anim = Anim(from: map<string, real>, to: map<string, real>)

  /** The presets of `useScrollAnimation`. */
  const ScrollPresets: map<string, Anim> := map[
    "fadeInUp" := Anim(map["opacity" := 0.0, "y" := 80.0], map["opacity" := 1.0, "y" := 0.0]),
    "fadeInDown" := Anim(map["opacity" := 0.0, "y" := -80.0], map["opacity" := 1.0, "y" := 0.0]),
    "slideFromLeft" := Anim(map["opacity" := 0.0, "x" := -100.0], map["opacity" := 1.0, "x" := 0.0]),
    "slideFromRight" := Anim(map["opacity" := 0.0, "x" := 100.0], map["opacity" := 1.0, "x" := 0.0]),
    "scaleUp" := Anim(map["opacity" := 0.0, "scale" := 0.8], map["opacity" := 1.0, "scale" := 1.0]),
    "scaleDown" := Anim(map["opacity" := 0.0, "scale" := 1.2], map["opacity" := 1.0, "scale" := 1.0]),
    "rotateFromLeft" := Anim(map["opacity" := 0.0, "x" := -80.0, "rotation" := -10.0],
                             map["opacity" := 1.0, "x" := 0.0, "rotation" := 0.0]),
    "rotateFromRight" := Anim(map["opacity" := 0.0, "x" := 80.0, "rotation" := 10.0],
                              map["opacity" := 1.0, "x" := 0.0, "rotation" := 0.0]),
    "flipIn" := Anim(map["opacity" := 0.0, "rotationY" := 90.0], map["opacity" := 1.0, "rotationY" := 0.0]),
    "blurIn" := Anim(map["opacity" := 0.0, "blur" := 10.0], map["opacity" := 1.0, "blur" := 0.0])]

  /** The presets of `useStaggerAnimation`. */
  const StaggerPresets: map<string, Anim> := map[
    "fadeInUp" := Anim(map["opacity" := 0.0, "y" := 50.0], map["opacity" := 1.0, "y" := 0.0]),
    "fadeInDown" := Anim(map["opacity" := 0.0, "y" := -50.0], map["opacity" := 1.0, "y" := 0.0]),
    "slideFromLeft" := Anim(map["opacity" := 0.0, "x" := -50.0], map["opacity" := 1.0, "x" := 0.0]),
    "slideFromRight" := Anim(map["opacity" := 0.0, "x" := 50.0], map["opacity" := 1.0, "x" := 0.0]),
    "scaleUp" := Anim(map["opacity" := 0.0, "scale" := 0.8], map["opacity" := 1.0, "scale" := 1.0]),
    "rotateIn" := Anim(map["opacity" := 0.0, "rotation" := -15.0, "y" := 30.0],
                       map["opacity" := 1.0, "rotation" := 0.0, "y" := 0.0])]

  /** A preset animates from invisible to visible, and tweens back every property it set. */
  predicate WellFormed(a: Anim)
  {
    a.from.Keys == a.to.Keys && "opacity" in a.from &&
    a.from["opacity"] == 0.0 && a.to["opacity"] == 1.0
  }

  /** `animations[animation] || animations.fadeInUp`. */
  function PresetFor(presets: map<string, Anim>, name: string): (a: Anim)
    requires "fadeInUp" in presets
    ensures name in presets ==> a == presets[name]
    ensures name !in presets ==> a == presets["fadeInUp"]
  {
    if name in presets then presets[name] else presets["fadeInUp"]
  }

  /** Every preset of either table is well formed, so whatever name is asked for, the element fades in. */
  lemma PresetsWellFormed(name: string)
    ensures WellFormed(PresetFor(ScrollPresets, name))
    ensures WellFormed(PresetFor(StaggerPresets, name))
  {
    ScrollPresetsWellFormed();
    StaggerPresetsWellFormed();
  }

  lemma ScrollPresetsWellFormed()
    ensures forall name :: name in ScrollPresets ==> WellFormed(ScrollPresets[name])
  {
  }

  lemma StaggerPresetsWellFormed()
    ensures forall name :: name in StaggerPresets ==> WellFormed(StaggerPresets[name])
  {
  }

  /** An unknown name behaves as `fadeInUp`: rising 80 px for one element, 50 px for a group. */
  lemma UnknownNameRises(name: string)
    requires name !in ScrollPresets && name !in StaggerPresets
    ensures PresetFor(ScrollPresets, name).from["y"] == 80.0
    ensures PresetFor(StaggerPresets, name).from["y"] == 50.0
  {
  }

  /** `once ? 'play none none none' : 'play reverse play reverse'`. */
  function ToggleActions(once: bool): (actions: string)
    ensures once <==> actions == "play none none none"
    ensures !once <==> actions == "play reverse play reverse"
  {
    if once then "play none none none" else "play reverse play reverse"
  }

  /** `useStaggerAnimation` registers only with a container and at least one matching child. */
  predicate StaggerRegisters(container: Option<nat>, matchedChildren: nat)
  {
    container.Some? && matchedChildren > 0
  }

  /**
   * One hook instance: the element its ref holds (the container, for the
   * stagger hook) and the tween it registered, if any. Every hook of the file
   * follows this shape; they differ only in the tween's parameters.
   */
  class ScrollHook {
    var element: Option<nat>
    var registered: Option<nat>

    ghost predicate Valid()
      reads this
    {
      registered.Some? ==> element.Some?
    }

    constructor (element: Option<nat>)
      ensures Valid() && this.element == element && registered.None?
    {
      this.element := element;
      registered := None;
    }

    /**
     * The effect. `hasTargets` is false when the ref is empty or, for the
     * stagger hook, no child matches; then nothing is registered.
     */
    method Mount(g: Gsap, hasTargets: bool)
      requires Valid() && g.Valid() && registered.None?
      requires hasTargets ==> element.Some?
      modifies this, g
      ensures Valid() && g.Valid() && element == old(element)
      ensures !hasTargets ==> registered.None? && g.triggers == old(g.triggers) && g.tweens == old(g.tweens)
      ensures hasTargets ==>
                (registered.Some? &&
                 g.triggers == old(g.triggers) + [Trigger(registered.value, element.value)] &&
                 g.tweens == old(g.tweens) + {registered.value} && registered.value !in old(g.tweens))
    {
      if hasTargets {
        var id := g.Register(element.value);
        registered := Some(id);
      }
    }

    /** The cleanup: `tween.kill()`, then kill the triggers attached to this element. */
    method Cleanup(g: Gsap)
      requires Valid() && g.Valid()
      modifies this, g
      ensures Valid() && g.Valid() && registered.None? && element == old(element)
      ensures old(registered).None? ==> g.triggers == old(g.triggers) && g.tweens == old(g.tweens)
      ensures old(registered).Some? ==>
                (g.triggers == Without(old(g.triggers), element.value) &&
                 g.tweens == old(g.tweens) - {old(registered).value} - TargetIds(old(g.triggers), element.value))
    {
      if registered.Some? {
        g.KillTween(registered.value);
        g.KillTriggersOf(element.value);
        registered := None;
      }
    }
  }

  /** One mount and cleanup of a hook on an element no live trigger watches: nothing is left behind. */
  method MountAndCleanUp(g: Gsap, hook: ScrollHook)
    requires g.Valid() && hook.Valid() && hook.registered.None? && hook.element.Some?
    requires Untargeted(g.triggers, hook.element.value)
    modifies g, hook
    ensures g.Valid() && hook.Valid() && hook.registered.None? && hook.element == old(hook.element)
    ensures g.triggers == old(g.triggers) && g.tweens == old(g.tweens)
  {
    ghost var before := g.triggers;
    ghost var tweensBefore := g.tweens;
    var element := hook.element.value;
    hook.Mount(g, true);
    var id := hook.registered.value;
    MountCleanupRestores(before, id, element);
    TargetIdsFresh(before, id, element);
    hook.Cleanup(g);
    assert g.tweens == (tweensBefore + {id}) - {id} - {id};
  }

  /**
   * Another hook stays mounted on `other` while a hook on `element` mounts
   * and cleans up `n` times (as a change of its dependencies does): the
   * triggers and tweens afterwards are exactly those before.
   */
  method RemountCycles(element: nat, other: nat, n: nat)
    returns (before: seq<Trigger>, after: seq<Trigger>, tweensBefore: set<nat>, tweensAfter: set<nat>)
    requires element != other
    ensures |before| == 1 && before[0].target == other
    ensures after == before && tweensAfter == tweensBefore
  {
    var g := new Gsap();
    var stay := new ScrollHook(Some(other));
    stay.Mount(g, true);
    before := g.triggers;
    tweensBefore := g.tweens;
    var hook := new ScrollHook(Some(element));
    var i := 0;
    while i < n
      invariant g.Valid() && hook.Valid() && hook.registered.None? && hook.element == Some(element)
      invariant g.triggers == before && g.tweens == tweensBefore
      invariant |before| == 1 && before[0].target == other && Untargeted(before, element)
      modifies g, hook
    {
      MountAndCleanUp(g, hook);
      i := i + 1;
    }
    after := g.triggers;
    tweensAfter := g.tweens;
  }

  /** The tween of `useParallax`: the property moved and its start and end. */
  datatype Parallax = Parallax(property: string, from: real, to: real)

  /** `distance = 100 * speed`, on `y` when vertical and `x` otherwise, from `-distance` to `distance`. */
  function ParallaxTween(speed: real, direction: string): (p: Parallax)
    ensures p.property == "y" <==> direction == "vertical"
    ensures p.property == "x" <==> direction != "vertical"
    ensures p.from + p.to == 0.0 && p.to - p.from == 200.0 * speed
  {
    var distance := 100.0 * speed;
    Parallax(if direction == "vertical" then "y" else "x", -distance, distance)
  }

  /** The starting offset of `useSectionReveal`; it always ends at x 0 and rotation 0. */
  datatype Offset = Offset(x: int, rotation: int)

  /** `sectionIndex % 2 === 0` picks +100 and +3, otherwise -100 and -3. */
  function RevealStart(sectionIndex: int): (o: Offset)
    ensures (o.x > 0) == (o.rotation > 0)
    ensures o.x == 100 || o.x == -100
    ensures o.rotation == 3 || o.rotation == -3
  {
    if sectionIndex % 2 == 0 then Offset(100, 3) else Offset(-100, -3)
  }

  /** Where every section's reveal ends: no offset and no tilt. */
  const RevealEnd := Offset(0, 0)

  /** The state `gsap.set` puts a section in, and the state `gsap.to` animates it to. */
  datatype Pose = Pose(opacity: int, offset: Offset)

  datatype RevealTween = RevealTween(from: Pose, to: Pose)

  /** `useSectionReveal`: hidden at its start offset, then shown at rest. */
  function SectionReveal(sectionIndex: int): RevealTween
  {
    RevealTween(Pose(0, RevealStart(sectionIndex)), Pose(1, RevealEnd))
  }

  /**
   * Every reveal fades a section in from invisible to opaque and brings it to
   * the same resting place, whatever its index: it travels 100 px sideways
   * and untilts by 3 degrees, toward the left for even indices and toward
   * the right for odd ones.
   */
  lemma RevealSettles(i: int, j: int)
    ensures SectionReveal(i).from.opacity == 0 && SectionReveal(i).to.opacity == 1
    ensures SectionReveal(i).to == SectionReveal(j).to && SectionReveal(i).to.offset == Offset(0, 0)
    ensures SectionReveal(i).to.offset.x - SectionReveal(i).from.offset.x == if i % 2 == 0 then -100 else 100
    ensures SectionReveal(i).to.offset.rotation - SectionReveal(i).from.offset.rotation == if i % 2 == 0 then -3 else 3
  {
  }

  /**
   * Consecutive sections come in from opposite sides and tilt opposite ways,
   * sections two apart alike. (JavaScript's `%` and Dafny's agree on whether
   * the remainder by 2 is zero, negative indices included.)
   */
  lemma RevealAlternates(sectionIndex: int)
    ensures RevealStart(sectionIndex + 1) == Offset(-RevealStart(sectionIndex).x, -RevealStart(sectionIndex).rotation)
    ensures RevealStart(sectionIndex + 2) == RevealStart(sectionIndex)
    ensures RevealStart(sectionIndex).x == 100 <==> sectionIndex % 2 == 0
  {
  }
}
