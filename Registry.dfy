/**
 * GSAP's global state as the hooks and components see it: the list of live
 * ScrollTriggers (what `ScrollTrigger.getAll()` returns), each with the
 * element it watches, and the set of live tweens. GSAP itself is not part of
 * this model; only registering, killing one tween, and killing triggers
 * (which, by GSAP's default, also kills the trigger's animation) are.
 */
module Registry {

  /** A ScrollTrigger: its identity and the element it is attached to. */
  datatype Trigger = Trigger(id: nat, target: nat)

  /** The triggers that survive killing every trigger whose `trigger` is `target`. */
  function Without(ts: seq<Trigger>, target: nat): (r: seq<Trigger>)
    ensures forall k :: 0 <= k < |r| ==> r[k] in ts && r[k].target != target
    ensures |r| <= |ts|
    decreases |ts|
  {
    if ts == [] then []
    else
      var init := ts[..|ts| - 1];
      var last := ts[|ts| - 1];
      assert ts == init + [last];
      Without(init, target) + (if last.target == target then [] else [last])
  }

  /** Every trigger of another element survives. */
  lemma {:induction false} WithoutKeeps(ts: seq<Trigger>, target: nat, t: Trigger)
    requires t in ts && t.target != target
    ensures t in Without(ts, target)
    decreases |ts|
  {
    var init := ts[..|ts| - 1];
    assert ts == init + [ts[|ts| - 1]];
    if t != ts[|ts| - 1] {
      WithoutKeeps(init, target, t);
    }
  }

  /** No live trigger is attached to `target`. */
  predicate Untargeted(ts: seq<Trigger>, target: nat)
  {
    forall k :: 0 <= k < |ts| ==> ts[k].target != target
  }

  /** Killing the triggers of an element that has none changes nothing, order included. */
  lemma {:induction false} WithoutUntargeted(ts: seq<Trigger>, target: nat)
    requires Untargeted(ts, target)
    ensures Without(ts, target) == ts
    decreases |ts|
  {
    if ts != [] {
      var init := ts[..|ts| - 1];
      assert Untargeted(init, target);
      WithoutUntargeted(init, target);
      assert ts == init + [ts[|ts| - 1]];
    }
  }

  /** The survivors keep their relative order, and the filter is a function of the list. */
  lemma WithoutAppend(ts: seq<Trigger>, t: Trigger, target: nat)
    ensures Without(ts + [t], target) == Without(ts, target) + (if t.target == target then [] else [t])
  {
    assert (ts + [t])[..|ts|] == ts;
  }

  /** Cleaning up one element and then another is the same as the other way round. */
  lemma {:induction false} WithoutCommutes(ts: seq<Trigger>, a: nat, b: nat)
    ensures Without(Without(ts, a), b) == Without(Without(ts, b), a)
    decreases |ts|
  {
    if ts != [] {
      var init := ts[..|ts| - 1];
      var last := ts[|ts| - 1];
      assert ts == init + [last];
      WithoutCommutes(init, a, b);
      WithoutAppend(init, last, a);
      WithoutAppend(init, last, b);
      assert Without(init, a) + [] == Without(init, a);
      assert Without(init, b) + [] == Without(init, b);
      if last.target != a {
        WithoutAppend(Without(init, a), last, b);
      }
      if last.target != b {
        WithoutAppend(Without(init, b), last, a);
      }
    }
  }

  /** A mount that registers one trigger on a fresh element, followed by its cleanup, restores the list exactly. */
  lemma MountCleanupRestores(ts: seq<Trigger>, id: nat, element: nat)
    requires Untargeted(ts, element)
    ensures Without(ts + [Trigger(id, element)], element) == ts
  {
    WithoutAppend(ts, Trigger(id, element), element);
    WithoutUntargeted(ts, element);
  }

  /** The identities of the triggers attached to `target`: killing a trigger also kills its animation. */
  function TargetIds(ts: seq<Trigger>, target: nat): set<nat>
  {
    set t | t in ts && t.target == target :: t.id
  }

  /** The identities of all the triggers. */
  function AllIds(ts: seq<Trigger>): set<nat>
  {
    set t | t in ts :: t.id
  }

  lemma TargetIdsAppend(ts: seq<Trigger>, t: Trigger, target: nat)
    ensures TargetIds(ts + [t], target) == TargetIds(ts, target) + (if t.target == target then {t.id} else {})
  {
    var l := TargetIds(ts + [t], target);
    var r := TargetIds(ts, target) + (if t.target == target then {t.id} else {});
    forall x | x in l ensures x in r {
      var u :| u in ts + [t] && u.target == target && u.id == x;
      if u != t {
        assert u in ts;
      }
    }
  }

  /** After a fresh element's trigger is added, the only identity its cleanup kills is that trigger's. */
  lemma TargetIdsFresh(ts: seq<Trigger>, id: nat, element: nat)
    requires Untargeted(ts, element)
    ensures TargetIds(ts + [Trigger(id, element)], element) == {id}
  {
    TargetIdsAppend(ts, Trigger(id, element), element);
    forall t | t in ts ensures t.target != element {
      var k :| 0 <= k < |ts| && ts[k] == t;
    }
    assert TargetIds(ts, element) == {};
  }

  /** The triggers and tweens alive in the page. `nextId` hands out identities. */
  class Gsap {
    var triggers: seq<Trigger>
    var tweens: set<nat>
    var nextId: nat

    /** Every identity in use was handed out before, and no two triggers share one. */
    ghost predicate Valid()
      reads this
    {
      (forall k :: 0 <= k < |triggers| ==> triggers[k].id < nextId) &&
      (forall t :: t in tweens ==> t < nextId) &&
      (forall j, k :: 0 <= j < k < |triggers| ==> triggers[j].id != triggers[k].id)
    }

    constructor ()
      ensures Valid() && triggers == [] && tweens == {}
    {
      triggers := [];
      tweens := {};
      nextId := 0;
    }

    /** `gsap.to(element, { …, scrollTrigger: { trigger: element } })`: one tween and one trigger, sharing an identity. */
    method Register(target: nat) returns (id: nat)
      requires Valid()
      modifies this
      ensures Valid()
      ensures triggers == old(triggers) + [Trigger(id, target)] && tweens == old(tweens) + {id}
      ensures id !in old(tweens) && forall k :: 0 <= k < |old(triggers)| ==> old(triggers)[k].id != id
    {
      id := nextId;
      nextId := nextId + 1;
      triggers := triggers + [Trigger(id, target)];
      tweens := tweens + {id};
    }

    /** `tween.kill()`, as far as the model tracks it: that tween leaves the live set; its trigger goes with `KillTriggersOf`. */
    method KillTween(id: nat)
      requires Valid()
      modifies this
      ensures Valid()
      ensures tweens == old(tweens) - {id} && triggers == old(triggers) && nextId == old(nextId)
    {
      tweens := tweens - {id};
    }

    /** `ScrollTrigger.getAll().forEach(st => { if (st.trigger === target) st.kill(); })`. */
    method KillTriggersOf(target: nat)
      requires Valid()
      modifies this
      ensures Valid()
      ensures triggers == Without(old(triggers), target)
      ensures tweens == old(tweens) - TargetIds(old(triggers), target) && nextId == old(nextId)
    {
      var all := triggers;
      var kept := [];
      var killed := {};
      var i := 0;
      while i < |all|
        invariant 0 <= i <= |all|
        invariant kept == Without(all[..i], target)
        invariant killed == TargetIds(all[..i], target)
        invariant unchanged(this)
      {
        assert all[..i + 1] == all[..i] + [all[i]];
        WithoutAppend(all[..i], all[i], target);
        TargetIdsAppend(all[..i], all[i], target);
        if all[i].target != target {
          kept := kept + [all[i]];
        } else {
          killed := killed + {all[i].id};
        }
        i := i + 1;
      }
      tweens := tweens - killed;
      assert all[..i] == all;
      SubsequenceDistinct(all, target);
      forall k | 0 <= k < |kept| ensures kept[k].id < nextId {
        var j :| 0 <= j < |all| && all[j] == kept[k];
      }
      triggers := kept;
    }

    /** `ScrollTrigger.getAll().forEach(trigger => trigger.kill())`: every trigger goes, with its animation. */
    method KillAll()
      requires Valid()
      modifies this
      ensures Valid()
      ensures triggers == [] && tweens == old(tweens) - AllIds(old(triggers)) && nextId == old(nextId)
    {
      tweens := tweens - AllIds(triggers);
      triggers := [];
    }
  }

  /** The survivors of a list with distinct identities still have distinct identities, and no new ones. */
  lemma {:induction false} SubsequenceDistinct(ts: seq<Trigger>, target: nat)
    requires forall j, k :: 0 <= j < k < |ts| ==> ts[j].id != ts[k].id
    ensures forall j, k :: 0 <= j < k < |Without(ts, target)| ==> Without(ts, target)[j].id != Without(ts, target)[k].id
    decreases |ts|
  {
    if ts != [] {
      var init := ts[..|ts| - 1];
      var last := ts[|ts| - 1];
      assert ts == init + [last];
      SubsequenceDistinct(init, target);
      var w := Without(init, target);
      forall k | 0 <= k < |w| ensures w[k].id != last.id {
        assert w[k] in init;
      }
    }
  }
}
