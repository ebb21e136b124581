/**
 * The part of the DOM event model the components rely on: a target's list of
 * registered `(event, handler)` pairs. `addEventListener` ignores a pair that
 * is already registered and `removeEventListener` drops the pair.
 */
module Dom {

  /** A registration; `handler` stands for the identity of the function object. */
  datatype Listener = Listener(event: string, handler: nat)

  /** No pair is registered twice. */
  predicate Distinct(ls: seq<Listener>)
  {
    forall i, j :: 0 <= i < j < |ls| ==> ls[i] != ls[j]
  }

  /** `target.addEventListener(event, handler)`. */
  function AddListener(ls: seq<Listener>, l: Listener): (r: seq<Listener>)
    ensures l in r
    ensures forall x :: x in r <==> x in ls || x == l
    ensures Distinct(ls) ==> Distinct(r)
  {
    if l in ls then ls else ls + [l]
  }

  /** `target.removeEventListener(event, handler)`: every other registration stays, in order. */
  function RemoveListener(ls: seq<Listener>, l: Listener): (r: seq<Listener>)
    ensures l !in r
    ensures forall x :: x in r <==> x in ls && x != l
    ensures Distinct(ls) ==> Distinct(r)
  {
    if ls == [] then []
    else
      var rest := RemoveListener(ls[1..], l);
      DistinctTail(ls);
      if ls[0] == l then rest else [ls[0]] + rest
  }

  lemma DistinctTail(ls: seq<Listener>)
    requires ls != []
    ensures Distinct(ls) ==> Distinct(ls[1..]) && ls[0] !in ls[1..]
  {
    if Distinct(ls) {
      forall i, j | 0 <= i < j < |ls| - 1 ensures ls[1..][i] != ls[1..][j] {
        assert ls[1..][i] == ls[i + 1] && ls[1..][j] == ls[j + 1];
      }
      forall k | 0 <= k < |ls| - 1 ensures ls[1..][k] != ls[0] {
        assert ls[1..][k] == ls[k + 1];
      }
    }
  }

  /** Removing a pair that is not registered changes nothing. */
  lemma {:induction false} RemoveAbsent(ls: seq<Listener>, l: Listener)
    requires l !in ls
    ensures RemoveListener(ls, l) == ls
  {
    if ls != [] {
      RemoveAbsent(ls[1..], l);
    }
  }

  /** Removing the last registration leaves the ones before it. */
  lemma {:induction false} RemoveLast(ls: seq<Listener>, l: Listener)
    requires l !in ls
    ensures RemoveListener(ls + [l], l) == ls
  {
    if ls == [] {
      assert RemoveListener([l], l) == RemoveListener([], l);
    } else {
      assert (ls + [l])[1..] == ls[1..] + [l];
      RemoveLast(ls[1..], l);
    }
  }

  /**
   * The mount/unmount pairing: adding a listener that was not registered and
   * removing it again gives back the list as it was.
   */
  lemma AddThenRemove(ls: seq<Listener>, l: Listener)
    requires l !in ls
    ensures RemoveListener(AddListener(ls, l), l) == ls
  {
    RemoveLast(ls, l);
  }
}
