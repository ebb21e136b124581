/**
 * The nested scan `for i … for j = i + 1 …` that both background effects use
 * to connect nearby points: every unordered pair of indices is examined once,
 * in row order, and kept when its distance is under a threshold. Distances
 * (a square root of the coordinates) are given as a function of the two
 * indices.
 */
module Pairs {

  /** A connection between points `i` and `j`, with `i < j`. */
  datatype Pair = Pair(i: nat, j: nat)

  /** Scan order: by first index, then by second. */
  predicate Before(p: Pair, q: Pair)
  {
    p.i < q.i || (p.i == q.i && p.j < q.j)
  }

  /** Every pair indexes one of `n` points. */
  predicate Bounded(pairs: seq<Pair>, n: nat)
  {
    forall k :: 0 <= k < |pairs| ==> pairs[k].i < n && pairs[k].j < n
  }

  /** The pairs `(i, k)` kept for `i < k < j`, in order of `k`. */
  function Row(i: nat, j: nat, dist: (nat, nat) -> real, max: real): seq<Pair>
    decreases j
  {
    if j <= i + 1 then []
    else Row(i, j - 1, dist, max) + (if dist(i, j - 1) < max then [Pair(i, j - 1)] else [])
  }

  /** Row `i` holds only pairs `(i, k)` with `i < k < j` that are close enough. */
  lemma {:induction false} RowShape(i: nat, j: nat, dist: (nat, nat) -> real, max: real)
    ensures forall k :: 0 <= k < |Row(i, j, dist, max)| ==>
              Row(i, j, dist, max)[k].i == i && i < Row(i, j, dist, max)[k].j < j && dist(i, Row(i, j, dist, max)[k].j) < max
    decreases j
  {
    if j > i + 1 {
      RowShape(i, j - 1, dist, max);
    }
  }

  /** The pairs kept by the rows `0 .. m - 1` of `n` points, in scan order. */
  function Rows(m: nat, n: nat, dist: (nat, nat) -> real, max: real): (r: seq<Pair>)
    ensures forall k :: 0 <= k < |r| ==> r[k].i < m && r[k].i < r[k].j < n && dist(r[k].i, r[k].j) < max
    ensures Bounded(r, n)
  {
    if m == 0 then []
    else
      RowShape(m - 1, n, dist, max);
      Rows(m - 1, n, dist, max) + Row(m - 1, n, dist, max)
  }

  /** A row lists its pairs by increasing second index. */
  lemma {:induction false} RowSorted(i: nat, j: nat, dist: (nat, nat) -> real, max: real)
    ensures forall a, b :: 0 <= a < b < |Row(i, j, dist, max)| ==> Row(i, j, dist, max)[a].j < Row(i, j, dist, max)[b].j
    decreases j
  {
    if j > i + 1 {
      RowSorted(i, j - 1, dist, max);
      RowShape(i, j - 1, dist, max);
    }
  }

  /** The rows list their pairs in scan order. */
  lemma {:induction false} RowsSorted(m: nat, n: nat, dist: (nat, nat) -> real, max: real)
    ensures forall a, b :: 0 <= a < b < |Rows(m, n, dist, max)| ==> Before(Rows(m, n, dist, max)[a], Rows(m, n, dist, max)[b])
    decreases m
  {
    if m > 0 {
      RowsSorted(m - 1, n, dist, max);
      RowSorted(m - 1, n, dist, max);
      RowShape(m - 1, n, dist, max);
    }
  }

  /** Every pair of `n` points that is close enough, each once, in scan order. */
  function Connections(n: nat, dist: (nat, nat) -> real, max: real): seq<Pair>
  {
    Rows(n, n, dist, max)
  }

  /** A close pair of the row is in the row. */
  lemma {:induction false} RowComplete(i: nat, j: nat, k: nat, dist: (nat, nat) -> real, max: real)
    requires i < k < j && dist(i, k) < max
    ensures Pair(i, k) in Row(i, j, dist, max)
    decreases j
  {
    if k < j - 1 {
      RowComplete(i, j - 1, k, dist, max);
    }
  }

  /** A close pair in one of the first `m` rows is among the pairs kept. */
  lemma {:induction false} RowsComplete(m: nat, n: nat, i: nat, j: nat, dist: (nat, nat) -> real, max: real)
    requires i < m && i < j < n && dist(i, j) < max
    ensures Pair(i, j) in Rows(m, n, dist, max)
    decreases m
  {
    if i < m - 1 {
      RowsComplete(m - 1, n, i, j, dist, max);
    } else {
      RowComplete(i, n, j, dist, max);
    }
  }

  /**
   * A pair is connected exactly when `i < j < n` and its distance is under
   * the threshold, and no pair is connected twice.
   */
  lemma ConnectionsExact(n: nat, dist: (nat, nat) -> real, max: real, i: nat, j: nat)
    ensures Pair(i, j) in Connections(n, dist, max) <==> i < j < n && dist(i, j) < max
    ensures forall a, b :: 0 <= a < b < |Connections(n, dist, max)| ==> Connections(n, dist, max)[a] != Connections(n, dist, max)[b]
  {
    if i < j < n && dist(i, j) < max {
      RowsComplete(n, n, i, j, dist, max);
    }
    RowsSorted(n, n, dist, max);
  }

  /** The scan itself: two nested loops pushing each close pair as it is met. */
  method Scan(n: nat, dist: (nat, nat) -> real, max: real) returns (pairs: seq<Pair>)
    ensures pairs == Connections(n, dist, max)
  {
    pairs := [];
    var i := 0;
    while i < n
      invariant 0 <= i <= n
      invariant pairs == Rows(i, n, dist, max)
    {
      var j := i + 1;
      while j < n
        invariant i + 1 <= j <= n
        invariant pairs == Rows(i, n, dist, max) + Row(i, j, dist, max)
      {
        if dist(i, j) < max {
          pairs := pairs + [Pair(i, j)];
        }
        j := j + 1;
      }
      i := i + 1;
    }
  }
}
