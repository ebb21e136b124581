/**
 * The three.js background of src/components/3d/NetworkBackground.jsx, the
 * part the component computes itself: the jittered 8 × 8 grid of points, the
 * segments joining close points, the stride-3 position buffers handed to
 * three.js, the falling binary digits, and the floating code symbols.
 * `Math.random()` values are given as draws in [0, 1); distances, `sin` and
 * `cos` are given as their results.
 */
module Network {
  import opened Pairs

  const GridSize: nat := 8
  const GridSpacing: real := 3.0
  const ConnectionDistance: real := 4.5
  const SymbolCount: nat := 15

  datatype Vec3 = Vec3(x: real, y: real, z: real)

  predicate Unit(r: real)
  {
    0.0 <= r < 1.0
  }

  /** The three `Math.random()` values one grid point consumes. */
  datatype Jitter = Jitter(x: real, y: real, z: real)

  predicate RandomJitter(j: Jitter)
  {
    Unit(j.x) && Unit(j.y) && Unit(j.z)
  }

  /** Where cell (`gx`, `gy`) sits before jitter: centred on the origin, 3 apart, at depth -15. */
  function Cell(gx: nat, gy: nat): Vec3
  {
    var half := (GridSize - 1) as real / 2.0;
    Vec3((gx as real - half) * GridSpacing, (gy as real - half) * GridSpacing, -15.0)
  }

  /** The point of cell (`gx`, `gy`): within 0.75 of the cell on each axis, and up to 2.5 nearer or farther. */
  function GridPoint(gx: nat, gy: nat, j: Jitter): (p: Vec3)
    requires RandomJitter(j)
    ensures -0.75 <= p.x - Cell(gx, gy).x < 0.75 && -0.75 <= p.y - Cell(gx, gy).y < 0.75
    ensures -17.5 <= p.z < -12.5
  {
    var half := (GridSize - 1) as real / 2.0;
    Vec3((gx as real - half) * GridSpacing + (j.x - 0.5) * 1.5,
         (gy as real - half) * GridSpacing + (j.y - 0.5) * 1.5,
         -15.0 + (j.z - 0.5) * 5.0)
  }

  /** The position of cell (`gx`, `gy`) in the list: rows of `x`, each listing every `y`. */
  function Index(gx: nat, gy: nat): nat
  {
    gx * GridSize + gy
  }

  /** The cell at a position of the list. */
  function CellAt(k: nat): (nat, nat)
  {
    (k / GridSize, k % GridSize)
  }

  /** Cells and list positions correspond one to one over the 64 cells. */
  lemma IndexRoundTrip(gx: nat, gy: nat, k: nat)
    requires gx < GridSize && gy < GridSize && k < GridSize * GridSize
    ensures Index(gx, gy) < GridSize * GridSize
    ensures CellAt(Index(gx, gy)) == (gx, gy)
    ensures Index(CellAt(k).0, CellAt(k).1) == k && CellAt(k).0 < GridSize
  {
  }

  /** The two nested loops that push the grid's points, `x` outer and `y` inner. */
  method GeneratePoints(jitters: seq<Jitter>) returns (points: seq<Vec3>)
    requires |jitters| == GridSize * GridSize && forall k :: 0 <= k < |jitters| ==> RandomJitter(jitters[k])
    ensures |points| == GridSize * GridSize
    ensures forall gx, gy :: 0 <= gx < GridSize && 0 <= gy < GridSize ==>
              points[Index(gx, gy)] == GridPoint(gx, gy, jitters[Index(gx, gy)])
  {
    points := [];
    var x := 0;
    while x < GridSize
      invariant 0 <= x <= GridSize && |points| == x * GridSize
      invariant forall gx, gy :: 0 <= gx < x && 0 <= gy < GridSize ==>
                  points[Index(gx, gy)] == GridPoint(gx, gy, jitters[Index(gx, gy)])
    {
      var y := 0;
      while y < GridSize
        invariant 0 <= y <= GridSize && |points| == x * GridSize + y
        invariant forall gx, gy :: 0 <= gx < x && 0 <= gy < GridSize ==>
                    points[Index(gx, gy)] == GridPoint(gx, gy, jitters[Index(gx, gy)])
        invariant forall gy :: 0 <= gy < y ==> points[Index(x, gy)] == GridPoint(x, gy, jitters[Index(x, gy)])
      {
        points := points + [GridPoint(x, y, jitters[Index(x, y)])];
        y := y + 1;
      }
      x := x + 1;
    }
  }

  lemma BoundedAppend(pairs: seq<Pair>, p: Pair, n: nat)
    requires Bounded(pairs, n) && p.i < n && p.j < n
    ensures Bounded(pairs + [p], n)
  {
  }

  /** The list of segment endpoints for the given pairs: both points of each pair, in order. */
  function Endpoints(points: seq<Vec3>, pairs: seq<Pair>): (r: seq<Vec3>)
    requires Bounded(pairs, |points|)
    ensures |r| == 2 * |pairs|
  {
    if pairs == [] then []
    else
      var last := pairs[|pairs| - 1];
      Endpoints(points, pairs[..|pairs| - 1]) + [points[last.i], points[last.j]]
  }

  /** Entries `2k` and `2k + 1` are the two points of pair `k`. */
  lemma {:induction false} EndpointsOf(points: seq<Vec3>, pairs: seq<Pair>)
    requires Bounded(pairs, |points|)
    ensures forall k :: 0 <= k < |pairs| ==>
              Endpoints(points, pairs)[2 * k] == points[pairs[k].i] &&
              Endpoints(points, pairs)[2 * k + 1] == points[pairs[k].j]
  {
    if pairs != [] {
      var init := pairs[..|pairs| - 1];
      EndpointsOf(points, init);
      forall k | 0 <= k < |init| ensures pairs[k] == init[k] { }
    }
  }

  lemma EndpointsAppend(points: seq<Vec3>, pairs: seq<Pair>, p: Pair)
    requires Bounded(pairs, |points|)
    requires p.i < |points| && p.j < |points|
    ensures Endpoints(points, pairs + [p]) == Endpoints(points, pairs) + [points[p.i], points[p.j]]
  {
    assert (pairs + [p])[..|pairs|] == pairs;
  }

  /** The segments of two lists of pairs, one after the other, are the segments of the joined list. */
  lemma {:induction false} EndpointsConcat(points: seq<Vec3>, a: seq<Pair>, b: seq<Pair>)
    requires Bounded(a, |points|) && Bounded(b, |points|)
    ensures Bounded(a + b, |points|)
    ensures Endpoints(points, a + b) == Endpoints(points, a) + Endpoints(points, b)
    decreases |b|
  {
    BoundedConcat(a, b, |points|);
    if b == [] {
      assert a + b == a;
    } else {
      var init := b[..|b| - 1];
      var last := b[|b| - 1];
      BoundedPrefix(b, |b| - 1, |points|);
      EndpointsConcat(points, a, init);
      assert a + b == (a + init) + [last];
      assert b == init + [last];
      EndpointsAppend(points, a + init, last);
      EndpointsAppend(points, init, last);
      AppendAssoc(Endpoints(points, a), Endpoints(points, init), [points[last.i], points[last.j]]);
    }
  }

  lemma BoundedConcat(a: seq<Pair>, b: seq<Pair>, n: nat)
    requires Bounded(a, n) && Bounded(b, n)
    ensures Bounded(a + b, n)
  {
    forall k | 0 <= k < |a + b| ensures (a + b)[k].i < n && (a + b)[k].j < n {
      if k < |a| {
        assert (a + b)[k] == a[k];
      } else {
        assert (a + b)[k] == b[k - |a|];
      }
    }
  }

  lemma BoundedPrefix(pairs: seq<Pair>, m: nat, n: nat)
    requires Bounded(pairs, n) && m <= |pairs|
    ensures Bounded(pairs[..m], n)
  {
    forall k | 0 <= k < m ensures pairs[..m][k].i < n && pairs[..m][k].j < n {
      assert pairs[..m][k] == pairs[k];
    }
  }

  /**
   * The connection loops: every pair `i < j` closer than 4.5 pushes its two
   * points. `dist(i, j)` is `points[i].distanceTo(points[j])`.
   */
  method ConnectPoints(points: seq<Vec3>, dist: (nat, nat) -> real) returns (lines: seq<Vec3>)
    ensures lines == Endpoints(points, Connections(|points|, dist, ConnectionDistance))
  {
    lines := [];
    var i := 0;
    while i < |points|
      invariant 0 <= i <= |points|
      invariant lines == Endpoints(points, Rows(i, |points|, dist, ConnectionDistance))
    {
      lines := ConnectRow(points, dist, i, lines);
      RowsStep(points, dist, i);
      i := i + 1;
    }
  }

  /** The rows up to `i` give the segments of the rows before it followed by those of row `i`. */
  lemma RowsStep(points: seq<Vec3>, dist: (nat, nat) -> real, i: nat)
    requires i < |points|
    ensures Endpoints(points, Rows(i + 1, |points|, dist, ConnectionDistance)) ==
            Endpoints(points, Rows(i, |points|, dist, ConnectionDistance)) + RowSegments(points, dist, i, |points|)
  {
    var before := Rows(i, |points|, dist, ConnectionDistance);
    var row := Row(i, |points|, dist, ConnectionDistance);
    RowShape(i, |points|, dist, ConnectionDistance);
    assert Rows(i + 1, |points|, dist, ConnectionDistance) == before + row;
    EndpointsConcat(points, before, row);
  }

  /** The inner loop for point `i`: the close points after it, each pushed after `points[i]`. */
  method ConnectRow(points: seq<Vec3>, dist: (nat, nat) -> real, i: nat, linesBefore: seq<Vec3>)
    returns (lines: seq<Vec3>)
    requires i < |points|
    ensures lines == linesBefore + RowSegments(points, dist, i, |points|)
  {
    lines := linesBefore;
    ghost var segments: seq<Vec3> := [];
    RowStart(points, dist, i, linesBefore);
    var j := i + 1;
    while j < |points|
      invariant i + 1 <= j <= |points|
      invariant segments == RowSegments(points, dist, i, j)
      invariant lines == linesBefore + segments
    {
      RowStep(points, dist, i, j);
      if dist(i, j) < ConnectionDistance {
        AppendAssoc(linesBefore, segments, [points[i], points[j]]);
        lines := lines + [points[i], points[j]];
        segments := segments + [points[i], points[j]];
      }
      j := j + 1;
    }
  }

  /** Before the inner loop, row `i` has no segments yet. */
  lemma RowStart(points: seq<Vec3>, dist: (nat, nat) -> real, i: nat, linesBefore: seq<Vec3>)
    requires i < |points|
    ensures RowSegments(points, dist, i, i + 1) == [] && linesBefore + [] == linesBefore
  {
  }

  lemma AppendAssoc<T>(a: seq<T>, b: seq<T>, c: seq<T>)
    ensures (a + b) + c == a + (b + c)
  {
  }

  /** The segments of row `i` up to column `j`. */
  ghost function RowSegments(points: seq<Vec3>, dist: (nat, nat) -> real, i: nat, j: nat): seq<Vec3>
    requires i < |points| && j <= |points|
  {
    var row := Row(i, j, dist, ConnectionDistance);
    RowShape(i, j, dist, ConnectionDistance);
    assert Bounded(row, |points|);
    Endpoints(points, row)
  }

  /** One step of the inner loop: a close pair adds its two points, any other adds nothing. */
  lemma RowStep(points: seq<Vec3>, dist: (nat, nat) -> real, i: nat, j: nat)
    requires i < j < |points|
    ensures dist(i, j) < ConnectionDistance ==>
              RowSegments(points, dist, i, j + 1) == RowSegments(points, dist, i, j) + [points[i], points[j]]
    ensures !(dist(i, j) < ConnectionDistance) ==> RowSegments(points, dist, i, j + 1) == RowSegments(points, dist, i, j)
  {
    var row := Row(i, j, dist, ConnectionDistance);
    RowShape(i, j, dist, ConnectionDistance);
    assert Bounded(row, |points|);
    if dist(i, j) < ConnectionDistance {
      EndpointsAppend(points, row, Pair(i, j));
    } else {
      assert row + [] == row;
    }
  }

  /** A segment joins two different cells exactly when they are closer than 4.5, and each pair of cells at most once. */
  lemma SegmentsExact(points: seq<Vec3>, dist: (nat, nat) -> real, i: nat, j: nat)
    ensures Pair(i, j) in Connections(|points|, dist, ConnectionDistance) <==>
            i < j < |points| && dist(i, j) < ConnectionDistance
    ensures |Endpoints(points, Connections(|points|, dist, ConnectionDistance))| ==
            2 * |Connections(|points|, dist, ConnectionDistance)|
  {
    ConnectionsExact(|points|, dist, ConnectionDistance, i, j);
  }

  /** The `c`-th coordinate of a point. */
  function Coord(p: Vec3, c: nat): real
  {
    if c == 0 then p.x else if c == 1 then p.y else p.z
  }

  /** The buffer layout three.js reads: point `i` at entries `3i`, `3i + 1`, `3i + 2`. */
  function Flatten(ps: seq<Vec3>): (r: seq<real>)
    ensures |r| == 3 * |ps|
    ensures forall i :: 0 <= i < |ps| ==> r[3 * i] == ps[i].x && r[3 * i + 1] == ps[i].y && r[3 * i + 2] == ps[i].z
  {
    if ps == [] then []
    else [ps[0].x, ps[0].y, ps[0].z] + Flatten(ps[1..])
  }

  /** Reading a stride-3 buffer back as points. */
  function Unflatten(r: seq<real>): (ps: seq<Vec3>)
    requires |r| % 3 == 0
    ensures 3 * |ps| == |r|
  {
    if r == [] then []
    else [Vec3(r[0], r[1], r[2])] + Unflatten(r[3..])
  }

  /** The buffer holds the points and nothing else: read back it gives them again. */
  lemma {:induction false} FlattenRoundTrip(ps: seq<Vec3>)
    ensures Unflatten(Flatten(ps)) == ps
  {
    if ps != [] {
      FlattenRoundTrip(ps[1..]);
      assert Flatten(ps)[3..] == Flatten(ps[1..]);
    }
  }

  /** `new Float32Array(points.length * 3)` filled by `forEach`, one point (three entries) at a time. */
  method FillBuffer(ps: seq<Vec3>) returns (buffer: array<real>)
    ensures fresh(buffer) && buffer[..] == Flatten(ps)
  {
    buffer := new real[|ps| * 3](_ => 0.0);
    var i := 0;
    while i < |ps|
      invariant 0 <= i <= |ps|
      invariant forall k :: 0 <= k < i ==>
                  buffer[3 * k] == ps[k].x && buffer[3 * k + 1] == ps[k].y && buffer[3 * k + 2] == ps[k].z
      modifies buffer
    {
      buffer[i * 3] := ps[i].x;
      buffer[i * 3 + 1] := ps[i].y;
      buffer[i * 3 + 2] := ps[i].z;
      i := i + 1;
    }
    var f := Flatten(ps);
    forall e | 0 <= e < buffer.Length ensures buffer[e] == f[e] {
      var k := e / 3;
      var c := e % 3;
      assert e == 3 * k + c && 0 <= c < 3;
      assert k < |ps|;
      if c == 0 {
        assert buffer[3 * k] == ps[k].x == f[3 * k];
      } else if c == 1 {
        assert buffer[3 * k + 1] == ps[k].y == f[3 * k + 1];
      } else {
        assert buffer[3 * k + 2] == ps[k].z == f[3 * k + 2];
      }
    }
  }

  /** `count={array.length / 3}`: the number of points in a buffer. */
  function Count(buffer: seq<real>): nat
  {
    |buffer| / 3
  }

  /**
   * The grid as `useMemo` builds it: 64 points with their buffer, whose count
   * is 64, and the segment buffer, six entries per connection, whose count is
   * two vertices per connection.
   */
  method BuildGrid(jitters: seq<Jitter>, dist: (nat, nat) -> real)
    returns (positions: array<real>, connections: array<real>)
    requires |jitters| == GridSize * GridSize && forall k :: 0 <= k < |jitters| ==> RandomJitter(jitters[k])
    ensures positions.Length == 3 * (GridSize * GridSize) && Count(positions[..]) == GridSize * GridSize
    ensures Unflatten(positions[..]) == seq(GridSize * GridSize, k requires 0 <= k < GridSize * GridSize =>
              GridPoint(CellAt(k).0, CellAt(k).1, jitters[k]))
    ensures connections.Length == 6 * |Connections(GridSize * GridSize, dist, ConnectionDistance)|
    ensures Count(connections[..]) == 2 * |Connections(GridSize * GridSize, dist, ConnectionDistance)|
  {
    var points := GeneratePoints(jitters);
    var lines := ConnectPoints(points, dist);
    positions := FillBuffer(points);
    connections := FillBuffer(lines);
    FlattenRoundTrip(points);
    forall k | 0 <= k < GridSize * GridSize
      ensures points[k] == GridPoint(CellAt(k).0, CellAt(k).1, jitters[k])
    {
      IndexRoundTrip(0, 0, k);
    }
  }

  /** The group's sway: `sin(t · 0.02) · 0.1` about y and `cos(t · 0.014) · 0.05` about x, given the sine and cosine. */
  function Sway(sinT: real, cosT: real): (r: (real, real))
    requires -1.0 <= sinT <= 1.0 && -1.0 <= cosT <= 1.0
    ensures -0.1 <= r.0 <= 0.1 && -0.05 <= r.1 <= 0.05
  {
    (sinT * 0.1, cosT * 0.05)
  }

  /** What is left of a non-negative `a` after taking out whole multiples of `m`. */
  lemma FloorRemainder(a: real, m: real)
    requires a >= 0.0 && m > 0.0
    ensures 0.0 <= a - m * ((a / m).Floor as real) < m
  {
    var q := a / m;
    var f := q.Floor as real;
    assert f <= q < f + 1.0;
    assert q * m == a;
    assert a - m * f == m * (q - f);
    var d := q - f;
    assert 0.0 <= d < 1.0;
    assert m * (1.0 - d) > 0.0;
    assert m * d == m - m * (1.0 - d);
    assert m * d < m;
    assert a - m * f == m * d;
    assert f == (a / m).Floor as real;
    assert a - m * f < m;
  }

  /** JavaScript's `%` on numbers: the remainder takes the sign of the dividend. */
  function JsMod(a: real, m: real): (r: real)
    requires m > 0.0
    ensures a >= 0.0 ==> 0.0 <= r < m
    ensures a < 0.0 ==> -m < r <= 0.0
  {
    if a >= 0.0 then FloorRemainder(a, m); a - m * (a / m).Floor as real
    else FloorRemainder(-a, m); -((-a) - m * ((-a) / m).Floor as real)
  }

  /** `15 - ((t * speed + offset) % 30)`: the height of a falling digit. */
  function RainY(fall: real): real
  {
    15.0 - JsMod(fall, 30.0)
  }

  /**
   * While the elapsed fall is non-negative the digit stays in (-15, 15],
   * starts at the top, and comes back to the same height every 30 units.
   */
  lemma RainLoops(fall: real)
    requires fall >= 0.0
    ensures -15.0 < RainY(fall) <= 15.0
    ensures RainY(0.0) == 15.0
    ensures RainY(fall + 30.0) == RainY(fall)
  {
    JsModPeriod(fall);
    assert JsMod(0.0, 30.0) == 0.0 - 30.0 * (0.0 / 30.0).Floor as real;
  }

  /** Adding one period of 30 to a non-negative dividend leaves the remainder unchanged. */
  lemma JsModPeriod(a: real)
    requires a >= 0.0
    ensures JsMod(a + 30.0, 30.0) == JsMod(a, 30.0)
  {
    var q := a / 30.0;
    var r := (a + 30.0) / 30.0;
    assert r == q + 1.0;
    assert r.Floor == q.Floor + 1;
    var f := q.Floor as real;
    assert JsMod(a + 30.0, 30.0) == a + 30.0 - 30.0 * (f + 1.0);
    assert JsMod(a, 30.0) == a - 30.0 * f;
  }

  /** One column of `BinaryRain`: its draws, then what it keeps. */
  datatype Column = Column(x: real, speed: real, offset: real, binary: char)

  function RainColumn(i: nat, rx: real, rspeed: real, roffset: real, rbinary: real): (c: Column)
    requires Unit(rx) && Unit(rspeed) && Unit(roffset) && Unit(rbinary)
    ensures -1.0 <= c.x - (i as real - 6.0) * 4.0 < 1.0
    ensures 0.3 <= c.speed < 0.5 && 0.0 <= c.offset < 20.0
    ensures c.binary == '0' || c.binary == '1'
  {
    Column((i as real - 12.0 / 2.0) * 4.0 + (rx - 0.5) * 2.0, 0.3 + rspeed * 0.2, roffset * 20.0,
           if rbinary > 0.5 then '0' else '1')
  }

  /** A column's fall is never negative, so its digit always stays within the band. */
  lemma ColumnInBand(c: Column, t: real)
    requires t >= 0.0 && 0.3 <= c.speed < 0.5 && 0.0 <= c.offset < 20.0
    ensures -15.0 < RainY(t * c.speed + c.offset) <= 15.0
  {
    assert t * c.speed >= 0.0;
    RainLoops(t * c.speed + c.offset);
  }

  const CodeSymbols: seq<char> := ['<', '>', '/', '{', '}', '[', ']', '(', ')', ';', '#', '=', '+', '-', '*']

  /** `Math.PI`. */
  const Pi: real := 3.141592653589793

  /** The seven `Math.random()` values one symbol consumes: one for its symbol, six for the rest. */
  datatype SymbolDraw = SymbolDraw(symbol: real, x: real, y: real, z: real, speed: real, phase: real, rotation: real)

  predicate RandomSymbol(d: SymbolDraw)
  {
    Unit(d.symbol) && Unit(d.x) && Unit(d.y) && Unit(d.z) && Unit(d.speed) && Unit(d.phase) && Unit(d.rotation)
  }

  datatype Symbol = Symbol(symbol: char, position: Vec3, speed: real, phase: real, rotationSpeed: real)

  /** `codeSymbols[Math.floor(Math.random() * codeSymbols.length)]`: always one of the set. */
  function PickSymbol(r: real): (c: char)
    requires Unit(r)
    ensures c in CodeSymbols
  {
    var k := (r * |CodeSymbols| as real).Floor;
    assert 0 <= k < |CodeSymbols|;
    CodeSymbols[k]
  }

  /** Every symbol of the set can be drawn: the draw `k / 15` picks the `k`-th. */
  lemma EverySymbolDrawn(k: nat)
    requires k < |CodeSymbols|
    ensures PickSymbol(k as real / 15.0) == CodeSymbols[k]
  {
    assert k as real / 15.0 * 15.0 == k as real;
  }

  /** One item of `FloatingSymbols`: the ranges of each field. */
  function MakeSymbol(d: SymbolDraw): (s: Symbol)
    requires RandomSymbol(d)
    ensures s.symbol in CodeSymbols
    ensures -15.0 <= s.position.x < 15.0 && -12.5 <= s.position.y < 12.5 && -20.0 <= s.position.z < -10.0
    ensures 0.2 <= s.speed < 0.5 && 0.0 <= s.phase < 2.0 * Pi && -0.01 <= s.rotationSpeed < 0.01
  {
    Symbol(PickSymbol(d.symbol), Vec3((d.x - 0.5) * 30.0, (d.y - 0.5) * 25.0, -20.0 + d.z * 10.0),
           0.2 + d.speed * 0.3, d.phase * Pi * 2.0, (d.rotation - 0.5) * 0.02)
  }

  /** The loop of `FloatingSymbols`: fifteen items, one per draw. */
  method GenerateSymbols(draws: seq<SymbolDraw>) returns (items: seq<Symbol>)
    requires |draws| >= SymbolCount && forall k :: 0 <= k < |draws| ==> RandomSymbol(draws[k])
    ensures |items| == SymbolCount
    ensures forall k :: 0 <= k < |items| ==> items[k] == MakeSymbol(draws[k]) && items[k].symbol in CodeSymbols
  {
    items := [];
    var i := 0;
    while i < SymbolCount
      invariant 0 <= i <= SymbolCount && |items| == i
      invariant forall k :: 0 <= k < i ==> items[k] == MakeSymbol(draws[k]) && items[k].symbol in CodeSymbols
    {
      items := items + [MakeSymbol(draws[i])];
      i := i + 1;
    }
  }

  /** The drift of a symbol about its place: half a unit up or down, a quarter sideways. */
  function Drift(base: Vec3, sinT: real, cosT: real): (p: (real, real))
    requires -1.0 <= sinT <= 1.0 && -1.0 <= cosT <= 1.0
    ensures -0.25 <= p.0 - base.x <= 0.25 && -0.5 <= p.1 - base.y <= 0.5
  {
    (base.x + cosT * 0.5 * 0.5, base.y + sinT * 0.5)
  }

  /** A symbol's sprite: its rotation about z grows by `rotationSpeed` every frame. */
  class SymbolSprite {
    const rotationSpeed: real
    var rotationZ: real

    constructor (rotationSpeed: real)
      ensures this.rotationSpeed == rotationSpeed && rotationZ == 0.0
    {
      this.rotationSpeed := rotationSpeed;
      rotationZ := 0.0;
    }

    method Frame()
      modifies this
      ensures rotationZ == old(rotationZ) + rotationSpeed
    {
      rotationZ := rotationZ + rotationSpeed;
    }
  }

  /** After `n` frames a sprite has turned by `n · rotationSpeed`, at most a hundredth of a radian per frame. */
  method Spin(rotationSpeed: real, n: nat) returns (angle: real)
    requires -0.01 <= rotationSpeed < 0.01
    ensures angle == n as real * rotationSpeed
    ensures -0.01 * n as real <= angle <= 0.01 * n as real
  {
    var sprite := new SymbolSprite(rotationSpeed);
    var i := 0;
    while i < n
      invariant 0 <= i <= n && sprite.rotationZ == i as real * rotationSpeed
      invariant -0.01 * i as real <= sprite.rotationZ <= 0.01 * i as real
    {
      sprite.Frame();
      i := i + 1;
    }
    angle := sprite.rotationZ;
  }
}
