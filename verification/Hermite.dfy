/**
 The cubic Hermite shapes of a two-node ANCF element and the global row block `H` that
 interpolates the line at one reference position. The Python mapping locates the element by
 bisection on a node list; the C++ kernel locates it by floor division on a uniform mesh.
 */
module Hermite {
  import opened Wrappers
  import opened Vectors

  const S_REF_TOLERANCE := 1.0e-10
  const GEOMETRY_TOLERANCE := 1.0e-12

  datatype MappingError = TooFewNodes | MeshOrigin | MeshOrder | MeshEnd | OutsideMesh | TooFewDofs

  // ----- shapes

  /** The shapes at the relative position `xi` of an element of length `l`. */
  function ShapeAt(xi: real, l: real): (n: seq<real>)
    ensures |n| == 4
  {
    [1.0 - 3.0 * xi * xi + 2.0 * xi * xi * xi,
     l * (xi - 2.0 * xi * xi + xi * xi * xi),
     3.0 * xi * xi - 2.0 * xi * xi * xi,
     l * (-xi * xi + xi * xi * xi)]
  }

  function Shape(x: real, length: real): (n: seq<real>)
    requires length != 0.0
    ensures |n| == 4
  {
    ShapeAt(x / length, length)
  }

  /** A cubic displacement field along the line. */
  datatype Cubic = Cubic(c0: real, c1: real, c2: real, c3: real) {
    function At(s: real): real {
      c0 + c1 * s + c2 * (s * s) + c3 * (s * s * s)
    }

    function Slope(s: real): real {
      c1 + 2.0 * c2 * s + 3.0 * c3 * (s * s)
    }
  }

  /** The four shapes at `x` interpolate `1`, `x`, `x^2` and `x^3` from the ends of an element of length `l`. */
  predicate Moments(n: seq<real>, x: real, l: real) {
    && |n| == 4 && n[0] + n[2] == 1.0 && n[1] + l * n[2] + n[3] == x
    && l * l * n[2] + 2.0 * l * n[3] == x * x
    && l * l * l * n[2] + 3.0 * (l * l) * n[3] == x * x * x
  }

  lemma ShapeMoments(x: real, length: real)
    requires length != 0.0
    ensures Moments(Shape(x, length), x, length)
  {
    hide ShapeAt, Moments;
    Divided(x, length);
    ShapeTerms(x, length, x / length);
  }

  lemma ShapeTerms(x: real, l: real, xi: real)
    requires x == l * xi
    ensures Moments(ShapeAt(xi, l), x, l)
  {
    assert x * x == l * l * (xi * xi);
    assert x * x * x == l * l * l * (xi * xi * xi);
  }

  /** The Taylor coefficients of the field at one point. */
  datatype Taylor = Taylor(d0: real, d1: real, d2: real, d3: real) {
    function At(t: real): real {
      d0 + d1 * t + d2 * (t * t) + d3 * (t * t * t)
    }

    function Slope(t: real): real {
      d1 + 2.0 * d2 * t + 3.0 * d3 * (t * t)
    }
  }

  function Expansion(p: Cubic, s: real): Taylor {
    Taylor(p.At(s), p.Slope(s), p.c2 + 3.0 * p.c3 * s, p.c3)
  }

  lemma CubicShift(p: Cubic, s: real, t: real)
    ensures p.At(s + t) == Expansion(p, s).At(t) && p.Slope(s + t) == Expansion(p, s).Slope(t)
  {
    ShiftTerms(p.c0, p.c1, p.c2, p.c3, s, t, s + t, p.c2 + 3.0 * p.c3 * s);
  }

  lemma ShiftTerms(c0: real, c1: real, c2: real, c3: real, s: real, t: real, u: real, d2: real)
    requires u == s + t && d2 == c2 + 3.0 * c3 * s
    ensures c0 + c1 * u + c2 * (u * u) + c3 * (u * u * u)
      == (c0 + c1 * s + c2 * (s * s) + c3 * (s * s * s)) + (c1 + 2.0 * c2 * s + 3.0 * c3 * (s * s)) * t
         + d2 * (t * t) + c3 * (t * t * t)
    ensures c1 + 2.0 * c2 * u + 3.0 * c3 * (u * u)
      == (c1 + 2.0 * c2 * s + 3.0 * c3 * (s * s)) + 2.0 * d2 * t + 3.0 * c3 * (t * t)
  {
  }

  /** Hermite interpolation between two nodes. */
  ghost function Interpolated(n: seq<real>, a: real, da: real, b: real, db: real): real
    requires |n| == 4
  {
    n[0] * a + n[1] * da + n[2] * b + n[3] * db
  }

  /** Interpolating nodal values and slopes reproduces every cubic field. */
  lemma ShapeReproducesCubic(p: Cubic, node: real, next: real, s: real)
    requires node != next
    ensures Interpolated(Shape(s - node, next - node), p.At(node), p.Slope(node), p.At(next), p.Slope(next)) == p.At(s)
  {
    hide Shape, Moments, Interpolated, Cubic.At, Cubic.Slope, Taylor.At, Taylor.Slope;
    var l, x := next - node, s - node;
    ShapeMoments(x, l);
    CubicShift(p, node, l);
    CubicShift(p, node, x);
    assert node + l == next && node + x == s;
    TaylorInterpolates(Shape(x, l), Expansion(p, node), x, l);
  }

  lemma TaylorInterpolates(n: seq<real>, e: Taylor, x: real, l: real)
    requires Moments(n, x, l)
    ensures Interpolated(n, e.d0, e.d1, e.At(l), e.Slope(l)) == e.At(x)
  {
    TaylorCombination(n[0], n[1], n[2], n[3], l, x, e.d0, e.d1, e.d2, e.d3, e.At(l), e.Slope(l));
  }

  lemma TaylorCombination(n0: real, n1: real, n2: real, n3: real, l: real, x: real,
                          d0: real, d1: real, d2: real, d3: real, b: real, db: real)
    requires n0 + n2 == 1.0 && n1 + l * n2 + n3 == x
    requires l * l * n2 + 2.0 * l * n3 == x * x
    requires l * l * l * n2 + 3.0 * (l * l) * n3 == x * x * x
    requires b == d0 + d1 * l + d2 * (l * l) + d3 * (l * l * l)
    requires db == d1 + 2.0 * d2 * l + 3.0 * d3 * (l * l)
    ensures n0 * d0 + n1 * d1 + n2 * b + n3 * db == d0 + d1 * x + d2 * (x * x) + d3 * (x * x * x)
  {
    var m1, m2, m3 := n1 + l * n2 + n3, l * l * n2 + 2.0 * l * n3, l * l * l * n2 + 3.0 * (l * l) * n3;
    TaylorExpands(n0, n1, n2, n3, l, d0, d1, d2, d3, b, db);
    SameFactor(d1, m1, x);
    SameFactor(d2, m2, x * x);
    SameFactor(d3, m3, x * x * x);
  }

  lemma SameFactor(d: real, a: real, b: real)
    requires a == b
    ensures d * a == d * b
  {
  }

  lemma TaylorExpands(n0: real, n1: real, n2: real, n3: real, l: real, d0: real, d1: real, d2: real, d3: real,
      b: real, db: real)
    requires b == d0 + d1 * l + d2 * (l * l) + d3 * (l * l * l) && db == d1 + 2.0 * d2 * l + 3.0 * d3 * (l * l)
    requires n0 + n2 == 1.0
    ensures n0 * d0 + n1 * d1 + n2 * b + n3 * db
      == d0 + d1 * (n1 + l * n2 + n3) + d2 * (l * l * n2 + 2.0 * l * n3) + d3 * (l * l * l * n2 + 3.0 * (l * l) * n3)
  {
    var n := n0 + n2;
    assert n * d0 == n0 * d0 + n2 * d0;
  }

  // ----- the row block

  /** Row `c` of `H` once the first `blocks` shapes of element `e` are placed. */
  ghost function RowPlaced(e: nat, shape: seq<real>, c: nat, ndof: nat, blocks: nat): (r: seq<real>)
    requires |shape| == 4 && c < 3 && blocks <= 4 && 6 * e + 12 <= ndof
    ensures |r| == ndof
    ensures forall j :: 6 * e + 3 * blocks <= j < ndof ==> r[j] == 0.0
    decreases blocks
  {
    if blocks == 0 then Zeros(ndof)
    else RowPlaced(e, shape, c, ndof, blocks - 1)[6 * e + 3 * (blocks - 1) + c := shape[blocks - 1]]
  }

  ghost function Row(e: nat, shape: seq<real>, c: nat, ndof: nat): (r: seq<real>)
    requires |shape| == 4 && c < 3 && 6 * e + 12 <= ndof
    ensures |r| == ndof
  {
    RowPlaced(e, shape, c, ndof, 4)
  }

  ghost function Weighted(e: nat, shape: seq<real>, c: nat, q: seq<real>, blocks: nat): real
    requires |shape| == 4 && c < 3 && blocks <= 4 && 6 * e + 12 <= |q|
    decreases blocks
  {
    if blocks == 0 then 0.0
    else Weighted(e, shape, c, q, blocks - 1) + shape[blocks - 1] * q[6 * e + 3 * (blocks - 1) + c]
  }

  /** A row of `H` reads four entries of `q`. */
  lemma {:induction false} RowDot(e: nat, shape: seq<real>, c: nat, q: seq<real>, blocks: nat)
    requires |shape| == 4 && c < 3 && blocks <= 4 && 6 * e + 12 <= |q|
    ensures Dot(RowPlaced(e, shape, c, |q|, blocks), q, 0, |q|) == Weighted(e, shape, c, q, blocks)
    decreases blocks
  {
    if blocks == 0 {
      DotZero(RowPlaced(e, shape, c, |q|, 0), q, 0, |q|);
    } else {
      hide Dot, RowPlaced, Weighted;
      RowDot(e, shape, c, q, blocks - 1);
      RowDotStep(e, shape, c, q, blocks - 1);
    }
  }

  lemma RowDotStep(e: nat, shape: seq<real>, c: nat, q: seq<real>, b: nat)
    requires |shape| == 4 && c < 3 && b < 4 && 6 * e + 12 <= |q|
    ensures Dot(RowPlaced(e, shape, c, |q|, b + 1), q, 0, |q|) - Dot(RowPlaced(e, shape, c, |q|, b), q, 0, |q|)
      == Weighted(e, shape, c, q, b + 1) - Weighted(e, shape, c, q, b)
  {
    hide Dot, RowPlaced, Weighted;
    var i := 6 * e + 3 * b + c;
    PlacedNext(e, shape, c, |q|, b);
    WeightedNext(e, shape, c, q, b);
    DotSet(RowPlaced(e, shape, c, |q|, b), q, i, shape[b], |q|);
  }

  lemma PlacedNext(e: nat, shape: seq<real>, c: nat, ndof: nat, b: nat)
    requires |shape| == 4 && c < 3 && b < 4 && 6 * e + 12 <= ndof
    ensures RowPlaced(e, shape, c, ndof, b + 1) == RowPlaced(e, shape, c, ndof, b)[6 * e + 3 * b + c := shape[b]]
  {
  }

  lemma WeightedNext(e: nat, shape: seq<real>, c: nat, q: seq<real>, b: nat)
    requires |shape| == 4 && c < 3 && b < 4 && 6 * e + 12 <= |q|
    ensures Weighted(e, shape, c, q, b + 1) == Weighted(e, shape, c, q, b) + shape[b] * q[6 * e + 3 * b + c]
  {
  }

  // ----- locating the element on a node list

  predicate Increasing(nodes: seq<real>) {
    forall i :: 0 < i < |nodes| ==> nodes[i - 1] < nodes[i]
  }

  lemma {:induction false} IncreasingAll(nodes: seq<real>, i: nat, j: nat)
    requires Increasing(nodes) && i < j < |nodes|
    ensures nodes[i] < nodes[j]
    decreases j
  {
    if i < j - 1 {
      IncreasingAll(nodes, i, j - 1);
    }
  }

  /** The number of leading nodes at or before `s`. */
  function BisectRight(nodes: seq<real>, s: real): (k: nat)
    ensures k <= |nodes|
    ensures forall i :: 0 <= i < k ==> nodes[i] <= s
    ensures k < |nodes| ==> s < nodes[k]
  {
    if |nodes| == 0 || s < nodes[0] then 0
    else
      assert forall i :: 0 < i < |nodes| ==> nodes[1..][i - 1] == nodes[i];
      1 + BisectRight(nodes[1..], s)
  }

  function MinNat(a: int, b: int): int {
    if a < b then a else b
  }

  function Clamp(s: real, nodes: seq<real>): real
    requires |nodes| >= 2
  {
    var low := if s < nodes[0] then nodes[0] else s;
    if nodes[|nodes| - 1] < low then nodes[|nodes| - 1] else low
  }

  function Element(nodes: seq<real>, s: real): (e: nat)
    requires |nodes| >= 2 && nodes[0] <= s
    ensures e + 2 <= |nodes|
  {
    if s >= nodes[|nodes| - 1] then |nodes| - 2
    else
      assert BisectRight(nodes, s) >= 1;
      MinNat(BisectRight(nodes, s) - 1, |nodes| - 2)
  }

  predicate ValidMesh(nodes: seq<real>) {
    |nodes| >= 2 && Abs(nodes[0]) <= GEOMETRY_TOLERANCE && Increasing(nodes)
  }

  /** Row `c` of the Python `H` at the clamped position `s`. */
  ghost function PythonRow(nodes: seq<real>, s: real, c: nat, ndof: nat): (r: seq<real>)
    requires ValidMesh(nodes) && nodes[0] <= s <= nodes[|nodes| - 1] && c < 3 && 6 * |nodes| <= ndof
    ensures |r| == ndof
  {
    var e := Element(nodes, s);
    Row(e, Shape(s - nodes[e], nodes[e + 1] - nodes[e]), c, ndof)
  }

  function MatrixRow(m: array2<real>, i: nat): (row: seq<real>)
    requires i < m.Length0
    reads m
    ensures |row| == m.Length1
  {
    seq(m.Length1, j requires 0 <= j < m.Length1 reads m => m[i, j])
  }

  predicate EndsAt(nodes: seq<real>, reference: real)
    requires |nodes| > 0
  {
    Abs(nodes[|nodes| - 1] - reference) <= S_REF_TOLERANCE * Max(1.0, Abs(reference))
  }

  /** The first defect of a node list; a mesh made for a manifest must also end at its reference length. */
  function MeshDefect(nodes: seq<real>, reference: Option<real>): (defect: Option<MappingError>)
    ensures defect.None? ==> ValidMesh(nodes)
    ensures reference.None? && ValidMesh(nodes) ==> defect.None?
  {
    if |nodes| < 2 then Some(TooFewNodes)
    else if Abs(nodes[0]) > GEOMETRY_TOLERANCE then Some(MeshOrigin)
    else if !Increasing(nodes) then Some(MeshOrder)
    else if reference.Some? && !EndsAt(nodes, reference.value) then Some(MeshEnd)
    else None
  }

  method ValidateMeshNodes(nodes: seq<real>, reference: Option<real>) returns (defect: Option<MappingError>)
    ensures defect == MeshDefect(nodes, reference)
  {
    if |nodes| < 2 {
      return Some(TooFewNodes);
    }
    if Abs(nodes[0]) > GEOMETRY_TOLERANCE {
      return Some(MeshOrigin);
    }
    for i := 1 to |nodes|
      invariant forall k :: 0 < k < i ==> nodes[k - 1] < nodes[k]
    {
      if nodes[i] <= nodes[i - 1] {
        return Some(MeshOrder);
      }
    }
    if reference.Some? && !EndsAt(nodes, reference.value) {
      return Some(MeshEnd);
    }
    return None;
  }

  predicate OffMesh(nodes: seq<real>, s: real)
    requires |nodes| >= 2
  {
    s < nodes[0] - S_REF_TOLERANCE || s > nodes[|nodes| - 1] + S_REF_TOLERANCE
  }

  /** Builds the three rows of `H` at one reference position, or names the first rejected input. */
  method AncfHermiteH(sRef: real, nodes: seq<real>, ndofGiven: Option<nat>)
      returns (r: Result<seq<seq<real>>, MappingError>)
    ensures match MeshDefect(nodes, None)
      case Some(defect) => r == Err(defect)
      case None => r.Err? ==> r.error in {OutsideMesh, TooFewDofs}
    ensures r == Err(OutsideMesh) <==> ValidMesh(nodes) && OffMesh(nodes, sRef)
    ensures r == Err(TooFewDofs) <==>
      ValidMesh(nodes) && !OffMesh(nodes, sRef) && ndofGiven.Some? && ndofGiven.value < 6 * |nodes|
    ensures r.Ok? ==>
      var s, ndof := Clamp(sRef, nodes), if ndofGiven.Some? then ndofGiven.value else 6 * |nodes|;
      && nodes[0] <= s <= nodes[|nodes| - 1] && |r.value| == 3
      && forall c :: 0 <= c < 3 ==> r.value[c] == PythonRow(nodes, s, c, ndof)
  {
    var defect := ValidateMeshNodes(nodes, None);
    if defect.Some? {
      return Err(defect.value);
    }
    if OffMesh(nodes, sRef) {
      return Err(OutsideMesh);
    }
    IncreasingAll(nodes, 0, |nodes| - 1);
    var s := Clamp(sRef, nodes);
    var ndof := if ndofGiven.Some? then ndofGiven.value else 6 * |nodes|;
    if ndof < 6 * |nodes| {
      return Err(TooFewDofs);
    }
    var rows := BuildRows(nodes, s, ndof);
    r := Ok(rows);
  }

  method BuildRows(nodes: seq<real>, s: real, ndof: nat) returns (rows: seq<seq<real>>)
    requires ValidMesh(nodes) && nodes[0] <= s <= nodes[|nodes| - 1] && 6 * |nodes| <= ndof
    ensures |rows| == 3 && forall c :: 0 <= c < 3 ==> rows[c] == PythonRow(nodes, s, c, ndof)
  {
    var e := Element(nodes, s);
    var shape := Shape(s - nodes[e], nodes[e + 1] - nodes[e]);
    var matrix := new real[3, ndof]((_, _) => 0.0);
    PlaceBlocks(matrix, e, shape, 0);
    rows := seq(3, i requires 0 <= i < 3 reads matrix => MatrixRow(matrix, i));
  }

  /** Writes the four shapes of element `e` into three zero rows starting at row `top`. */
  method PlaceBlocks(matrix: array2<real>, e: nat, shape: seq<real>, top: nat)
    requires |shape| == 4 && top + 3 <= matrix.Length0 && 6 * e + 12 <= matrix.Length1
    requires forall i, j :: top <= i < top + 3 && 0 <= j < matrix.Length1 ==> matrix[i, j] == 0.0
    modifies matrix
    ensures forall i :: top <= i < top + 3 ==> MatrixRow(matrix, i) == Row(e, shape, i - top, matrix.Length1)
    ensures forall i :: 0 <= i < matrix.Length0 && !(top <= i < top + 3) ==>
      MatrixRow(matrix, i) == old(MatrixRow(matrix, i))
  {
    var ndof := matrix.Length1;
    assert forall i :: top <= i < top + 3 ==> MatrixRow(matrix, i) == Zeros(ndof);
    for block := 0 to 4
      invariant forall i :: top <= i < top + 3 ==> MatrixRow(matrix, i) == RowPlaced(e, shape, i - top, ndof, block)
      invariant forall i :: 0 <= i < matrix.Length0 && !(top <= i < top + 3) ==>
        MatrixRow(matrix, i) == old(MatrixRow(matrix, i))
    {
      for component := 0 to 3
        invariant forall i :: top <= i < top + component ==>
          MatrixRow(matrix, i) == RowPlaced(e, shape, i - top, ndof, block + 1)
        invariant forall i :: top + component <= i < top + 3 ==>
          MatrixRow(matrix, i) == RowPlaced(e, shape, i - top, ndof, block)
        invariant forall i :: 0 <= i < matrix.Length0 && !(top <= i < top + 3) ==>
          MatrixRow(matrix, i) == old(MatrixRow(matrix, i))
      {
        WriteEntry(matrix, top + component, 6 * e + 3 * block + component, shape[block]);
      }
    }
  }

  method WriteEntry(matrix: array2<real>, i: nat, j: nat, v: real)
    requires i < matrix.Length0 && j < matrix.Length1
    modifies matrix
    ensures MatrixRow(matrix, i) == old(MatrixRow(matrix, i))[j := v]
    ensures forall k :: 0 <= k < matrix.Length0 && k != i ==> MatrixRow(matrix, k) == old(MatrixRow(matrix, k))
  {
    matrix[i, j] := v;
  }

  // ----- cubic fields on the nodes

  /** The global coordinates with the given nodal values and slopes in direction `c` and zero elsewhere. */
  ghost function NodalField(values: seq<real>, slopes: seq<real>, c: nat, ndof: nat): (q: seq<real>)
    requires c < 3 && |values| == |slopes|
    ensures |q| == ndof
  {
    seq(ndof, j requires 0 <= j < ndof =>
      if j / 6 >= |values| then 0.0
      else if j % 6 == c then values[j / 6]
      else if j % 6 == 3 + c then slopes[j / 6]
      else 0.0)
  }

  lemma NodalAt(values: seq<real>, slopes: seq<real>, c: nat, ndof: nat, k: nat, d: nat)
    requires c < 3 && d < 3 && k < |values| == |slopes| && 6 * k + 6 <= ndof
    ensures NodalField(values, slopes, c, ndof)[6 * k + d] == if d == c then values[k] else 0.0
    ensures NodalField(values, slopes, c, ndof)[6 * k + 3 + d] == if d == c then slopes[k] else 0.0
  {
    assert (6 * k + d) / 6 == k && (6 * k + d) % 6 == d;
    assert (6 * k + 3 + d) / 6 == k && (6 * k + 3 + d) % 6 == 3 + d;
  }

  ghost function ValuesOf(nodes: seq<real>, p: Cubic): (v: seq<real>)
    ensures |v| == |nodes|
  {
    seq(|nodes|, i requires 0 <= i < |nodes| => p.At(nodes[i]))
  }

  ghost function SlopesOf(nodes: seq<real>, p: Cubic): (v: seq<real>)
    ensures |v| == |nodes|
  {
    seq(|nodes|, i requires 0 <= i < |nodes| => p.Slope(nodes[i]))
  }

  /** `H` interpolates every cubic nodal field exactly, in its own direction and in no other. */
  lemma HReproducesCubic(nodes: seq<real>, s: real, c: nat, d: nat, p: Cubic, ndof: nat)
    requires ValidMesh(nodes) && nodes[0] <= s <= nodes[|nodes| - 1] && c < 3 && d < 3 && 6 * |nodes| <= ndof
    ensures Dot(PythonRow(nodes, s, d, ndof), NodalField(ValuesOf(nodes, p), SlopesOf(nodes, p), c, ndof), 0, ndof)
      == if c == d then p.At(s) else 0.0
  {
    hide Dot, Row, Shape, NodalField, Interpolated, Cubic.At, Cubic.Slope, Increasing, BisectRight;
    var e := Element(nodes, s);
    NodesDiffer(nodes, e);
    RowOnField(e, Shape(s - nodes[e], nodes[e + 1] - nodes[e]), c, d, ValuesOf(nodes, p), SlopesOf(nodes, p), ndof);
    ShapeReproducesCubic(p, nodes[e], nodes[e + 1], s);
  }

  lemma NodesDiffer(nodes: seq<real>, e: nat)
    requires ValidMesh(nodes) && e + 1 < |nodes|
    ensures nodes[e] < nodes[e + 1]
  {
  }

  lemma RowOnField(e: nat, shape: seq<real>, c: nat, d: nat, values: seq<real>, slopes: seq<real>, ndof: nat)
    requires |shape| == 4 && c < 3 && d < 3 && e + 1 < |values| == |slopes| && 6 * e + 12 <= ndof
    ensures Dot(Row(e, shape, d, ndof), NodalField(values, slopes, c, ndof), 0, ndof)
      == if c == d then Interpolated(shape, values[e], slopes[e], values[e + 1], slopes[e + 1]) else 0.0
  {
    hide Dot, Weighted, NodalField, Interpolated, RowPlaced;
    var q := NodalField(values, slopes, c, ndof);
    RowDot(e, shape, d, q, 4);
    WeightedFour(e, shape, d, q);
    NodalAt(values, slopes, c, ndof, e, d);
    NodalAt(values, slopes, c, ndof, e + 1, d);
    if c != d {
      InterpolatedZero(shape);
    }
  }

  lemma InterpolatedZero(n: seq<real>)
    requires |n| == 4
    ensures Interpolated(n, 0.0, 0.0, 0.0, 0.0) == 0.0
  {
  }

  lemma WeightedFour(e: nat, shape: seq<real>, c: nat, q: seq<real>)
    requires |shape| == 4 && c < 3 && 6 * e + 12 <= |q|
    ensures Weighted(e, shape, c, q, 4)
      == Interpolated(shape, q[6 * e + c], q[6 * e + 3 + c], q[6 * (e + 1) + c], q[6 * (e + 1) + 3 + c])
  {
    assert Weighted(e, shape, c, q, 1) == shape[0] * q[6 * e + c];
    assert Weighted(e, shape, c, q, 2) == shape[0] * q[6 * e + c] + shape[1] * q[6 * e + 3 + c];
    assert Weighted(e, shape, c, q, 3) == Weighted(e, shape, c, q, 2) + shape[2] * q[6 * e + 6 + c];
  }

  /** At a shared node either neighbouring element gives the same row. */
  lemma SharedNodeRow(nodes: seq<real>, k: nat, c: nat, ndof: nat)
    requires ValidMesh(nodes) && 0 < k < |nodes| - 1 && c < 3 && 6 * |nodes| <= ndof
    ensures Row(k - 1, Shape(nodes[k] - nodes[k - 1], nodes[k] - nodes[k - 1]), c, ndof)
         == Row(k, Shape(0.0, nodes[k + 1] - nodes[k]), c, ndof)
  {
    var left := Shape(nodes[k] - nodes[k - 1], nodes[k] - nodes[k - 1]);
    var right := Shape(0.0, nodes[k + 1] - nodes[k]);
    ShapeEnds(nodes[k] - nodes[k - 1]);
    ShapeEnds(nodes[k + 1] - nodes[k]);
    RowOfUnit(k - 1, left, c, ndof, 2);
    RowOfUnit(k, right, c, ndof, 0);
  }

  lemma ShapeEnds(l: real)
    requires l != 0.0
    ensures Shape(l, l) == [0.0, 0.0, 1.0, 0.0]
    ensures Shape(0.0, l) == [1.0, 0.0, 0.0, 0.0]
  {
    assert l / l == 1.0 && 0.0 / l == 0.0;
    assert l * (1.0 - 2.0 * 1.0 * 1.0 + 1.0 * 1.0 * 1.0) == 0.0;
    assert l * (0.0 - 2.0 * 0.0 * 0.0 + 0.0 * 0.0 * 0.0) == 0.0;
  }

  lemma RowOfUnit(e: nat, shape: seq<real>, c: nat, ndof: nat, b: nat)
    requires |shape| == 4 && b < 4 && c < 3 && 6 * e + 12 <= ndof
    requires forall i :: 0 <= i < 4 ==> shape[i] == if i == b then 1.0 else 0.0
    ensures Row(e, shape, c, ndof) == Zeros(ndof)[6 * e + 3 * b + c := 1.0]
  {
    var unit := Zeros(ndof)[6 * e + 3 * b + c := 1.0];
    for blocks := 0 to 4
      invariant RowPlaced(e, shape, c, ndof, blocks) == if blocks <= b then Zeros(ndof) else unit
    {
    }
  }

  // ----- the kernel's uniform mesh

  /** `elements` equal elements of length `le` make up the line. */
  predicate Uniform(elements: nat, length: real, le: real) {
    elements > 0 && le > 0.0 && elements as real * le == length
  }

  lemma UniformDivision(elements: nat, length: real)
    requires elements > 0 && length > 0.0
    ensures Uniform(elements, length, length / elements as real)
  {
  }

  ghost function UniformMesh(elements: nat, le: real): (nodes: seq<real>)
    ensures |nodes| == elements + 1
    ensures forall i :: 0 <= i <= elements ==> nodes[i] == i as real * le
  {
    seq(elements + 1, i requires 0 <= i <= elements => i as real * le)
  }

  function KernelElement(elements: nat, length: real, le: real, s: real): (e: nat)
    requires Uniform(elements, length, le) && 0.0 <= s <= length
    ensures e < elements
  {
    if s == length then elements - 1
    else
      assert s / le >= 0.0;
      MinNat(elements - 1, (s / le).Floor)
  }

  /** The four shapes of the kernel's element at `s`. */
  function KernelShape(elements: nat, length: real, le: real, s: real): (shape: seq<real>)
    requires Uniform(elements, length, le) && 0.0 <= s <= length
    ensures |shape| == 4
  {
    Shape(s - KernelElement(elements, length, le, s) as real * le, le)
  }

  /** Row `c` of the kernel's block at `s`. */
  ghost function KernelRow(elements: nat, length: real, le: real, s: real, c: nat): (r: seq<real>)
    requires Uniform(elements, length, le) && 0.0 <= s <= length && c < 3
    ensures |r| == 6 * (elements + 1)
  {
    Row(KernelElement(elements, length, le, s), KernelShape(elements, length, le, s), c, 6 * (elements + 1))
  }

  lemma UniformMeshValid(elements: nat, length: real, le: real)
    requires Uniform(elements, length, le)
    ensures var nodes := UniformMesh(elements, le);
      ValidMesh(nodes) && nodes[0] == 0.0 && nodes[elements] == length
  {
    forall i: nat | 0 < i <= elements
      ensures UniformMesh(elements, le)[i - 1] < UniformMesh(elements, le)[i]
    {
      NodeStep(i - 1, le);
    }
  }

  lemma NodeStep(e: nat, le: real)
    ensures (e + 1) as real * le - e as real * le == le
  {
    assert (e + 1) as real == e as real + 1.0;
  }

  /** Floor division and bisection choose the same element on every uniform mesh. */
  lemma SameElement(elements: nat, length: real, le: real, s: real)
    requires Uniform(elements, length, le) && 0.0 <= s <= length
    ensures UniformMesh(elements, le)[0] <= s
    ensures Element(UniformMesh(elements, le), s) == KernelElement(elements, length, le, s)
  {
    UniformMeshValid(elements, length, le);
    if s < length {
      var e := BisectBrackets(UniformMesh(elements, le), s);
      QuotientBetween(s, le, e as real, (e + 1) as real);
    }
  }

  /** Inside the mesh the located element brackets the position. */
  lemma BisectBrackets(nodes: seq<real>, s: real) returns (e: nat)
    requires |nodes| >= 2 && nodes[0] <= s < nodes[|nodes| - 1]
    ensures e == Element(nodes, s) && e + 1 < |nodes| && nodes[e] <= s < nodes[e + 1]
  {
    var k := BisectRight(nodes, s);
    assert k < |nodes|;
    e := k - 1;
  }

  lemma QuotientBetween(s: real, le: real, low: real, high: real)
    requires le > 0.0 && low * le <= s < high * le
    ensures low <= s / le < high
  {
    var t := s / le;
    assert t * le == s;
    if t < low {
      ScaledLess(t, low, le);
    }
    if high <= t {
      ScaledLess(high, t, le);
    }
  }

  lemma ScaledLess(a: real, b: real, f: real)
    requires a <= b && f > 0.0
    ensures a * f <= b * f && (a < b ==> a * f < b * f)
  {
    assert b * f - a * f == (b - a) * f;
  }

  /** The kernel's row and the Python row are the same row. */
  lemma KernelRowIsPythonRow(elements: nat, length: real, le: real, s: real, c: nat)
    requires Uniform(elements, length, le) && 0.0 <= s <= length && c < 3
    ensures var nodes := UniformMesh(elements, le);
      ValidMesh(nodes) && nodes[0] <= s <= nodes[elements]
      && KernelRow(elements, length, le, s, c) == PythonRow(nodes, s, c, 6 * (elements + 1))
  {
    hide Row, Shape, Uniform, UniformMesh, ValidMesh, KernelElement, Element;
    UniformIsPositive(elements, length, le);
    UniformMeshValid(elements, length, le);
    SameElement(elements, length, le, s);
    RowOnUniformMesh(UniformMesh(elements, le), KernelElement(elements, length, le, s), le, s, c, 6 * (elements + 1));
  }

  lemma UniformIsPositive(elements: nat, length: real, le: real)
    requires Uniform(elements, length, le)
    ensures elements > 0 && le > 0.0
  {
  }

  lemma RowOnUniformMesh(nodes: seq<real>, e: nat, le: real, s: real, c: nat, ndof: nat)
    requires le != 0.0 && e + 1 < |nodes| && c < 3 && 6 * e + 12 <= ndof
    requires nodes[e] == e as real * le && nodes[e + 1] == (e + 1) as real * le
    ensures nodes[e + 1] - nodes[e] == le
    ensures Row(e, Shape(s - nodes[e], nodes[e + 1] - nodes[e]), c, ndof)
      == Row(e, Shape(s - e as real * le, le), c, ndof)
  {
    NodeStep(e, le);
    RowCongruent(e, s - nodes[e], nodes[e + 1] - nodes[e], s - e as real * le, le, c, ndof);
  }

  lemma RowCongruent(e: nat, x: real, l: real, y: real, m: real, c: nat, ndof: nat)
    requires x == y && l == m && l != 0.0 && c < 3 && 6 * e + 12 <= ndof
    ensures Row(e, Shape(x, l), c, ndof) == Row(e, Shape(y, m), c, ndof)
  {
  }
}
