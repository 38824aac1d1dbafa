/**
 The element tangent, its assembly over the line in place and its symmetrization. Displacing the whole line costs no
 force, so the assembled tangent of an unsupported line has the three translations in its kernel.
 */
module Tangent {
  import opened Wrappers
  import opened Vectors
  import opened Vec3
  import opened InternalForce
  import TangentRate
  import LinearSolve

  type Hessian = TangentRate.Hessian

  // ----- one quadrature point

  /** Entry `(i, j)` of `B'HB + B'MC + C'M'B + C'NC`, where the rows of `B` and `C` are one shape value per block of
      three. */
  function PointEntry(first: seq<real>, second: seq<real>, h: Hessian, i: nat, j: nat): real
    requires |first| == |second| == 4 && i < 12 && j < 12
  {
    var p, r, q, s := i / 3, i % 3, j / 3, j % 3;
    first[p] * h.aa.At(r, s) * first[q] + first[p] * h.ab.At(r, s) * second[q]
    + second[p] * h.ab.At(s, r) * first[q] + second[p] * h.bb.At(r, s) * second[q]
  }

  ghost predicate Regular(s: Section, q: seq<V3>, e: nat, k: nat)
    requires s.le != 0.0 && 2 * e + 4 <= |q|
  {
    k <= |s.quadrature| && ElementForce(s, q, e, k).Some?
  }

  lemma RegularPoint(s: Section, q: seq<V3>, e: nat, k: nat)
    requires s.le != 0.0 && 2 * e + 4 <= |q| && k > 0 && Regular(s, q, e, k)
    ensures Regular(s, q, e, k - 1) && Inner(Tangents(s, q, e, k - 1).0, Tangents(s, q, e, k - 1).0) != 0.0
  {
    hide Combine, Inner, Shapes, TangentGradient, CurvatureGradient, WithPoint;
  }

  /** Tangent and curvature vector at point `k` of element `e`. */
  function Tangents(s: Section, q: seq<V3>, e: nat, k: nat): (V3, V3)
    requires s.le != 0.0 && k < |s.quadrature| && 2 * e + 4 <= |q|
  {
    (Combine(Shapes(s, k).0, q, 2 * e), Combine(Shapes(s, k).1, q, 2 * e))
  }

  function PointTangent(s: Section, q: seq<V3>, e: nat, k: nat, i: nat, j: nat): real
    requires s.le != 0.0 && k < |s.quadrature| && 2 * e + 4 <= |q| && i < 12 && j < 12
    requires Inner(Tangents(s, q, e, k).0, Tangents(s, q, e, k).0) != 0.0
  {
    var (a, b) := Tangents(s, q, e, k);
    Weight(s, k) * PointEntry(Shapes(s, k).0, Shapes(s, k).1, TangentRate.HessianAt(a, b, s.ea, s.ei), i, j)
  }

  // ----- elements and assembly

  /** Entry `(i, j)` of the tangent of element `e` over its first `k` points. */
  ghost function ElementEntry(s: Section, q: seq<V3>, e: nat, k: nat, i: nat, j: nat): real
    requires s.le != 0.0 && 2 * e + 4 <= |q| && Regular(s, q, e, k) && i < 12 && j < 12
    decreases k
  {
    if k == 0 then 0.0
    else
      RegularPoint(s, q, e, k);
      ElementEntry(s, q, e, k - 1, i, j) + PointTangent(s, q, e, k - 1, i, j)
  }

  predicate Inside(e: nat, i: nat) {
    6 * e <= i < 6 * e + 12
  }

  /** No tangent of the first `n` elements is degenerate. */
  ghost predicate Formed(s: Section, q: seq<V3>, n: nat)
    requires s.le != 0.0 && 2 * n + 2 <= |q|
  {
    forall e: nat :: e < n ==> Regular(s, q, e, |s.quadrature|)
  }

  /** The tangent is formed exactly where the force is. */
  lemma {:induction false} FormedWithForce(s: Section, q: seq<V3>, n: nat)
    requires s.le != 0.0 && 2 * n + 2 <= |q|
    ensures Formed(s, q, n) <==> Assembled(s, q, n).Some?
    decreases n
  {
    hide ElementForce, AddAt;
    if n > 0 {
      FormedWithForce(s, q, n - 1);
      assert Formed(s, q, n) <==> Formed(s, q, n - 1) && Regular(s, q, n - 1, |s.quadrature|);
    }
  }

  ghost function LocalEntry(s: Section, q: seq<V3>, e: nat, i: nat, j: nat): real
    requires s.le != 0.0 && 2 * e + 4 <= |q| && Regular(s, q, e, |s.quadrature|)
  {
    if Inside(e, i) && Inside(e, j) then ElementEntry(s, q, e, |s.quadrature|, i - 6 * e, j - 6 * e) else 0.0
  }

  /** Entry `(i, j)` of the tangent assembled from the first `n` elements. */
  ghost function Entry(s: Section, q: seq<V3>, n: nat, i: nat, j: nat): real
    requires s.le != 0.0 && 2 * n + 2 <= |q| && Formed(s, q, n)
    decreases n
  {
    if n == 0 then 0.0
    else Entry(s, q, n - 1, i, j) + LocalEntry(s, q, n - 1, i, j)
  }

  /** The symmetrized entry. */
  ghost function EvenEntry(s: Section, q: seq<V3>, n: nat, i: nat, j: nat): real
    requires s.le != 0.0 && 2 * n + 2 <= |q| && Formed(s, q, n)
  {
    0.5 * (Entry(s, q, n, i, j) + Entry(s, q, n, j, i))
  }

  // ----- translations cost no force

  /** The shape derivatives of the two position blocks cancel, in rows and in columns. */
  lemma PointCancels(first: seq<real>, second: seq<real>, h: Hessian, i: nat, c: nat)
    requires |first| == |second| == 4 && first[0] + first[2] == 0.0 && second[0] + second[2] == 0.0 && i < 12 && c < 3
    ensures PointEntry(first, second, h, i, c) + PointEntry(first, second, h, i, 6 + c) == 0.0
    ensures PointEntry(first, second, h, c, i) + PointEntry(first, second, h, 6 + c, i) == 0.0
  {
    var p, r := i / 3, i % 3;
    assert c / 3 == 0 && c % 3 == c && (6 + c) / 3 == 2 && (6 + c) % 3 == c;
    Cancel(first[p], second[p], first[0], first[2], second[0], second[2], h.aa.At(r, c), h.ab.At(r, c),
           h.ab.At(c, r), h.bb.At(r, c));
    CancelRow(first[p], second[p], first[0], first[2], second[0], second[2], h.aa.At(c, r), h.ab.At(c, r),
              h.ab.At(r, c), h.bb.At(c, r));
  }

  lemma Cancel(f: real, g: real, f0: real, f2: real, g0: real, g2: real, aa: real, ab: real, ba: real, bb: real)
    requires f0 + f2 == 0.0 && g0 + g2 == 0.0
    ensures (f * aa * f0 + f * ab * g0 + g * ba * f0 + g * bb * g0)
      + (f * aa * f2 + f * ab * g2 + g * ba * f2 + g * bb * g2) == 0.0
  {
    assert f2 == -f0 && g2 == -g0;
  }

  lemma CancelRow(f: real, g: real, f0: real, f2: real, g0: real, g2: real, aa: real, ab: real, ba: real, bb: real)
    requires f0 + f2 == 0.0 && g0 + g2 == 0.0
    ensures (f0 * aa * f + f0 * ab * g + g0 * ba * f + g0 * bb * g)
      + (f2 * aa * f + f2 * ab * g + g2 * ba * f + g2 * bb * g) == 0.0
  {
    assert f2 == -f0 && g2 == -g0;
  }

  lemma {:induction false} ElementCancels(s: Section, q: seq<V3>, e: nat, k: nat, i: nat, c: nat)
    requires s.le != 0.0 && 2 * e + 4 <= |q| && Regular(s, q, e, k) && i < 12 && c < 3
    ensures ElementEntry(s, q, e, k, i, c) + ElementEntry(s, q, e, k, i, 6 + c) == 0.0
    ensures ElementEntry(s, q, e, k, c, i) + ElementEntry(s, q, e, k, 6 + c, i) == 0.0
    decreases k
  {
    hide Regular, PointTangent, Inner, Tangents;
    if k > 0 {
      RegularPoint(s, q, e, k);
      RegularBound(s, q, e, k);
      ElementCancels(s, q, e, k - 1, i, c);
      TangentCancels(s, q, e, k - 1, i, c);
    }
  }

  lemma RegularBound(s: Section, q: seq<V3>, e: nat, k: nat)
    requires s.le != 0.0 && 2 * e + 4 <= |q| && Regular(s, q, e, k)
    ensures k <= |s.quadrature|
  {
  }

  lemma TangentCancels(s: Section, q: seq<V3>, e: nat, k: nat, i: nat, c: nat)
    requires s.le != 0.0 && k < |s.quadrature| && 2 * e + 4 <= |q| && i < 12 && c < 3
    requires Inner(Tangents(s, q, e, k).0, Tangents(s, q, e, k).0) != 0.0
    ensures PointTangent(s, q, e, k, i, c) + PointTangent(s, q, e, k, i, 6 + c) == 0.0
    ensures PointTangent(s, q, e, k, c, i) + PointTangent(s, q, e, k, 6 + c, i) == 0.0
  {
    hide Inner, Tangents, PointEntry, Shapes, Weight, TangentRate.HessianAt;
    ShapesMoments(s, k);
    var (a, b) := Tangents(s, q, e, k);
    var h, f, g := TangentRate.HessianAt(a, b, s.ea, s.ei), Shapes(s, k).0, Shapes(s, k).1;
    PointCancels(f, g, h, i, c);
    WeightedCancel(Weight(s, k), PointEntry(f, g, h, i, c), PointEntry(f, g, h, i, 6 + c));
    WeightedCancel(Weight(s, k), PointEntry(f, g, h, c, i), PointEntry(f, g, h, 6 + c, i));
  }

  lemma WeightedCancel(w: real, x: real, y: real)
    requires x + y == 0.0
    ensures w * x + w * y == 0.0
  {
    assert y == -x;
  }

  /** Row and column `i` summed over component `c` of the first `m` node positions. */
  ghost function NodeSum(s: Section, q: seq<V3>, n: nat, i: nat, c: nat, m: nat): (real, real)
    requires s.le != 0.0 && 2 * n + 2 <= |q| && Formed(s, q, n)
    decreases m
  {
    if m == 0 then (0.0, 0.0)
    else
      var (row, column) := NodeSum(s, q, n, i, c, m - 1);
      (row + Entry(s, q, n, i, 6 * (m - 1) + c), column + Entry(s, q, n, 6 * (m - 1) + c, i))
  }

  ghost function LocalSum(s: Section, q: seq<V3>, e: nat, i: nat, c: nat, m: nat): (real, real)
    requires s.le != 0.0 && 2 * e + 4 <= |q| && Regular(s, q, e, |s.quadrature|)
    decreases m
  {
    if m == 0 then (0.0, 0.0)
    else
      var (row, column) := LocalSum(s, q, e, i, c, m - 1);
      (row + LocalEntry(s, q, e, i, 6 * (m - 1) + c), column + LocalEntry(s, q, e, 6 * (m - 1) + c, i))
  }

  lemma {:induction false} NodeSumAdds(s: Section, q: seq<V3>, n: nat, i: nat, c: nat, m: nat)
    requires s.le != 0.0 && 2 * n + 2 <= |q| && n > 0 && Formed(s, q, n)
    requires Formed(s, q, n - 1) && Regular(s, q, n - 1, |s.quadrature|)
    ensures NodeSum(s, q, n, i, c, m).0 == NodeSum(s, q, n - 1, i, c, m).0 + LocalSum(s, q, n - 1, i, c, m).0
    ensures NodeSum(s, q, n, i, c, m).1 == NodeSum(s, q, n - 1, i, c, m).1 + LocalSum(s, q, n - 1, i, c, m).1
    decreases m
  {
    hide LocalEntry, Regular;
    if m > 0 {
      NodeSumAdds(s, q, n, i, c, m - 1);
    }
  }

  /** Only the two nodes of the element contribute, and their contributions cancel. */
  lemma {:induction false} LocalSumVanishes(s: Section, q: seq<V3>, e: nat, i: nat, c: nat, m: nat)
    requires s.le != 0.0 && 2 * e + 4 <= |q| && Regular(s, q, e, |s.quadrature|) && c < 3 && m != e + 1
    ensures LocalSum(s, q, e, i, c, m) == (0.0, 0.0)
    decreases m
  {
    hide ElementEntry, Regular;
    if m == e + 2 {
      LocalSumVanishes(s, q, e, i, c, e);
      if Inside(e, i) {
        ElementCancels(s, q, e, |s.quadrature|, i - 6 * e, c);
      }
      TwoNodes(s, q, e, i, c);
    } else if m > 0 {
      LocalSumVanishes(s, q, e, i, c, m - 1);
    }
  }

  lemma TwoNodes(s: Section, q: seq<V3>, e: nat, i: nat, c: nat)
    requires s.le != 0.0 && 2 * e + 4 <= |q| && Regular(s, q, e, |s.quadrature|)
    ensures var (row, column) := LocalSum(s, q, e, i, c, e);
      LocalSum(s, q, e, i, c, e + 2)
      == (row + LocalEntry(s, q, e, i, 6 * e + c) + LocalEntry(s, q, e, i, 6 * e + 6 + c),
          column + LocalEntry(s, q, e, 6 * e + c, i) + LocalEntry(s, q, e, 6 * e + 6 + c, i))
  {
    hide LocalEntry, Regular;
    assert LocalSum(s, q, e, i, c, e + 1)
      == (LocalSum(s, q, e, i, c, e).0 + LocalEntry(s, q, e, i, 6 * e + c),
          LocalSum(s, q, e, i, c, e).1 + LocalEntry(s, q, e, 6 * e + c, i));
  }

  /** Every row and every column of the assembled tangent sums to nothing over the node positions. */
  lemma {:induction false} TranslationCostsNothing(s: Section, q: seq<V3>, n: nat, i: nat, c: nat, m: nat)
    requires s.le != 0.0 && 2 * n + 2 <= |q| && Formed(s, q, n) && c < 3 && m > n
    ensures NodeSum(s, q, n, i, c, m) == (0.0, 0.0)
    decreases n
  {
    hide Regular;
    if n == 0 {
      NoElements(s, q, i, c, m);
    } else {
      TranslationCostsNothing(s, q, n - 1, i, c, m);
      NodeSumAdds(s, q, n, i, c, m);
      LocalSumVanishes(s, q, n - 1, i, c, m);
    }
  }

  lemma {:induction false} NoElements(s: Section, q: seq<V3>, i: nat, c: nat, m: nat)
    requires s.le != 0.0 && 2 <= |q| && Formed(s, q, 0)
    ensures NodeSum(s, q, 0, i, c, m) == (0.0, 0.0)
    decreases m
  {
    if m > 0 {
      NoElements(s, q, i, c, m - 1);
    }
  }

  // ----- the matrix

  ghost function EvenMatrix(s: Section, q: seq<V3>, n: nat): (m: seq<seq<real>>)
    requires s.le != 0.0 && |q| == 2 * n + 2 && Formed(s, q, n)
    ensures |m| == 6 * (n + 1) && forall i :: 0 <= i < |m| ==> |m[i]| == |m|
  {
    seq(6 * (n + 1), i requires 0 <= i < 6 * (n + 1) =>
      seq(6 * (n + 1), j requires 0 <= j < 6 * (n + 1) => EvenEntry(s, q, n, i, j)))
  }

  /** One in component `c` of every node position, zero elsewhere. */
  function Translation(c: nat, n: nat): (y: seq<real>)
    ensures |y| == 6 * (n + 1)
  {
    seq(6 * (n + 1), j requires 0 <= j < 6 * (n + 1) => if j % 6 == c then 1.0 else 0.0)
  }

  lemma {:induction false} RowOnTranslation(s: Section, q: seq<V3>, n: nat, i: nat, c: nat, m: nat)
    requires s.le != 0.0 && |q| == 2 * n + 2 && Formed(s, q, n) && i < 6 * (n + 1) && c < 3 && m <= n + 1
    ensures var (row, column) := NodeSum(s, q, n, i, c, m);
      Dot(EvenMatrix(s, q, n)[i], Translation(c, n), 0, 6 * m) == 0.5 * (row + column)
    decreases m
  {
    hide Formed, Entry;
    if m > 0 {
      RowOnTranslation(s, q, n, i, c, m - 1);
      var row, y := EvenMatrix(s, q, n)[i], Translation(c, n);
      OneOfSix(row, y, 6 * (m - 1), c);
      assert row[6 * (m - 1) + c] == EvenEntry(s, q, n, i, 6 * (m - 1) + c);
    }
  }

  lemma OneOfSix(u: seq<real>, y: seq<real>, base: nat, c: nat)
    requires base + 6 <= |u| && base + 6 <= |y| && c < 3
    requires forall j :: base <= j < base + 6 ==> y[j] == if j == base + c then 1.0 else 0.0
    ensures Dot(u, y, 0, base + 6) == Dot(u, y, 0, base) + u[base + c]
  {
    assert Dot(u, y, 0, base + 2) == Dot(u, y, 0, base) + u[base] * y[base] + u[base + 1] * y[base + 1];
    assert Dot(u, y, 0, base + 4) == Dot(u, y, 0, base + 2) + u[base + 2] * y[base + 2] + u[base + 3] * y[base + 3];
  }

  /** The tangent of an unsupported line sends every translation to zero: whatever the state and the load, the system
      has no unique solution, so that solving it reports a singular tangent. */
  lemma UnsupportedIsSingular(s: Section, q: seq<V3>, n: nat, b: seq<real>, c: nat)
    requires s.le != 0.0 && |q| == 2 * n + 2 && Formed(s, q, n) && |b| == 6 * (n + 1) && c < 3
    ensures LinearSolve.InKernel(LinearSolve.System(EvenMatrix(s, q, n), b), Translation(c, n))
    ensures forall x :: |x| == |b| ==> !LinearSolve.UniqueSolution(LinearSolve.System(EvenMatrix(s, q, n), b), x)
  {
    hide Formed, Dot;
    var system, y := LinearSolve.System(EvenMatrix(s, q, n), b), Translation(c, n);
    assert y[c] == 1.0;
    forall i | 0 <= i < |y|
      ensures Dot(system.a[i], y, 0, |y|) == 0.0
    {
      RowOnTranslation(s, q, n, i, c, n + 1);
      TranslationCostsNothing(s, q, n, i, c, n + 1);
    }
    forall x: seq<real> | |x| == |b|
      ensures !LinearSolve.UniqueSolution(system, x)
    {
      LinearSolve.KernelExcludesUnique(system, x, y);
    }
  }

  // ----- the algorithm in place

  /** Adds one quadrature point to the element's matrix. */
  method AddPoint(s: Section, q: seq<V3>, e: nat, k: nat, ke: array2<real>)
    requires s.le != 0.0 && k < |s.quadrature| && 2 * e + 4 <= |q| && ke.Length0 == 12 == ke.Length1
    requires Inner(Tangents(s, q, e, k).0, Tangents(s, q, e, k).0) != 0.0
    modifies ke
    ensures forall i, j :: 0 <= i < 12 && 0 <= j < 12 ==> ke[i, j] == old(ke[i, j]) + PointTangent(s, q, e, k, i, j)
  {
    hide Tangents, PointEntry, Inner, Shapes, Weight, TangentRate.HessianAt;
    var (a, b) := Tangents(s, q, e, k);
    var w, first, second := Weight(s, k), Shapes(s, k).0, Shapes(s, k).1;
    var h := TangentRate.HessianAt(a, b, s.ea, s.ei);
    for i := 0 to 12
      invariant forall r, c :: 0 <= r < i && 0 <= c < 12 ==> ke[r, c] == old(ke[r, c]) + PointTangent(s, q, e, k, r, c)
      invariant forall r, c :: i <= r < 12 && 0 <= c < 12 ==> ke[r, c] == old(ke[r, c])
    {
      for j := 0 to 12
        invariant forall r, c :: 0 <= r < i && 0 <= c < 12 ==>
          ke[r, c] == old(ke[r, c]) + PointTangent(s, q, e, k, r, c)
        invariant forall c :: 0 <= c < j ==> ke[i, c] == old(ke[i, c]) + PointTangent(s, q, e, k, i, c)
        invariant forall c :: j <= c < 12 ==> ke[i, c] == old(ke[i, c])
        invariant forall r, c :: i < r < 12 && 0 <= c < 12 ==> ke[r, c] == old(ke[r, c])
      {
        ke[i, j] := ke[i, j] + w * PointEntry(first, second, h, i, j);
      }
    }
  }

  /** The tangent of one element, or none when a tangent vector is degenerate. */
  method ElementTangentInto(s: Section, q: seq<V3>, e: nat, ke: array2<real>) returns (regular: bool)
    requires s.le != 0.0 && 2 * e + 4 <= |q| && ke.Length0 == 12 == ke.Length1
    requires forall i, j :: 0 <= i < 12 && 0 <= j < 12 ==> ke[i, j] == 0.0
    modifies ke
    ensures regular <==> Regular(s, q, e, |s.quadrature|)
    ensures regular ==> forall i, j :: 0 <= i < 12 && 0 <= j < 12 ==>
      ke[i, j] == ElementEntry(s, q, e, |s.quadrature|, i, j)
  {
    hide Tangents, PointTangent, Inner, Regular;
    RegularStart(s, q, e);
    for k: nat := 0 to |s.quadrature|
      invariant Regular(s, q, e, k)
      invariant forall i, j :: 0 <= i < 12 && 0 <= j < 12 ==> ke[i, j] == ElementEntry(s, q, e, k, i, j)
    {
      RegularNext(s, q, e, k);
      if Inner(Tangents(s, q, e, k).0, Tangents(s, q, e, k).0) < EPS {
        IrregularStays(s, q, e, k + 1);
        return false;
      }
      AddPoint(s, q, e, k, ke);
    }
    return true;
  }

  lemma RegularStart(s: Section, q: seq<V3>, e: nat)
    requires s.le != 0.0 && 2 * e + 4 <= |q|
    ensures Regular(s, q, e, 0)
  {
  }

  lemma RegularNext(s: Section, q: seq<V3>, e: nat, k: nat)
    requires s.le != 0.0 && 2 * e + 4 <= |q| && k < |s.quadrature| && Regular(s, q, e, k)
    ensures Regular(s, q, e, k + 1) <==> Inner(Tangents(s, q, e, k).0, Tangents(s, q, e, k).0) >= EPS
  {
    hide Combine, Inner, Shapes, TangentGradient, CurvatureGradient, WithPoint;
  }

  lemma IrregularStays(s: Section, q: seq<V3>, e: nat, k: nat)
    requires s.le != 0.0 && 2 * e + 4 <= |q| && k <= |s.quadrature| && !Regular(s, q, e, k)
    ensures !Regular(s, q, e, |s.quadrature|)
  {
    hide ElementForce;
    DegenerateStays(s, q, e, k, |s.quadrature|);
  }

  /** Adds an element's matrix to the rows and columns of its two nodes. */
  method AddElementMatrix(kk: array2<real>, e: nat, ke: array2<real>)
    requires ke.Length0 == 12 == ke.Length1 && 6 * e + 12 <= kk.Length0 == kk.Length1 && kk != ke
    modifies kk
    ensures forall i, j :: 0 <= i < kk.Length0 && 0 <= j < kk.Length0 ==>
      kk[i, j] == old(kk[i, j]) + if Inside(e, i) && Inside(e, j) then ke[i - 6 * e, j - 6 * e] else 0.0
  {
    var b := 6 * e;
    for i := 0 to 12
      invariant forall r, c :: 0 <= r < i && 0 <= c < 12 ==> kk[b + r, b + c] == old(kk[b + r, b + c]) + ke[r, c]
      invariant forall r, c :: 0 <= r < kk.Length0 && 0 <= c < kk.Length0 && !(b <= r < b + i && Inside(e, c)) ==>
        kk[r, c] == old(kk[r, c])
    {
      for j := 0 to 12
        invariant forall r, c :: 0 <= r < i && 0 <= c < 12 ==> kk[b + r, b + c] == old(kk[b + r, b + c]) + ke[r, c]
        invariant forall c :: 0 <= c < j ==> kk[b + i, b + c] == old(kk[b + i, b + c]) + ke[i, c]
        invariant forall r, c ::
          0 <= r < kk.Length0 && 0 <= c < kk.Length0 && !(b <= r < b + i && Inside(e, c))
            && !(r == b + i && b <= c < b + j)
          ==> kk[r, c] == old(kk[r, c])
      {
        kk[b + i, b + j] := kk[b + i, b + j] + ke[i, j];
      }
    }
    forall i, j | 0 <= i < kk.Length0 && 0 <= j < kk.Length0 && Inside(e, i) && Inside(e, j)
      ensures kk[i, j] == old(kk[i, j]) + ke[i - b, j - b]
    {
      assert kk[b + (i - b), b + (j - b)] == old(kk[b + (i - b), b + (j - b)]) + ke[i - b, j - b];
    }
  }

  /** Replaces each pair of mirrored entries by its mean. */
  method Symmetrize(kk: array2<real>)
    requires kk.Length0 == kk.Length1
    modifies kk
    ensures forall i, j :: 0 <= i < kk.Length0 && 0 <= j < kk.Length0 ==>
      kk[i, j] == 0.5 * (old(kk[i, j]) + old(kk[j, i]))
  {
    var n := kk.Length0;
    for i := 0 to n
      invariant forall r, c :: 0 <= r < n && 0 <= c < n ==>
        kk[r, c] == if r < i || c < i then 0.5 * (old(kk[r, c]) + old(kk[c, r])) else old(kk[r, c])
    {
      for j := i + 1 to n
        invariant forall r, c :: 0 <= r < n && 0 <= c < n ==>
          kk[r, c] == if r < i || c < i || (r == i && i < c < j) || (c == i && i < r < j)
                      then 0.5 * (old(kk[r, c]) + old(kk[c, r])) else old(kk[r, c])
      {
        var v := 0.5 * (kk[i, j] + kk[j, i]);
        kk[i, j], kk[j, i] := v, v;
      }
    }
  }

  /** Assembles and symmetrizes the tangent of the line, or reports a degenerate tangent vector. */
  method AssembleTangent(s: Section, q: seq<V3>, elements: nat) returns (r: Option<array2<real>>)
    requires s.le != 0.0 && |q| == 2 * elements + 2
    ensures r.Some? <==> Formed(s, q, elements)
    ensures r.Some? ==>
      && r.value.Length0 == 6 * (elements + 1) == r.value.Length1
      && forall i, j :: 0 <= i < r.value.Length0 && 0 <= j < r.value.Length0 ==>
        r.value[i, j] == EvenEntry(s, q, elements, i, j)
  {
    hide Regular, ElementEntry;
    var n := 6 * (elements + 1);
    var kk := new real[n, n]((i, j) => 0.0);
    for e: nat := 0 to elements
      invariant Formed(s, q, e)
      invariant forall i, j :: 0 <= i < n && 0 <= j < n ==> kk[i, j] == Entry(s, q, e, i, j)
    {
      var ke := new real[12, 12]((i, j) => 0.0);
      var regular := ElementTangentInto(s, q, e, ke);
      if !regular {
        return None;
      }
      AddElementMatrix(kk, e, ke);
    }
    Symmetrize(kk);
    return Some(kk);
  }
}
