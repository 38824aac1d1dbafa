/**
 The geometry behind the element force: shape derivatives differentiate every cubic, the tangents of a line are the
 derivatives of the curve through its nodes, and the stored energy is that of stretch and geometric curvature.
 */
module LineShape {
  import opened Wrappers
  import opened Vec3
  import opened Hermite
  import opened InternalForce
  import opened ForceRate
  import Tangent

  // ----- the shapes differentiate cubics

  /** The four sums by which a row of shape values acts on the Taylor coefficients at the left node. */
  predicate Acts(s: seq<real>, l: real, m1: real, m2: real, m3: real) {
    && |s| == 4 && s[0] + s[2] == 0.0 && s[1] + l * s[2] + s[3] == m1
    && l * l * s[2] + 2.0 * l * s[3] == m2 && l * l * l * s[2] + 3.0 * (l * l) * s[3] == m3
  }

  lemma FirstActs(x: real, l: real)
    requires l != 0.0
    ensures Acts(FirstDerivative(x, l), l, 1.0, 2.0 * x, 3.0 * (x * x))
  {
    Divided(x, l);
    var xi := x / l;
    var u := -6.0 * xi * xi + 6.0 * xi;
    Divided(u, l);
    assert (6.0 * xi * xi - 6.0 * xi) / l == -(u / l);
    FirstTerms(xi, l, x, u / l, u);
  }

  lemma Divided(s: real, d: real)
    requires d != 0.0
    ensures d * (s / d) == s
  {
  }

  lemma FirstTerms(xi: real, l: real, x: real, s2: real, u: real)
    requires l * xi == x && l * s2 == u && u == -6.0 * xi * xi + 6.0 * xi
    ensures (1.0 - 4.0 * xi + 3.0 * xi * xi) + l * s2 + (-2.0 * xi + 3.0 * xi * xi) == 1.0
    ensures l * l * s2 + 2.0 * l * (-2.0 * xi + 3.0 * xi * xi) == 2.0 * x
    ensures l * l * l * s2 + 3.0 * (l * l) * (-2.0 * xi + 3.0 * xi * xi) == 3.0 * (x * x)
  {
    assert l * l * s2 == l * u;
    assert l * l * l * s2 == l * l * u;
    assert x * x == l * l * (xi * xi);
  }

  lemma SecondActs(x: real, l: real)
    requires l != 0.0
    ensures Acts(SecondDerivative(x, l), l, 0.0, 2.0, 6.0 * x)
  {
    Divided(x, l);
    var xi := x / l;
    var w, t := 6.0 - 12.0 * xi, -2.0 + 6.0 * xi;
    Divided(w, l * l);
    Divided(t, l);
    Divided(-4.0 + 6.0 * xi, l);
    assert (12.0 * xi - 6.0) / (l * l) == -(w / (l * l));
    SecondTerms(xi, l, x, (-4.0 + 6.0 * xi) / l, w / (l * l), t / l);
  }

  lemma SecondTerms(xi: real, l: real, x: real, s1: real, s2: real, s3: real)
    requires l != 0.0 && l * xi == x && l * s1 == -4.0 + 6.0 * xi
    requires l * l * s2 == 6.0 - 12.0 * xi && l * s3 == -2.0 + 6.0 * xi
    ensures s1 + l * s2 + s3 == 0.0
    ensures l * l * s2 + 2.0 * l * s3 == 2.0
    ensures l * l * l * s2 + 3.0 * (l * l) * s3 == 6.0 * x
  {
    var sum := s1 + l * s2 + s3;
    assert l * sum == l * s1 + l * l * s2 + l * s3;
    assert l * sum == 0.0;
    assert l * l * l * s2 == l * (6.0 - 12.0 * xi);
    assert 3.0 * (l * l) * s3 == 3.0 * (l * (-2.0 + 6.0 * xi));
  }

  lemma ActsOnTaylor(s: seq<real>, l: real, m1: real, m2: real, m3: real, e: Taylor)
    requires Acts(s, l, m1, m2, m3)
    ensures Interpolated(s, e.d0, e.d1, e.At(l), e.Slope(l)) == e.d1 * m1 + e.d2 * m2 + e.d3 * m3
  {
    ActionTerms(s[0], s[1], s[2], s[3], l, e.d0, e.d1, e.d2, e.d3, e.At(l), e.Slope(l));
    SameFactor(e.d1, s[1] + l * s[2] + s[3], m1);
    SameFactor(e.d2, l * l * s[2] + 2.0 * l * s[3], m2);
    SameFactor(e.d3, l * l * l * s[2] + 3.0 * (l * l) * s[3], m3);
  }

  lemma ActionTerms(n0: real, n1: real, n2: real, n3: real, l: real, d0: real, d1: real, d2: real, d3: real,
                    b: real, db: real)
    requires b == d0 + d1 * l + d2 * (l * l) + d3 * (l * l * l) && db == d1 + 2.0 * d2 * l + 3.0 * d3 * (l * l)
    requires n0 + n2 == 0.0
    ensures n0 * d0 + n1 * d1 + n2 * b + n3 * db
      == d1 * (n1 + l * n2 + n3) + d2 * (l * l * n2 + 2.0 * l * n3) + d3 * (l * l * l * n2 + 3.0 * (l * l) * n3)
  {
    assert n0 == -n2;
  }

  /** The second derivative of a cubic field. */
  function Curvature(p: Cubic, t: real): real {
    2.0 * p.c2 + 6.0 * p.c3 * t
  }

  /** The derivative rows, on the end values and slopes of any cubic, are its derivatives at every position. */
  lemma DerivativesOfCubic(p: Cubic, node: real, l: real, x: real)
    requires l != 0.0
    ensures Interpolated(FirstDerivative(x, l), p.At(node), p.Slope(node), p.At(node + l), p.Slope(node + l))
      == p.Slope(node + x)
    ensures Interpolated(SecondDerivative(x, l), p.At(node), p.Slope(node), p.At(node + l), p.Slope(node + l))
      == Curvature(p, node + x)
  {
    hide FirstDerivative, SecondDerivative, Interpolated, Cubic.At, Cubic.Slope, Taylor.At, Acts;
    var e := Expansion(p, node);
    CubicShift(p, node, l);
    CubicShift(p, node, x);
    FirstActs(x, l);
    ActsOnTaylor(FirstDerivative(x, l), l, 1.0, 2.0 * x, 3.0 * (x * x), e);
    SecondActs(x, l);
    ActsOnTaylor(SecondDerivative(x, l), l, 0.0, 2.0, 6.0 * x, e);
    hide Taylor.Slope;
    ShiftedSlopes(e, p.c2, p.c3, node, x);
  }

  lemma ShiftedSlopes(e: Taylor, c2: real, c3: real, node: real, x: real)
    requires e.d2 == c2 + 3.0 * c3 * node && e.d3 == c3
    ensures e.d1 * 1.0 + e.d2 * (2.0 * x) + e.d3 * (3.0 * (x * x)) == e.Slope(x)
    ensures e.d1 * 0.0 + e.d2 * 2.0 + e.d3 * (6.0 * x) == 2.0 * c2 + 6.0 * c3 * (node + x)
  {
  }

  // ----- a line through the nodes of a curve

  /** A curve of three cubics of the arc position. */
  datatype Curve = Curve(x: Cubic, y: Cubic, z: Cubic) {
    function At(t: real): V3 {
      V3(x.At(t), y.At(t), z.At(t))
    }

    /** The first derivative. */
    function Tangent(t: real): V3 {
      V3(x.Slope(t), y.Slope(t), z.Slope(t))
    }

    /** The second derivative. */
    function Turn(t: real): V3 {
      V3(Curvature(x, t), Curvature(y, t), Curvature(z, t))
    }
  }

  /** The arc position of node `i`. */
  function NodeAt(le: real, i: nat): real {
    i as real * le
  }

  predicate NodeOn(q: seq<V3>, c: Curve, le: real, i: nat)
    requires 2 * i + 1 < |q|
  {
    q[2 * i] == c.At(NodeAt(le, i)) && q[2 * i + 1] == c.Tangent(NodeAt(le, i))
  }

  /** Positions and slopes of the curve at the nodes `0`, `le`, `2 le` and so on. */
  ghost predicate Follows(q: seq<V3>, c: Curve, le: real) {
    forall i: nat :: 2 * i + 1 < |q| ==> NodeOn(q, c, le, i)
  }

  /** How far quadrature point `k` lies from the left node. */
  function Offset(s: Section, k: nat): real
    requires k < |s.quadrature|
  {
    0.5 * (s.quadrature[k].0 + 1.0) * s.le
  }

  /** The arc position of quadrature point `k` of element `e`. */
  function PointAt(s: Section, e: nat, k: nat): real
    requires k < |s.quadrature|
  {
    NodeAt(s.le, e) + Offset(s, k)
  }

  lemma CombineIs(s: seq<real>, q: seq<V3>, at: nat)
    requires |s| == 4 && at + 4 <= |q|
    ensures Combine(s, q, at).x == Interpolated(s, q[at].x, q[at + 1].x, q[at + 2].x, q[at + 3].x)
    ensures Combine(s, q, at).y == Interpolated(s, q[at].y, q[at + 1].y, q[at + 2].y, q[at + 3].y)
    ensures Combine(s, q, at).z == Interpolated(s, q[at].z, q[at + 1].z, q[at + 2].z, q[at + 3].z)
  {
  }

  lemma ElementNodes(q: seq<V3>, c: Curve, le: real, e: nat, node: real)
    requires Follows(q, c, le) && 2 * e + 4 <= |q| && node == NodeAt(le, e)
    ensures q[2 * e] == c.At(node) && q[2 * e + 1] == c.Tangent(node)
    ensures q[2 * e + 2] == c.At(node + le) && q[2 * e + 3] == c.Tangent(node + le)
  {
    hide Curve.At, Curve.Tangent;
    NodeStep(e, le);
    assert NodeAt(le, e + 1) == node + le;
    hide NodeAt;
    assert NodeOn(q, c, le, e) && NodeOn(q, c, le, e + 1);
  }

  lemma CombineDifferentiates(q: seq<V3>, c: Curve, le: real, e: nat, node: real, x: real)
    requires le != 0.0 && 2 * e + 4 <= |q| && Follows(q, c, le) && node == NodeAt(le, e)
    ensures Combine(FirstDerivative(x, le), q, 2 * e) == c.Tangent(node + x)
    ensures Combine(SecondDerivative(x, le), q, 2 * e) == c.Turn(node + x)
  {
    hide Follows, FirstDerivative, SecondDerivative, Interpolated, Combine, Cubic.At, Cubic.Slope, Curvature, NodeAt;
    ElementNodes(q, c, le, e, node);
    CombineIs(FirstDerivative(x, le), q, 2 * e);
    CombineIs(SecondDerivative(x, le), q, 2 * e);
    DerivativesOfCubic(c.x, node, le, x);
    DerivativesOfCubic(c.y, node, le, x);
    DerivativesOfCubic(c.z, node, le, x);
  }

  /** At every quadrature point the line has the tangent and the second derivative of the curve it follows. */
  lemma TangentsOfCurve(s: Section, q: seq<V3>, c: Curve, e: nat, k: nat)
    requires s.le != 0.0 && k < |s.quadrature| && 2 * e + 4 <= |q| && Follows(q, c, s.le)
    ensures Tangent.Tangents(s, q, e, k) == (c.Tangent(PointAt(s, e, k)), c.Turn(PointAt(s, e, k)))
  {
    hide Follows, FirstDerivative, SecondDerivative, Combine, NodeAt, Offset, Shapes, Curve.Tangent, Curve.Turn;
    ShapesAt(s, k);
    CombineDifferentiates(q, c, s.le, e, NodeAt(s.le, e), Offset(s, k));
  }

  lemma ShapesAt(s: Section, k: nat)
    requires s.le != 0.0 && k < |s.quadrature|
    ensures Shapes(s, k) == (FirstDerivative(Offset(s, k), s.le), SecondDerivative(Offset(s, k), s.le))
  {
    hide FirstDerivative, SecondDerivative;
  }

  // ----- where the force exists

  /** The force exists exactly where no tangent of a quadrature point has a squared length below `1e-24`. */
  lemma FormedIff(s: Section, q: seq<V3>, n: nat)
    requires s.le != 0.0 && 2 * n + 2 <= |q|
    ensures Assembled(s, q, n).Some?
      <==> forall e: nat, k: nat :: e < n && k < |s.quadrature| ==> LongEnough(s, q, e, k)
  {
    hide Assembled, ElementForce, LongEnough;
    Tangent.FormedWithForce(s, q, n);
    if Assembled(s, q, n).Some? {
      forall e: nat, k: nat | e < n && k < |s.quadrature|
        ensures LongEnough(s, q, e, k)
      {
        assert Tangent.Regular(s, q, e, |s.quadrature|);
        RegularIff(s, q, e, |s.quadrature|);
      }
    } else {
      var e: nat :| e < n && !Tangent.Regular(s, q, e, |s.quadrature|);
      RegularIff(s, q, e, |s.quadrature|);
    }
  }

  ghost predicate LongEnough(s: Section, q: seq<V3>, e: nat, k: nat)
    requires s.le != 0.0 && k < |s.quadrature| && 2 * e + 4 <= |q|
  {
    var a := Tangent.Tangents(s, q, e, k).0;
    a.x * a.x + a.y * a.y + a.z * a.z >= 1.0e-24
  }

  lemma {:induction false} RegularIff(s: Section, q: seq<V3>, e: nat, m: nat)
    requires s.le != 0.0 && m <= |s.quadrature| && 2 * e + 4 <= |q|
    ensures ElementForce(s, q, e, m).Some? <==> forall k: nat :: k < m ==> LongEnough(s, q, e, k)
    decreases m
  {
    hide Combine, Shapes, TangentGradient, CurvatureGradient, WithPoint;
    if m > 0 {
      RegularIff(s, q, e, m - 1);
      assert LongEnough(s, q, e, m - 1) <==>
        Inner(Tangent.Tangents(s, q, e, m - 1).0, Tangent.Tangents(s, q, e, m - 1).0) >= EPS;
      hide LongEnough, Inner;
    }
  }

  // ----- the stored energy

  /** The density is half the axial stiffness times the squared strain and half the bending stiffness times `kappa`,
      the squared curvature of a curve with these derivatives. */
  lemma DensityInFull(a: V3, b: V3, ea: real, ei: real, aa: real, bb: real, ab: real, kappa: real)
    requires aa == a.x * a.x + a.y * a.y + a.z * a.z && bb == b.x * b.x + b.y * b.y + b.z * b.z
    requires ab == a.x * b.x + a.y * b.y + a.z * b.z && aa != 0.0
    requires kappa * (aa * aa * aa) == aa * bb - ab * ab
    ensures Density(a, b, ea, ei) == 0.5 * ea * (0.5 * (aa - 1.0) * (0.5 * (aa - 1.0))) + 0.5 * ei * kappa
  {
    hide Inner, Bend, AxialEnergy;
    InnersAre(a, b, aa, bb, ab);
    BendIs(a, b, aa, bb, ab, kappa);
    AxialIs(aa, ea);
  }

  lemma InnersAre(a: V3, b: V3, aa: real, bb: real, ab: real)
    requires aa == a.x * a.x + a.y * a.y + a.z * a.z && bb == b.x * b.x + b.y * b.y + b.z * b.z
    requires ab == a.x * b.x + a.y * b.y + a.z * b.z
    ensures Inner(a, a) == aa && Inner(b, b) == bb && Inner(a, b) == ab
  {
  }

  lemma AxialIs(aa: real, ea: real)
    ensures AxialEnergy(aa, ea) == 0.5 * ea * (0.5 * (aa - 1.0) * (0.5 * (aa - 1.0)))
  {
  }

  lemma BendIs(a: V3, b: V3, aa: real, bb: real, ab: real, kappa: real)
    requires aa == Inner(a, a) != 0.0 && bb == Inner(b, b) && ab == Inner(a, b)
    requires kappa * (aa * aa * aa) == aa * bb - ab * ab
    ensures Bend(a, b) == kappa
  {
    hide Inner, Bend;
    BendIsCurvature(a, b);
    ProductsNonzero(aa);
    Cancelled(Bend(a, b), kappa, aa * aa * aa);
  }

  lemma ProductsNonzero(a: real)
    requires a != 0.0
    ensures a * a * a != 0.0
  {
    assert a * a != 0.0;
  }

  lemma Cancelled(a: real, b: real, f: real)
    requires f != 0.0 && a * f == b * f
    ensures a == b
  {
    assert (a - b) * f == 0.0;
  }

  /** The bending measure is the squared curvature of a curve with these derivatives. */
  lemma BendIsCurvature(a: V3, b: V3)
    requires Inner(a, a) != 0.0
    ensures Bend(a, b) * (Inner(a, a) * Inner(a, a) * Inner(a, a))
      == Inner(a, a) * Inner(b, b) - Inner(a, b) * Inner(a, b)
  {
    var v, c := Inner(Cross(a, b), Cross(a, b)), Inner(a, a);
    Lagrange(a, b);
    hide Inner, Cross;
    var p := Power(c, 3);
    assert p == c * c * c by {
      assert Power(c, 1) == c && Power(c, 2) == c * c;
    }
    hide Power;
    Divided(1.0, p);
    Reassociate(v, InversePower(c, 3), p);
  }

  lemma Reassociate(v: real, i: real, p: real)
    requires p * i == 1.0
    ensures v * i * p == v
  {
    assert v * i * p == v * (p * i);
  }

  lemma Lagrange(a: V3, b: V3)
    ensures Inner(Cross(a, b), Cross(a, b)) == Inner(a, a) * Inner(b, b) - Inner(a, b) * Inner(a, b)
  {
    var v := Cross(a, b);
    LagrangeTerms(a.x, a.y, a.z, b.x, b.y, b.z, v.x, v.y, v.z);
  }

  lemma LagrangeTerms(a0: real, a1: real, a2: real, b0: real, b1: real, b2: real, v0: real, v1: real, v2: real)
    requires v0 == a1 * b2 - a2 * b1 && v1 == a2 * b0 - a0 * b2 && v2 == a0 * b1 - a1 * b0
    ensures v0 * v0 + v1 * v1 + v2 * v2
      == (a0 * a0 + a1 * a1 + a2 * a2) * (b0 * b0 + b1 * b1 + b2 * b2)
         - (a0 * b0 + a1 * b1 + a2 * b2) * (a0 * b0 + a1 * b1 + a2 * b2)
  {
  }

  /** The sum of the first `k` weights of the rule. */
  function WeightSum(quadrature: seq<(real, real)>, k: nat): real
    requires k <= |quadrature|
  {
    if k == 0 then 0.0 else WeightSum(quadrature, k - 1) + quadrature[k - 1].1
  }

  /** A straight line whose derivative is `t` everywhere. */
  predicate Straight(c: Curve, t: V3) {
    && c.x.c1 == t.x && c.x.c2 == 0.0 && c.x.c3 == 0.0 && c.y.c1 == t.y && c.y.c2 == 0.0 && c.y.c3 == 0.0
    && c.z.c1 == t.z && c.z.c2 == 0.0 && c.z.c3 == 0.0
  }

  lemma StraightTangents(c: Curve, t: V3, at: real)
    requires Straight(c, t)
    ensures c.Tangent(at) == t && c.Turn(at) == ZERO
  {
  }

  lemma StraightDensity(t: V3, ea: real, ei: real, strain: real)
    requires Inner(t, t) != 0.0 && strain == 0.5 * (Inner(t, t) - 1.0)
    ensures Density(t, ZERO, ea, ei) == 0.5 * ea * (strain * strain)
  {
    NoBend(t);
    hide Inner, Bend;
  }

  lemma NoBend(t: V3)
    requires Inner(t, t) != 0.0
    ensures Bend(t, ZERO) == 0.0
  {
    CrossZero(t);
    hide Inner, Cross, InversePower;
  }

  lemma CrossZero(t: V3)
    ensures Cross(t, ZERO) == ZERO && Inner(ZERO, ZERO) == 0.0
  {
  }

  lemma {:induction false} ElementStretched(s: Section, q: seq<V3>, c: Curve, t: V3, e: nat, k: nat, u: real)
    requires s.le != 0.0 && 2 * e + 4 <= |q| && Tangent.Regular(s, q, e, k) && Follows(q, c, s.le) && Straight(c, t)
    requires Inner(t, t) != 0.0 && u == Density(t, ZERO, s.ea, s.ei)
    ensures k <= |s.quadrature| && ElementStored(s, q, e, k) == Evenly(WeightSum(s.quadrature, k), s.le, u)
    decreases k
  {
    hide Follows, Straight, Inner, Density, Tangent.Tangents, Evenly, Weight, PointAt, Tangent.Regular;
    RegularSize(s, q, e, k);
    NoneEvenly(s.le, u);
    if k > 0 {
      Tangent.RegularPoint(s, q, e, k);
      ElementStretched(s, q, c, t, e, k - 1, u);
      TangentsOfCurve(s, q, c, e, k - 1);
      StraightTangents(c, t, PointAt(s, e, k - 1));
      WeightedAgain(s, k - 1, WeightSum(s.quadrature, k - 1), u);
    }
  }

  lemma RegularSize(s: Section, q: seq<V3>, e: nat, k: nat)
    requires s.le != 0.0 && 2 * e + 4 <= |q| && Tangent.Regular(s, q, e, k)
    ensures k <= |s.quadrature|
  {
  }

  /** The density `u` over half the element length, `sum` times. */
  ghost function Evenly(sum: real, le: real, u: real): real {
    sum * (le / 2.0 * u)
  }

  lemma NoneEvenly(le: real, u: real)
    ensures Evenly(0.0, le, u) == 0.0
  {
  }

  lemma WeightedAgain(s: Section, k: nat, sum: real, u: real)
    requires k < |s.quadrature|
    ensures Evenly(sum, s.le, u) + Weight(s, k) * u == Evenly(sum + s.quadrature[k].1, s.le, u)
  {
    var w, h := s.quadrature[k].1, s.le / 2.0;
    assert w * s.le / 2.0 == w * h;
    var hu := h * u;
    assert w * h * u == w * hu;
    assert (sum + w) * hu == sum * hu + w * hu;
  }

  /** The density `u` over `n` elements. */
  ghost function Along(n: nat, le: real, u: real): real {
    n as real * le * u
  }

  lemma {:induction false} EvenlyStored(s: Section, q: seq<V3>, c: Curve, t: V3, n: nat, u: real)
    requires s.le != 0.0 && 2 * n + 2 <= |q| && Tangent.Formed(s, q, n) && Follows(q, c, s.le) && Straight(c, t)
    requires WeightSum(s.quadrature, |s.quadrature|) == 2.0 && Inner(t, t) != 0.0 && u == Density(t, ZERO, s.ea, s.ei)
    ensures Stored(s, q, n) == Along(n, s.le, u)
    decreases n
  {
    if n > 0 {
      assert Tangent.Regular(s, q, n - 1, |s.quadrature|);
      hide Follows, Straight, Density, Tangent.Regular, ElementStored, WeightSum, Inner, Evenly, Along;
      EvenlyStored(s, q, c, t, n - 1, u);
      ElementStretched(s, q, c, t, n - 1, |s.quadrature|, u);
      OneElementMore(n, s.le, u);
    }
  }

  lemma OneElementMore(n: nat, le: real, u: real)
    requires n > 0
    ensures Along(n - 1, le, u) + Evenly(2.0, le, u) == Along(n, le, u)
  {
    var m := (n - 1) as real;
    assert n as real == m + 1.0;
    assert n as real * le == m * le + le;
    assert 2.0 * (le / 2.0 * u) == le * u;
  }

  /** A straight line stretched evenly stores its length times its density, whenever the weights sum to two. */
  lemma StretchedEnergy(s: Section, q: seq<V3>, c: Curve, t: V3, n: nat, strain: real)
    requires s.le != 0.0 && 2 * n + 2 <= |q| && Tangent.Formed(s, q, n) && Follows(q, c, s.le) && Straight(c, t)
    requires WeightSum(s.quadrature, |s.quadrature|) == 2.0
    requires strain == 0.5 * (t.x * t.x + t.y * t.y + t.z * t.z - 1.0) && strain != -0.5
    ensures Stored(s, q, n) == n as real * s.le * (0.5 * s.ea * (strain * strain))
  {
    hide Follows, Straight, Density, Tangent.Formed, Stored, WeightSum;
    assert strain == 0.5 * (Inner(t, t) - 1.0);
    hide Inner;
    StraightDensity(t, s.ea, s.ei, strain);
    EvenlyStored(s, q, c, t, n, 0.5 * s.ea * (strain * strain));
  }
}
