/**
 The elastic force of the ANCF line: quadrature over each element of the axial and bending
 gradients, assembled into the global vector. The specification groups coordinates into blocks of
 three, position and slope alternating from node to node.
 */
module InternalForce {
  import opened Wrappers
  import opened Vec3

  /** A tangent whose squared length is below this is degenerate. */
  const EPS := 1.0e-24

  /** The constants the element force reads. */
  datatype Section = Section(le: real, ea: real, ei: real, quadrature: seq<(real, real)>)

  // ----- shape derivatives

  function FirstDerivative(x: real, l: real): (s: seq<real>)
    requires l != 0.0
    ensures |s| == 4
  {
    var xi := x / l;
    [(6.0 * xi * xi - 6.0 * xi) / l, 1.0 - 4.0 * xi + 3.0 * xi * xi, (-6.0 * xi * xi + 6.0 * xi) / l,
     -2.0 * xi + 3.0 * xi * xi]
  }

  function SecondDerivative(x: real, l: real): (s: seq<real>)
    requires l != 0.0
    ensures |s| == 4
  {
    var xi := x / l;
    [(12.0 * xi - 6.0) / (l * l), (-4.0 + 6.0 * xi) / l, (6.0 - 12.0 * xi) / (l * l), (-2.0 + 6.0 * xi) / l]
  }

  /** Constants have derivative zero and the arc length has derivative one. */
  predicate FirstMoments(s: seq<real>, l: real) {
    |s| == 4 && s[0] + s[2] == 0.0 && s[1] + l * s[2] + s[3] == 1.0
  }

  /** Constants and the arc length have second derivative zero. */
  predicate SecondMoments(s: seq<real>, l: real) {
    |s| == 4 && s[0] + s[2] == 0.0 && s[1] + l * s[2] + s[3] == 0.0
  }

  lemma DerivativeMoments(x: real, l: real)
    requires l != 0.0
    ensures FirstMoments(FirstDerivative(x, l), l) && SecondMoments(SecondDerivative(x, l), l)
  {
    var xi := x / l;
    var u, w := 6.0 * xi * xi - 6.0 * xi, 12.0 * xi - 6.0;
    assert (-6.0 * xi * xi + 6.0 * xi) / l == -(u / l);
    assert l * (u / l) == u;
    assert (6.0 - 12.0 * xi) / (l * l) == -(w / (l * l));
    Halved(w, l);
    assert (-4.0 + 6.0 * xi) / l + (-2.0 + 6.0 * xi) / l == w / l;
  }

  lemma Halved(w: real, l: real)
    requires l != 0.0
    ensures l * (w / (l * l)) == w / l
  {
    var y := w / (l * l);
    assert y * (l * l) == w;
    assert (l * y) * l == w;
  }

  // ----- one quadrature point

  function Combine(s: seq<real>, q: seq<V3>, at: nat): V3
    requires |s| == 4 && at + 4 <= |q|
  {
    Add(Add(Scale(q[at], s[0]), Scale(q[at + 1], s[1])), Add(Scale(q[at + 2], s[2]), Scale(q[at + 3], s[3])))
  }

  function Power(x: real, n: nat): real {
    if n == 0 then 1.0 else x * Power(x, n - 1)
  }

  /** `x` to the power `-n`; exact arithmetic needs `x` nonzero. */
  function InversePower(x: real, n: nat): real
    requires x != 0.0
  {
    PowerNonzero(x, n);
    1.0 / Power(x, n)
  }

  lemma {:induction false} PowerNonzero(x: real, n: nat)
    requires x != 0.0
    ensures Power(x, n) != 0.0
  {
    if n > 0 {
      PowerNonzero(x, n - 1);
    }
  }

  function AxialFactor(a2: real, ea: real): real {
    ea * (0.5 * (a2 - 1.0))
  }

  function StretchFactor(a2: real, v2: real): real
    requires a2 != 0.0
  {
    -3.0 * v2 * InversePower(a2, 4)
  }

  /** The gradient of the energy density by the tangent `a`; `b` is the curvature vector. */
  function TangentGradient(a: V3, b: V3, ea: real, ei: real): V3
    requires Inner(a, a) != 0.0
  {
    var a2 := Inner(a, a);
    var v := Cross(a, b);
    var bending := Add(Scale(Cross(b, v), InversePower(a2, 3)), Scale(a, StretchFactor(a2, Inner(v, v))));
    Add(Scale(a, AxialFactor(a2, ea)), Scale(bending, ei))
  }

  /** The gradient of the energy density by the curvature vector `b`. */
  function CurvatureGradient(a: V3, b: V3, ei: real): V3
    requires Inner(a, a) != 0.0
  {
    var a2 := Inner(a, a);
    Scale(Scale(Cross(a, Cross(a, b)), -InversePower(a2, 3)), ei)
  }

  /** Turning tangent and curvature together costs no energy. */
  lemma RotationIsPowerless(a: V3, b: V3, t: V3, ea: real, ei: real)
    requires Inner(a, a) != 0.0
    ensures Inner(TangentGradient(a, b, ea, ei), Cross(t, a)) + Inner(CurvatureGradient(a, b, ei), Cross(t, b)) == 0.0
  {
    hide Inner, Cross, Add, Scale, InversePower, AxialFactor, StretchFactor;
    var a2 := Inner(a, a);
    var v := Cross(a, b);
    TurnedNormals(a, b, t);
    SelfCross(t, a);
    PowerOfTangent(a, Cross(b, v), Cross(t, a), AxialFactor(a2, ea), InversePower(a2, 3),
                   StretchFactor(a2, Inner(v, v)), ei);
    PowerOfCurvature(Cross(a, v), Cross(t, b), InversePower(a2, 3), ei);
  }

  lemma TurnedNormals(a: V3, b: V3, t: V3)
    ensures Inner(Cross(b, Cross(a, b)), Cross(t, a)) == Inner(Cross(a, Cross(a, b)), Cross(t, b))
  {
    hide Cross, Inner, Scale;
    var v := Cross(a, b);
    CrossIsNormal(a, b);
    ScalarTriple(b, v, Cross(t, a));
    ScalarTriple(a, v, Cross(t, b));
    NormalTurn(v, t, a);
    NormalTurn(v, t, b);
    InnerSymmetric(b, Scale(a, -Inner(v, t)));
    InnerSymmetric(a, Scale(b, -Inner(v, t)));
    InnerScale(a, -Inner(v, t), b);
    InnerScale(b, -Inner(v, t), a);
    InnerSymmetric(a, b);
  }

  lemma PowerOfTangent(a: V3, n: V3, w: V3, f: real, p: real, g: real, ei: real)
    requires Inner(a, w) == 0.0
    ensures Inner(Add(Scale(a, f), Scale(Add(Scale(n, p), Scale(a, g)), ei)), w) == ei * (p * Inner(n, w))
  {
    hide Inner, Add, Scale;
    InnerAdd(Scale(a, f), Scale(Add(Scale(n, p), Scale(a, g)), ei), w);
    InnerScale(a, f, w);
    InnerScale(Add(Scale(n, p), Scale(a, g)), ei, w);
    InnerAdd(Scale(n, p), Scale(a, g), w);
    InnerScale(n, p, w);
    InnerScale(a, g, w);
  }

  lemma PowerOfCurvature(n: V3, w: V3, p: real, ei: real)
    ensures Inner(Scale(Scale(n, -p), ei), w) == -(ei * (p * Inner(n, w)))
  {
    hide Inner, Scale;
    InnerScale(Scale(n, -p), ei, w);
    InnerScale(n, -p, w);
  }

  // ----- elements and assembly

  function Shapes(s: Section, k: nat): (seq<real>, seq<real>)
    requires k < |s.quadrature| && s.le != 0.0
    ensures |Shapes(s, k).0| == 4 && |Shapes(s, k).1| == 4
  {
    var x := 0.5 * (s.quadrature[k].0 + 1.0) * s.le;
    (FirstDerivative(x, s.le), SecondDerivative(x, s.le))
  }

  function Weight(s: Section, k: nat): real
    requires k < |s.quadrature|
  {
    s.quadrature[k].1 * s.le / 2.0
  }

  /** The weighted force of one point on block `b` of its element. */
  function PointForce(w: real, first: real, second: real, ga: V3, gb: V3): V3 {
    Scale(Add(Scale(ga, first), Scale(gb, second)), w)
  }

  lemma ShapesMoments(s: Section, k: nat)
    requires k < |s.quadrature| && s.le != 0.0
    ensures FirstMoments(Shapes(s, k).0, s.le) && SecondMoments(Shapes(s, k).1, s.le)
  {
    DerivativeMoments(0.5 * (s.quadrature[k].0 + 1.0) * s.le, s.le);
  }

  function WithPoint(f: seq<V3>, w: real, first: seq<real>, second: seq<real>, ga: V3, gb: V3): (g: seq<V3>)
    requires |f| == |first| == |second| == 4
    ensures |g| == 4
  {
    seq(4, i requires 0 <= i < 4 => Add(f[i], PointForce(w, first[i], second[i], ga, gb)))
  }

  /** The four block forces of element `e` over its first `k` points; none once a tangent is degenerate. */
  function ElementForce(s: Section, q: seq<V3>, e: nat, k: nat): (r: Option<seq<V3>>)
    requires s.le != 0.0 && k <= |s.quadrature| && 2 * e + 4 <= |q|
    ensures r.Some? ==> |r.value| == 4
    decreases k
  {
    if k == 0 then Some([ZERO, ZERO, ZERO, ZERO])
    else
      match ElementForce(s, q, e, k - 1)
      case None => None
      case Some(f) =>
        var (first, second) := Shapes(s, k - 1);
        var a, b := Combine(first, q, 2 * e), Combine(second, q, 2 * e);
        if Inner(a, a) < EPS then None
        else
          var ga, gb := TangentGradient(a, b, s.ea, s.ei), CurvatureGradient(a, b, s.ei);
          Some(WithPoint(f, Weight(s, k - 1), first, second, ga, gb))
  }

  function AddAt(f: seq<V3>, at: nat, fe: seq<V3>): (g: seq<V3>)
    requires |fe| == 4 && at + 4 <= |f|
    ensures |g| == |f|
  {
    seq(|f|, i requires 0 <= i < |f| => if at <= i < at + 4 then Add(f[i], fe[i - at]) else f[i])
  }

  /** The force of the first `n` elements on a line of `|q| / 2` nodes. */
  function Assembled(s: Section, q: seq<V3>, n: nat): (r: Option<seq<V3>>)
    requires s.le != 0.0 && 2 * n + 2 <= |q|
    ensures r.Some? ==> |r.value| == |q|
    decreases n
  {
    if n == 0 then Some(seq(|q|, _ => ZERO))
    else
      match Assembled(s, q, n - 1)
      case None => None
      case Some(f) =>
        match ElementForce(s, q, n - 1, |s.quadrature|)
        case None => None
        case Some(fe) => Some(AddAt(f, 2 * (n - 1), fe))
  }

  // ----- virtual work

  /** Work of block forces over block displacements. */
  ghost function Work(f: seq<V3>, d: seq<V3>, n: nat): real
    requires n <= |f| && n <= |d|
    decreases n
  {
    if n == 0 then 0.0 else Work(f, d, n - 1) + Inner(f[n - 1], d[n - 1])
  }

  /** At every point of every element the displacement field does no work on the gradients. */
  ghost predicate Powerless(s: Section, q: seq<V3>, d: seq<V3>, n: nat)
    requires s.le != 0.0 && 2 * n + 2 <= |q| && |d| == |q|
  {
    forall e: nat, k: nat :: e < n && k < |s.quadrature| ==> PointPower(s, q, d, e, k) == 0.0
  }

  /** The power of the displacement field at one point; zero by convention where the tangent degenerates. */
  ghost function PointPower(s: Section, q: seq<V3>, d: seq<V3>, e: nat, k: nat): real
    requires s.le != 0.0 && k < |s.quadrature| && 2 * e + 4 <= |q| == |d|
  {
    var (first, second) := Shapes(s, k);
    var a, b := Combine(first, q, 2 * e), Combine(second, q, 2 * e);
    if Inner(a, a) < EPS then 0.0
    else
      Inner(TangentGradient(a, b, s.ea, s.ei), Combine(first, d, 2 * e))
      + Inner(CurvatureGradient(a, b, s.ei), Combine(second, d, 2 * e))
  }

  /** The work of four block forces. */
  ghost function FourWork(f: seq<V3>, d: seq<V3>, at: nat): real
    requires |f| == 4 && at + 4 <= |d|
  {
    Inner(f[0], d[at]) + Inner(f[1], d[at + 1]) + Inner(f[2], d[at + 2]) + Inner(f[3], d[at + 3])
  }

  lemma InnerCombine(g: V3, s: seq<real>, d: seq<V3>, at: nat)
    requires |s| == 4 && at + 4 <= |d|
    ensures Inner(g, Combine(s, d, at))
      == s[0] * Inner(g, d[at]) + s[1] * Inner(g, d[at + 1]) + s[2] * Inner(g, d[at + 2]) + s[3] * Inner(g, d[at + 3])
  {
    hide Inner, Add, Scale;
    InnerSymmetric(g, Combine(s, d, at));
    InnerAdd(Add(Scale(d[at], s[0]), Scale(d[at + 1], s[1])), Add(Scale(d[at + 2], s[2]), Scale(d[at + 3], s[3])), g);
    InnerAdd(Scale(d[at], s[0]), Scale(d[at + 1], s[1]), g);
    InnerAdd(Scale(d[at + 2], s[2]), Scale(d[at + 3], s[3]), g);
    forall i | 0 <= i < 4
      ensures Inner(Scale(d[at + i], s[i]), g) == s[i] * Inner(g, d[at + i])
    {
      InnerScale(d[at + i], s[i], g);
      InnerSymmetric(g, d[at + i]);
    }
    assert Inner(Scale(d[at + 0], s[0]), g) == s[0] * Inner(g, d[at + 0]);
  }

  lemma InnerPoint(w: real, first: real, second: real, ga: V3, gb: V3, d: V3)
    ensures Inner(PointForce(w, first, second, ga, gb), d) == w * BlockPower(first, second, ga, gb, d)
  {
    hide Inner, Add, Scale;
    InnerScale(Add(Scale(ga, first), Scale(gb, second)), w, d);
    InnerAdd(Scale(ga, first), Scale(gb, second), d);
    InnerScale(ga, first, d);
    InnerScale(gb, second, d);
  }

  /** One more point adds the power of its gradients, weighted. */
  lemma PointWork(f: seq<V3>, w: real, first: seq<real>, second: seq<real>, ga: V3, gb: V3, d: seq<V3>, at: nat)
    requires |f| == |first| == |second| == 4 && at + 4 <= |d|
    ensures FourWork(WithPoint(f, w, first, second, ga, gb), d, at)
      == FourWork(f, d, at) + w * (Inner(ga, Combine(first, d, at)) + Inner(gb, Combine(second, d, at)))
  {
    hide Inner, Add, PointForce, Combine, WithPoint;
    var g := WithPoint(f, w, first, second, ga, gb);
    var p0, p1 := BlockPower(first[0], second[0], ga, gb, d[at]), BlockPower(first[1], second[1], ga, gb, d[at + 1]);
    var p2, p3 := BlockPower(first[2], second[2], ga, gb, d[at + 2]),
      BlockPower(first[3], second[3], ga, gb, d[at + 3]);
    BlockWork(f, w, first, second, ga, gb, d[at], 0);
    BlockWork(f, w, first, second, ga, gb, d[at + 1], 1);
    BlockWork(f, w, first, second, ga, gb, d[at + 2], 2);
    BlockWork(f, w, first, second, ga, gb, d[at + 3], 3);
    PowerCombines(first, second, ga, gb, d, at);
    FourTimes(w, p0, p1, p2, p3, p0 + p1 + p2 + p3);
  }

  /** The power of one block of a point. */
  function BlockPower(first: real, second: real, ga: V3, gb: V3, d: V3): real {
    first * Inner(ga, d) + second * Inner(gb, d)
  }

  lemma BlockWork(f: seq<V3>, w: real, first: seq<real>, second: seq<real>, ga: V3, gb: V3, d: V3, i: nat)
    requires |f| == |first| == |second| == 4 && i < 4
    ensures Inner(WithPoint(f, w, first, second, ga, gb)[i], d)
      == Inner(f[i], d) + w * BlockPower(first[i], second[i], ga, gb, d)
  {
    hide Inner, Add, PointForce;
    InnerAdd(f[i], PointForce(w, first[i], second[i], ga, gb), d);
    InnerPoint(w, first[i], second[i], ga, gb, d);
  }

  lemma PowerCombines(first: seq<real>, second: seq<real>, ga: V3, gb: V3, d: seq<V3>, at: nat)
    requires |first| == |second| == 4 && at + 4 <= |d|
    ensures BlockPower(first[0], second[0], ga, gb, d[at]) + BlockPower(first[1], second[1], ga, gb, d[at + 1])
      + BlockPower(first[2], second[2], ga, gb, d[at + 2]) + BlockPower(first[3], second[3], ga, gb, d[at + 3])
      == Inner(ga, Combine(first, d, at)) + Inner(gb, Combine(second, d, at))
  {
    hide Inner, Combine;
    InnerCombine(ga, first, d, at);
    InnerCombine(gb, second, d, at);
  }

  lemma FourTimes(w: real, p0: real, p1: real, p2: real, p3: real, sum: real)
    requires sum == p0 + p1 + p2 + p3
    ensures w * sum == w * p0 + w * p1 + w * p2 + w * p3
  {
  }

  lemma {:induction false} ElementPowerless(s: Section, q: seq<V3>, d: seq<V3>, e: nat, k: nat)
    requires s.le != 0.0 && k <= |s.quadrature| && 2 * e + 4 <= |q| == |d| && ElementForce(s, q, e, k).Some?
    requires forall i: nat :: i < |s.quadrature| ==> PointPower(s, q, d, e, i) == 0.0
    ensures FourWork(ElementForce(s, q, e, k).value, d, 2 * e) == 0.0
    decreases k
  {
    hide Inner, Combine, Shapes, TangentGradient, CurvatureGradient, WithPoint, Weight, FourWork;
    if k == 0 {
      FourNoForce(d, 2 * e);
    } else {
      ElementPowerless(s, q, d, e, k - 1);
      var (first, second) := Shapes(s, k - 1);
      var a, b := Combine(first, q, 2 * e), Combine(second, q, 2 * e);
      var ga, gb := TangentGradient(a, b, s.ea, s.ei), CurvatureGradient(a, b, s.ei);
      assert PointPower(s, q, d, e, k - 1) == 0.0;
      PointWork(ElementForce(s, q, e, k - 1).value, Weight(s, k - 1), first, second, ga, gb, d, 2 * e);
    }
  }

  lemma FourNoForce(d: seq<V3>, at: nat)
    requires at + 4 <= |d|
    ensures FourWork([ZERO, ZERO, ZERO, ZERO], d, at) == 0.0
  {
  }

  lemma NoForce(d: V3)
    ensures Inner(ZERO, d) == 0.0
  {
  }

  lemma {:induction false} AddAtWork(f: seq<V3>, at: nat, fe: seq<V3>, d: seq<V3>, n: nat)
    requires |fe| == 4 && at + 4 <= |f| == |d| && at + 4 <= n <= |f|
    ensures Work(AddAt(f, at, fe), d, n) == Work(f, d, n) + FourWork(fe, d, at)
    decreases n
  {
    hide Inner, Add;
    if n == at + 4 {
      WorkAgrees(AddAt(f, at, fe), f, d, at);
      InnerAdd(f[at], fe[0], d[at]);
      InnerAdd(f[at + 1], fe[1], d[at + 1]);
      InnerAdd(f[at + 2], fe[2], d[at + 2]);
      InnerAdd(f[at + 3], fe[3], d[at + 3]);
      FourLast(AddAt(f, at, fe), d, at);
      FourLast(f, d, at);
    } else {
      AddAtWork(f, at, fe, d, n - 1);
    }
  }

  lemma FourLast(f: seq<V3>, d: seq<V3>, at: nat)
    requires at + 4 <= |f| == |d|
    ensures Work(f, d, at + 4) == Work(f, d, at) + FourWork(f[at..at + 4], d, at)
  {
    hide Inner;
    assert Work(f, d, at + 1) == Work(f, d, at) + Inner(f[at], d[at]);
    assert Work(f, d, at + 2) == Work(f, d, at + 1) + Inner(f[at + 1], d[at + 1]);
    assert Work(f, d, at + 3) == Work(f, d, at + 2) + Inner(f[at + 2], d[at + 2]);
  }

  lemma {:induction false} WorkAgrees(f: seq<V3>, g: seq<V3>, d: seq<V3>, n: nat)
    requires n <= |f| && n <= |g| && n <= |d| && forall i :: 0 <= i < n ==> f[i] == g[i]
    ensures Work(f, d, n) == Work(g, d, n)
  {
    if n > 0 {
      WorkAgrees(f, g, d, n - 1);
    }
  }

  /** A displacement field that is powerless at every point does no work on the assembled force. */
  lemma {:induction false} NoWork(s: Section, q: seq<V3>, d: seq<V3>, n: nat)
    requires s.le != 0.0 && 2 * n + 2 <= |q| == |d| && Assembled(s, q, n).Some? && Powerless(s, q, d, n)
    ensures Work(Assembled(s, q, n).value, d, |q|) == 0.0
    decreases n
  {
    hide PointPower, ElementForce;
    if n == 0 {
      ZeroWork(d, |q|, |q|);
    } else {
      NoWork(s, q, d, n - 1);
      ElementPowerless(s, q, d, n - 1, |s.quadrature|);
      AddAtWork(Assembled(s, q, n - 1).value, 2 * (n - 1), ElementForce(s, q, n - 1, |s.quadrature|).value, d, |q|);
    }
  }

  lemma {:induction false} ZeroWork(d: seq<V3>, m: nat, n: nat)
    requires n <= m && n <= |d|
    ensures Work(seq(m, _ => ZERO), d, n) == 0.0
  {
    if n > 0 {
      ZeroWork(d, m, n - 1);
      NoForce(d[n - 1]);
    }
  }

  // ----- equilibrium

  ghost function Translated(q: seq<V3>, t: V3): (r: seq<V3>)
    ensures |r| == |q|
  {
    seq(|q|, i requires 0 <= i < |q| => if i % 2 == 0 then Add(q[i], t) else q[i])
  }

  lemma CombineTranslated(s: seq<real>, q: seq<V3>, t: V3, e: nat)
    requires |s| == 4 && s[0] + s[2] == 0.0 && 2 * e + 4 <= |q|
    ensures Combine(s, Translated(q, t), 2 * e) == Combine(s, q, 2 * e)
  {
    var r, d := Translated(q, t), Shift(t, |q|);
    forall i | 0 <= i < |q|
      ensures r[i] == Add(q[i], d[i])
    {
      assert Add(q[i], ZERO) == q[i];
    }
    CombineAdds(s, q, d, r, 2 * e);
    CombineShift(s, t, |q|, e);
    assert Add(Combine(s, q, 2 * e), ZERO) == Combine(s, q, 2 * e);
  }

  lemma CombineAdds(s: seq<real>, q: seq<V3>, d: seq<V3>, r: seq<V3>, at: nat)
    requires |s| == 4 && at + 4 <= |q| == |d| == |r| && forall i :: 0 <= i < |q| ==> r[i] == Add(q[i], d[i])
    ensures Combine(s, r, at) == Add(Combine(s, q, at), Combine(s, d, at))
  {
    hide Scale;
    ScaleAdds(q[at], d[at], s[0]);
    ScaleAdds(q[at + 1], d[at + 1], s[1]);
    ScaleAdds(q[at + 2], d[at + 2], s[2]);
    ScaleAdds(q[at + 3], d[at + 3], s[3]);
  }

  lemma ScaleAdds(a: V3, b: V3, s: real)
    ensures Scale(Add(a, b), s) == Add(Scale(a, s), Scale(b, s))
  {
  }

  lemma {:induction false} ElementTranslated(s: Section, q: seq<V3>, t: V3, e: nat, k: nat)
    requires s.le != 0.0 && k <= |s.quadrature| && 2 * e + 4 <= |q|
    ensures ElementForce(s, Translated(q, t), e, k) == ElementForce(s, q, e, k)
    decreases k
  {
    hide Inner, Combine, TangentGradient, CurvatureGradient, WithPoint, Weight, Translated, Shapes;
    if k > 0 {
      ElementTranslated(s, q, t, e, k - 1);
      var (first, second) := Shapes(s, k - 1);
      ShapesMoments(s, k - 1);
      CombineTranslated(first, q, t, e);
      CombineTranslated(second, q, t, e);
    }
  }

  /** Translating the whole line leaves the assembled force, and whether it exists, unchanged. */
  lemma {:induction false} TranslationInvariant(s: Section, q: seq<V3>, t: V3, n: nat)
    requires s.le != 0.0 && 2 * n + 2 <= |q|
    ensures Assembled(s, Translated(q, t), n) == Assembled(s, q, n)
    decreases n
  {
    hide ElementForce, Translated, AddAt;
    if n > 0 {
      TranslationInvariant(s, q, t, n - 1);
      ElementTranslated(s, q, t, n - 1, |s.quadrature|);
    }
  }

  ghost function PositionSum(f: seq<V3>, n: nat): V3
    requires 2 * n <= |f|
    decreases n
  {
    if n == 0 then ZERO else Add(PositionSum(f, n - 1), f[2 * (n - 1)])
  }

  /** Equal displacement of all nodes, slopes kept. */
  ghost function Shift(t: V3, m: nat): (d: seq<V3>)
    ensures |d| == m
  {
    seq(m, i requires 0 <= i < m => if i % 2 == 0 then t else ZERO)
  }

  lemma {:induction false} ShiftWork(f: seq<V3>, t: V3, n: nat, m: nat)
    requires 2 * n <= |f| && 2 * n <= m
    ensures Work(f, Shift(t, m), 2 * n) == Inner(PositionSum(f, n), t)
    decreases n
  {
    hide Inner, Add;
    if n == 0 {
      NoForce(t);
    } else {
      ShiftWork(f, t, n - 1, m);
      assert Shift(t, m)[2 * n - 2] == t && Shift(t, m)[2 * n - 1] == ZERO;
      assert Work(f, Shift(t, m), 2 * n - 1) == Work(f, Shift(t, m), 2 * n - 2) + Inner(f[2 * n - 2], t);
      InnerAdd(PositionSum(f, n - 1), f[2 * (n - 1)], t);
      NoForce(f[2 * n - 1]);
      InnerSymmetric(f[2 * n - 1], ZERO);
    }
  }

  lemma ShiftPowerless(s: Section, q: seq<V3>, t: V3, n: nat)
    requires s.le != 0.0 && 2 * n + 2 <= |q|
    ensures Powerless(s, q, Shift(t, |q|), n)
  {
    hide Inner, Combine, TangentGradient, CurvatureGradient, Shift, Shapes;
    forall e: nat, k: nat | e < n && k < |s.quadrature|
      ensures PointPower(s, q, Shift(t, |q|), e, k) == 0.0
    {
      var (first, second) := Shapes(s, k);
      ShapesMoments(s, k);
      CombineShift(first, t, |q|, e);
      CombineShift(second, t, |q|, e);
      var a, b := Combine(first, q, 2 * e), Combine(second, q, 2 * e);
      if Inner(a, a) >= EPS {
        NoForce(TangentGradient(a, b, s.ea, s.ei));
        InnerSymmetric(TangentGradient(a, b, s.ea, s.ei), ZERO);
        NoForce(CurvatureGradient(a, b, s.ei));
        InnerSymmetric(CurvatureGradient(a, b, s.ei), ZERO);
      }
    }
  }

  lemma CombineShift(s: seq<real>, t: V3, m: nat, e: nat)
    requires |s| == 4 && s[0] + s[2] == 0.0 && 2 * e + 4 <= m
    ensures Combine(s, Shift(t, m), 2 * e) == ZERO
  {
    var d := Shift(t, m);
    assert d[2 * e] == t && d[2 * e + 1] == ZERO && d[2 * e + 2] == t && d[2 * e + 3] == ZERO;
    assert s[0] == -s[2];
  }

  /** The position entries of the assembled force sum to zero in each direction. */
  lemma ForceBalanced(s: Section, q: seq<V3>, n: nat)
    requires s.le != 0.0 && |q| == 2 * n + 2 && Assembled(s, q, n).Some?
    ensures PositionSum(Assembled(s, q, n).value, n + 1) == ZERO
  {
    hide Assembled, Powerless, PositionSum, Shift, Work;
    var f := Assembled(s, q, n).value;
    var total := PositionSum(f, n + 1);
    forall t: V3
      ensures Inner(total, t) == 0.0
    {
      ShiftPowerless(s, q, t, n);
      NoWork(s, q, Shift(t, |q|), n);
      ShiftWork(f, t, n + 1, |q|);
    }
    OrthogonalToAll(total);
  }

  lemma OrthogonalToAll(v: V3)
    requires forall t: V3 :: Inner(v, t) == 0.0
    ensures v == ZERO
  {
    assert Inner(v, V3(1.0, 0.0, 0.0)) == v.x;
    assert Inner(v, V3(0.0, 1.0, 0.0)) == v.y;
    assert Inner(v, V3(0.0, 0.0, 1.0)) == v.z;
  }

  ghost function MomentSum(q: seq<V3>, f: seq<V3>, n: nat): V3
    requires n <= |q| && n <= |f|
    decreases n
  {
    if n == 0 then ZERO else Add(MomentSum(q, f, n - 1), Cross(q[n - 1], f[n - 1]))
  }

  /** An infinitesimal rotation of positions and slopes about the origin. */
  ghost function Turn(t: V3, q: seq<V3>): (d: seq<V3>)
    ensures |d| == |q|
  {
    seq(|q|, i requires 0 <= i < |q| => Cross(t, q[i]))
  }

  lemma {:induction false} TurnWork(q: seq<V3>, f: seq<V3>, t: V3, n: nat)
    requires n <= |q| && n <= |f|
    ensures Work(f, Turn(t, q), n) == Inner(MomentSum(q, f, n), t)
    decreases n
  {
    hide Inner, Add, Cross;
    if n == 0 {
      NoForce(t);
    } else {
      TurnWork(q, f, t, n - 1);
      InnerAdd(MomentSum(q, f, n - 1), Cross(q[n - 1], f[n - 1]), t);
      TripleProduct(f[n - 1], t, q[n - 1]);
    }
  }

  lemma TripleProduct(f: V3, t: V3, q: V3)
    ensures Inner(f, Cross(t, q)) == Inner(Cross(q, f), t)
  {
  }

  lemma CombineTurn(s: seq<real>, t: V3, q: seq<V3>, at: nat)
    requires |s| == 4 && at + 4 <= |q|
    ensures Combine(s, Turn(t, q), at) == Cross(t, Combine(s, q, at))
  {
    hide Add, Scale, Cross;
    forall i | 0 <= i < 4
      ensures Scale(Turn(t, q)[at + i], s[i]) == Cross(t, Scale(q[at + i], s[i]))
    {
      CrossScale(t, q[at + i], s[i]);
    }
    assert Scale(Turn(t, q)[at + 0], s[0]) == Cross(t, Scale(q[at + 0], s[0]));
    CrossAdd(t, Scale(q[at], s[0]), Scale(q[at + 1], s[1]));
    CrossAdd(t, Scale(q[at + 2], s[2]), Scale(q[at + 3], s[3]));
    CrossAdd(t, Add(Scale(q[at], s[0]), Scale(q[at + 1], s[1])), Add(Scale(q[at + 2], s[2]), Scale(q[at + 3], s[3])));
  }

  lemma TurnPowerless(s: Section, q: seq<V3>, t: V3, n: nat)
    requires s.le != 0.0 && 2 * n + 2 <= |q|
    ensures Powerless(s, q, Turn(t, q), n)
  {
    hide Inner, Combine, TangentGradient, CurvatureGradient, Turn, Shapes;
    forall e: nat, k: nat | e < n && k < |s.quadrature|
      ensures PointPower(s, q, Turn(t, q), e, k) == 0.0
    {
      var (first, second) := Shapes(s, k);
      CombineTurn(first, t, q, 2 * e);
      CombineTurn(second, t, q, 2 * e);
      var a, b := Combine(first, q, 2 * e), Combine(second, q, 2 * e);
      if Inner(a, a) >= EPS {
        RotationIsPowerless(a, b, t, s.ea, s.ei);
      }
    }
  }

  /** The assembled force has no resultant moment over positions and slopes. */
  lemma MomentBalanced(s: Section, q: seq<V3>, n: nat)
    requires s.le != 0.0 && |q| == 2 * n + 2 && Assembled(s, q, n).Some?
    ensures MomentSum(q, Assembled(s, q, n).value, |q|) == ZERO
  {
    hide Assembled, Powerless, MomentSum, Turn, Work;
    var f := Assembled(s, q, n).value;
    var total := MomentSum(q, f, |q|);
    forall t: V3
      ensures Inner(total, t) == 0.0
    {
      TurnPowerless(s, q, t, n);
      NoWork(s, q, Turn(t, q), n);
      TurnWork(q, f, t, |q|);
    }
    OrthogonalToAll(total);
  }

  // ----- the reference state

  /** The straight, unstretched line along the third axis. */
  ghost function Reference(le: real, m: nat): (q: seq<V3>)
    ensures |q| == m
  {
    seq(m, i requires 0 <= i < m => if i % 2 == 0 then V3(0.0, 0.0, (i / 2) as real * le) else V3(0.0, 0.0, 1.0))
  }

  lemma CombineReference(s: seq<real>, le: real, m: nat, e: nat)
    requires |s| == 4 && 2 * e + 4 <= m && s[0] + s[2] == 0.0
    ensures Combine(s, Reference(le, m), 2 * e) == V3(0.0, 0.0, s[1] + le * s[2] + s[3])
  {
    var q := Reference(le, m);
    assert (2 * e) / 2 == e && (2 * e + 2) / 2 == e + 1;
    assert q[2 * e] == V3(0.0, 0.0, e as real * le) && q[2 * e + 2] == V3(0.0, 0.0, (e + 1) as real * le);
    assert q[2 * e + 1] == V3(0.0, 0.0, 1.0) && q[2 * e + 3] == V3(0.0, 0.0, 1.0);
    LinearPart(s[0], s[2], e as real, (e + 1) as real, le);
  }

  lemma LinearPart(s0: real, s2: real, e: real, next: real, le: real)
    requires s0 + s2 == 0.0 && next == e + 1.0
    ensures s0 * (e * le) + s2 * (next * le) == le * s2
  {
    assert s0 == -s2;
    assert next * le == e * le + le;
  }

  lemma {:induction false} ReferenceElementFree(s: Section, m: nat, e: nat, k: nat)
    requires s.le != 0.0 && k <= |s.quadrature| && 2 * e + 4 <= m
    ensures ElementForce(s, Reference(s.le, m), e, k) == Some([ZERO, ZERO, ZERO, ZERO])
    decreases k
  {
    hide Combine, TangentGradient, CurvatureGradient, WithPoint, Weight, Reference, Shapes;
    if k > 0 {
      ReferenceElementFree(s, m, e, k - 1);
      var (first, second) := Shapes(s, k - 1);
      ShapesMoments(s, k - 1);
      CombineReference(first, s.le, m, e);
      CombineReference(second, s.le, m, e);
      ReferenceGradients(s.ea, s.ei);
      assert Combine(first, Reference(s.le, m), 2 * e) == V3(0.0, 0.0, 1.0);
      assert Combine(second, Reference(s.le, m), 2 * e) == ZERO;
      ZeroPoint(Weight(s, k - 1), first, second);
    }
  }

  lemma ReferenceGradients(ea: real, ei: real)
    ensures TangentGradient(V3(0.0, 0.0, 1.0), ZERO, ea, ei) == ZERO
    ensures CurvatureGradient(V3(0.0, 0.0, 1.0), ZERO, ei) == ZERO
  {
    hide Inner, Cross, Add, Scale, InversePower, AxialFactor, StretchFactor;
    ReferenceFacts(ea);
    ScaledZero(InversePower(1.0, 3));
    ScaledZero(-InversePower(1.0, 3));
    ScaledZero(ei);
  }

  lemma ReferenceFacts(ea: real)
    ensures var a := V3(0.0, 0.0, 1.0);
      && Inner(a, a) == 1.0 && Cross(a, ZERO) == ZERO && Cross(ZERO, ZERO) == ZERO && Inner(ZERO, ZERO) == 0.0
      && Scale(a, 0.0) == ZERO && Add(ZERO, ZERO) == ZERO
      && AxialFactor(1.0, ea) == 0.0 && StretchFactor(1.0, 0.0) == 0.0
  {
    AxialAtRest(ea);
    StretchAtRest();
    hide InversePower, AxialFactor, StretchFactor;
  }

  lemma AxialAtRest(ea: real)
    ensures AxialFactor(1.0, ea) == 0.0
  {
  }

  lemma StretchAtRest()
    ensures StretchFactor(1.0, 0.0) == 0.0
  {
    hide InversePower;
    var p := InversePower(1.0, 4);
    assert -3.0 * 0.0 * p == 0.0;
  }

  lemma ScaledZero(f: real)
    ensures Scale(ZERO, f) == ZERO
  {
  }

  lemma ZeroPoint(w: real, first: seq<real>, second: seq<real>)
    requires |first| == |second| == 4
    ensures WithPoint([ZERO, ZERO, ZERO, ZERO], w, first, second, ZERO, ZERO) == [ZERO, ZERO, ZERO, ZERO]
  {
    forall i | 0 <= i < 4
      ensures PointForce(w, first[i], second[i], ZERO, ZERO) == ZERO
    {
    }
  }

  /** The reference state carries no internal force. */
  lemma {:induction false} ReferenceForceFree(s: Section, m: nat, n: nat)
    requires s.le != 0.0 && 2 * n + 2 <= m
    ensures Assembled(s, Reference(s.le, m), n) == Some(seq(m, _ => ZERO))
    decreases n
  {
    hide ElementForce, Reference;
    if n > 0 {
      ReferenceForceFree(s, m, n - 1);
      ReferenceElementFree(s, m, n - 1, |s.quadrature|);
      assert AddAt(seq(m, _ => ZERO), 2 * (n - 1), [ZERO, ZERO, ZERO, ZERO]) == seq(m, _ => ZERO);
    }
  }

  // ----- the algorithm on flat vectors

  function Blocks(q: seq<real>): (b: seq<V3>)
    requires |q| % 3 == 0
    ensures |b| == |q| / 3
  {
    seq(|q| / 3, i requires 0 <= i < |q| / 3 => V3(q[3 * i], q[3 * i + 1], q[3 * i + 2]))
  }

  /** Adds a vector to three consecutive entries. */
  method AddBlock(f: array<real>, i: nat, v: V3)
    requires f.Length % 3 == 0 && 3 * i + 3 <= f.Length
    modifies f
    ensures Blocks(f[..]) == old(Blocks(f[..]))[i := Add(old(Blocks(f[..]))[i], v)]
  {
    f[3 * i] := f[3 * i] + v.x;
    f[3 * i + 1] := f[3 * i + 1] + v.y;
    f[3 * i + 2] := f[3 * i + 2] + v.z;
  }

  /** The twelve entries of one element's force, or none when a tangent is degenerate. */
  method ElementForceInto(s: Section, q: seq<V3>, e: nat, fe: array<real>) returns (regular: bool)
    requires s.le != 0.0 && 2 * e + 4 <= |q| && fe.Length == 12
    requires Blocks(fe[..]) == [ZERO, ZERO, ZERO, ZERO]
    modifies fe
    ensures regular <==> ElementForce(s, q, e, |s.quadrature|).Some?
    ensures regular ==> Blocks(fe[..]) == ElementForce(s, q, e, |s.quadrature|).value
  {
    hide Combine, Inner, TangentGradient, CurvatureGradient, Shapes, Weight, PointForce, Add, Blocks;
    for k: nat := 0 to |s.quadrature|
      invariant ElementForce(s, q, e, k).Some? && Blocks(fe[..]) == ElementForce(s, q, e, k).value
    {
      var (first, second) := Shapes(s, k);
      var a, b := Combine(first, q, 2 * e), Combine(second, q, 2 * e);
      if Inner(a, a) < EPS {
        DegenerateStays(s, q, e, k + 1, |s.quadrature|);
        return false;
      }
      var ga, gb := TangentGradient(a, b, s.ea, s.ei), CurvatureGradient(a, b, s.ei);
      ghost var before := Blocks(fe[..]);
      for i: nat := 0 to 4
        invariant |Blocks(fe[..])| == 4
        invariant forall j :: 0 <= j < i ==>
          Blocks(fe[..])[j] == Add(before[j], PointForce(Weight(s, k), first[j], second[j], ga, gb))
        invariant forall j :: i <= j < 4 ==> Blocks(fe[..])[j] == before[j]
      {
        AddBlock(fe, i, PointForce(Weight(s, k), first[i], second[i], ga, gb));
      }
      assert Blocks(fe[..]) == WithPoint(before, Weight(s, k), first, second, ga, gb);
    }
    return true;
  }

  lemma {:induction false} DegenerateStays(s: Section, q: seq<V3>, e: nat, k: nat, m: nat)
    requires s.le != 0.0 && k <= m <= |s.quadrature| && 2 * e + 4 <= |q| && ElementForce(s, q, e, k).None?
    ensures ElementForce(s, q, e, m).None?
    decreases m
  {
    if k < m {
      DegenerateStays(s, q, e, k, m - 1);
    }
  }

  lemma {:induction false} AssemblyStaysNone(s: Section, q: seq<V3>, n: nat, m: nat)
    requires s.le != 0.0 && n <= m && 2 * m + 2 <= |q| && Assembled(s, q, n).None?
    ensures Assembled(s, q, m).None?
    decreases m
  {
    if n < m {
      AssemblyStaysNone(s, q, n, m - 1);
    }
  }

  lemma AssembledStep(s: Section, q: seq<V3>, n: nat)
    requires s.le != 0.0 && 2 * n + 4 <= |q| && Assembled(s, q, n).Some?
    ensures var fe := ElementForce(s, q, n, |s.quadrature|);
      && (fe.None? ==> Assembled(s, q, n + 1).None?)
      && (fe.Some? ==> Assembled(s, q, n + 1) == Some(AddAt(Assembled(s, q, n).value, 2 * n, fe.value)))
  {
    hide ElementForce, AddAt;
  }

  /** Assembles the element forces into the global vector, or reports a degenerate tangent. */
  method AssembleForce(s: Section, q: seq<real>, elements: nat) returns (r: Option<seq<real>>)
    requires s.le != 0.0 && |q| == 6 * (elements + 1)
    ensures r.Some? <==> Assembled(s, Blocks(q), elements).Some?
    ensures r.Some? ==> |r.value| == |q| && Blocks(r.value) == Assembled(s, Blocks(q), elements).value
  {
    hide ElementForce, AddAt, Blocks;
    var blocks := Blocks(q);
    var force := ZeroBlocks(|blocks|);
    assert Assembled(s, blocks, 0) == Some(Blocks(force[..]));
    hide Assembled;
    for e: nat := 0 to elements
      invariant Assembled(s, blocks, e).Some? && Blocks(force[..]) == Assembled(s, blocks, e).value
    {
      var regular := AssembleElement(s, blocks, e, force);
      if !regular {
        AssemblyStaysNone(s, blocks, e + 1, elements);
        return None;
      }
    }
    return Some(force[..]);
  }

  /** Adds the force of element `e`; false when one of its tangents is degenerate. */
  method AssembleElement(s: Section, q: seq<V3>, e: nat, force: array<real>) returns (regular: bool)
    requires s.le != 0.0 && 2 * e + 4 <= |q| && force.Length == 3 * |q|
    requires Assembled(s, q, e).Some? && Blocks(force[..]) == Assembled(s, q, e).value
    modifies force
    ensures regular <==> Assembled(s, q, e + 1).Some?
    ensures regular ==> Blocks(force[..]) == Assembled(s, q, e + 1).value
  {
    hide ElementForce, AddAt, Assembled, Blocks;
    AssembledStep(s, q, e);
    var fe := ZeroBlocks(4);
    assert Blocks(fe[..]) == [ZERO, ZERO, ZERO, ZERO];
    regular := ElementForceInto(s, q, e, fe);
    if regular {
      AddElement(force, e, fe);
    }
  }

  method ZeroBlocks(m: nat) returns (f: array<real>)
    ensures fresh(f) && f.Length == 3 * m && Blocks(f[..]) == seq(m, _ => ZERO)
  {
    f := new real[3 * m](_ => 0.0);
  }

  method AddElement(force: array<real>, e: nat, element: array<real>)
    requires force.Length % 3 == 0 && element.Length == 12 && force != element && 6 * e + 12 <= force.Length
    modifies force
    ensures Blocks(force[..]) == AddAt(old(Blocks(force[..])), 2 * e, Blocks(element[..]))
  {
    hide Add, Blocks;
    var fe := Blocks(element[..]);
    ghost var before := Blocks(force[..]);
    for i: nat := 0 to 4
      invariant |Blocks(force[..])| == |before|
      invariant forall j :: 2 * e <= j < 2 * e + i ==> Blocks(force[..])[j] == Add(before[j], fe[j - 2 * e])
      invariant forall j :: 0 <= j < |before| && !(2 * e <= j < 2 * e + i) ==> Blocks(force[..])[j] == before[j]
    {
      AddBlock(force, 2 * e + i, fe[i]);
    }
  }
}
