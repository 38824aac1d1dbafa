/**
 The blocks of the element tangent at one quadrature point,
   against the rate at which the energy gradients really change.
 The rates come from evaluating the gradients on moving arguments, value and rate together, by the rules of sum, product
 and quotient. The bending blocks miss half of the rate of the squared curvature normal.
 */
module TangentRate {
  import opened Vec3
  import opened InternalForce

  // ----- three by three matrices

  datatype M3 = M3(x: V3, y: V3, z: V3) {
    function At(r: nat, c: nat): real
      requires r < 3 && c < 3
    {
      (if r == 0 then x else if r == 1 then y else z).At(c)
    }
  }

  const IDENTITY := M3(V3(1.0, 0.0, 0.0), V3(0.0, 1.0, 0.0), V3(0.0, 0.0, 1.0))

  function Plus(m: M3, n: M3): M3 {
    M3(Add(m.x, n.x), Add(m.y, n.y), Add(m.z, n.z))
  }

  function Times(m: M3, s: real): M3 {
    M3(Scale(m.x, s), Scale(m.y, s), Scale(m.z, s))
  }

  function Outer(u: V3, w: V3): M3 {
    M3(Scale(w, u.x), Scale(w, u.y), Scale(w, u.z))
  }

  function Transpose(m: M3): M3 {
    M3(V3(m.x.x, m.y.x, m.z.x), V3(m.x.y, m.y.y, m.z.y), V3(m.x.z, m.y.z, m.z.z))
  }

  function Apply(m: M3, u: V3): V3 {
    V3(Inner(m.x, u), Inner(m.y, u), Inner(m.z, u))
  }

  function CrossMatrix(a: V3): M3 {
    M3(V3(0.0, -a.z, a.y), V3(a.z, 0.0, -a.x), V3(-a.y, a.x, 0.0))
  }

  function Product(m: M3, n: M3): M3 {
    var t := Transpose(n);
    M3(Apply(t, m.x), Apply(t, m.y), Apply(t, m.z))
  }

  lemma ApplyPlus(m: M3, n: M3, u: V3)
    ensures Apply(Plus(m, n), u) == Add(Apply(m, u), Apply(n, u))
  {
    hide Inner;
    InnerAdd(m.x, n.x, u);
    InnerAdd(m.y, n.y, u);
    InnerAdd(m.z, n.z, u);
  }

  lemma ApplyTimes(m: M3, s: real, u: V3)
    ensures Apply(Times(m, s), u) == Scale(Apply(m, u), s)
  {
    hide Inner;
    InnerScale(m.x, s, u);
    InnerScale(m.y, s, u);
    InnerScale(m.z, s, u);
  }

  lemma ApplyOuter(v: V3, w: V3, u: V3)
    ensures Apply(Outer(v, w), u) == Scale(v, Inner(w, u))
  {
    hide Inner;
    InnerScale(w, v.x, u);
    InnerScale(w, v.y, u);
    InnerScale(w, v.z, u);
    Commute(v.x, Inner(w, u));
    Commute(v.y, Inner(w, u));
    Commute(v.z, Inner(w, u));
  }

  lemma ApplyIdentity(u: V3)
    ensures Apply(IDENTITY, u) == u
  {
  }

  lemma ApplyCross(a: V3, u: V3)
    ensures Apply(CrossMatrix(a), u) == Cross(a, u)
  {
  }

  lemma ApplyProduct(m: M3, n: M3, u: V3)
    ensures Apply(Product(m, n), u) == Apply(m, Apply(n, u))
  {
    hide Inner;
    RowProduct(m.x, n, u);
    RowProduct(m.y, n, u);
    RowProduct(m.z, n, u);
  }

  /** A row times a product of matrices, in either order. */
  lemma RowProduct(r: V3, n: M3, u: V3)
    ensures Inner(Apply(Transpose(n), r), u) == Inner(r, Apply(n, u))
  {
    var p, q := Apply(Transpose(n), r), Apply(n, u);
    NineTerms(r.x, r.y, r.z, n.x.x, n.x.y, n.x.z, n.y.x, n.y.y, n.y.z, n.z.x, n.z.y, n.z.z, u.x, u.y, u.z);
    Named3(p.x, p.y, p.z, u.x, u.y, u.z, n.x.x * r.x + n.y.x * r.y + n.z.x * r.z,
           n.x.y * r.x + n.y.y * r.y + n.z.y * r.z, n.x.z * r.x + n.y.z * r.y + n.z.z * r.z);
    Named3(q.x, q.y, q.z, r.x, r.y, r.z, n.x.x * u.x + n.x.y * u.y + n.x.z * u.z,
           n.y.x * u.x + n.y.y * u.y + n.y.z * u.z, n.z.x * u.x + n.z.y * u.y + n.z.z * u.z);
  }

  lemma Named3(p: real, q: real, r: real, a: real, b: real, c: real, p': real, q': real, r': real)
    requires p == p' && q == q' && r == r'
    ensures p * a + q * b + r * c == p' * a + q' * b + r' * c == a * p' + b * q' + c * r'
  {
  }

  lemma NineTerms(a: real, b: real, c: real, xx: real, xy: real, xz: real, yx: real, yy: real, yz: real,
                  zx: real, zy: real, zz: real, u: real, v: real, w: real)
    ensures (xx * a + yx * b + zx * c) * u + (xy * a + yy * b + zy * c) * v + (xz * a + yz * b + zz * c) * w
      == a * (xx * u + xy * v + xz * w) + b * (yx * u + yy * v + yz * w) + c * (zx * u + zy * v + zz * w)
  {
  }

  lemma TransposePlus(m: M3, n: M3)
    ensures Transpose(Plus(m, n)) == Plus(Transpose(m), Transpose(n))
  {
  }

  lemma TransposeTimes(m: M3, s: real)
    ensures Transpose(Times(m, s)) == Times(Transpose(m), s)
  {
    hide Scale, IsTimes;
    var t := Times(m, s);
    RowOfTimes(m.x, t.x, s);
    RowOfTimes(m.y, t.y, s);
    RowOfTimes(m.z, t.z, s);
    ColumnTimes(V3(m.x.x, m.y.x, m.z.x), V3(t.x.x, t.y.x, t.z.x), s);
    ColumnTimes(V3(m.x.y, m.y.y, m.z.y), V3(t.x.y, t.y.y, t.z.y), s);
    ColumnTimes(V3(m.x.z, m.y.z, m.z.z), V3(t.x.z, t.y.z, t.z.z), s);
  }

  predicate IsTimes(x: real, s: real, p: real) {
    p == s * x
  }

  lemma RowOfTimes(u: V3, w: V3, s: real)
    requires w == Scale(u, s)
    ensures IsTimes(u.x, s, w.x) && IsTimes(u.y, s, w.y) && IsTimes(u.z, s, w.z)
  {
  }

  lemma ColumnTimes(u: V3, w: V3, s: real)
    requires IsTimes(u.x, s, w.x) && IsTimes(u.y, s, w.y) && IsTimes(u.z, s, w.z)
    ensures w == Scale(u, s)
  {
  }

  lemma TransposeOuter(u: V3, w: V3)
    ensures Transpose(Outer(u, w)) == Outer(w, u)
  {
    ColumnOfOuter(u, w.x);
    ColumnOfOuter(u, w.y);
    ColumnOfOuter(u, w.z);
  }

  lemma ColumnOfOuter(u: V3, s: real)
    ensures V3(u.x * s, u.y * s, u.z * s) == Scale(u, s)
  {
  }

  lemma TransposeCross(a: V3)
    ensures Transpose(CrossMatrix(a)) == Times(CrossMatrix(a), -1.0)
  {
  }

  // ----- the blocks the kernel computes

  /** The blocks of the second derivative of the energy density, by tangent and curvature vector. */
  datatype Hessian = Hessian(aa: M3, ab: M3, bb: M3)

  function SpreadFactor(a2: real, v2: real): real
    requires a2 != 0.0
  {
    24.0 * v2 * InversePower(a2, 5)
  }

  function BendingAA(a: V3, b: V3): M3
    requires Inner(a, a) != 0.0
  {
    var a2, v := Inner(a, a), Cross(a, b);
    var n, v2, x := Apply(CrossMatrix(b), v), Inner(v, v), CrossMatrix(b);
    Plus(Plus(Plus(Plus(Times(Product(x, x), -InversePower(a2, 3)), Times(Outer(n, a), -6.0 * InversePower(a2, 4))),
                   Times(Outer(a, n), -3.0 * InversePower(a2, 4))),
              Times(Outer(a, a), SpreadFactor(a2, v2))),
         Times(IDENTITY, StretchFactor(a2, v2)))
  }

  function BendingAB(a: V3, b: V3): M3
    requires Inner(a, a) != 0.0
  {
    var a2, v := Inner(a, a), Cross(a, b);
    Plus(Times(Plus(Times(CrossMatrix(v), -1.0), Product(CrossMatrix(b), CrossMatrix(a))), InversePower(a2, 3)),
         Times(Outer(a, Apply(CrossMatrix(a), v)), 3.0 * InversePower(a2, 4)))
  }

  function BendingBB(a: V3): M3
    requires Inner(a, a) != 0.0
  {
    Times(Product(CrossMatrix(a), CrossMatrix(a)), -InversePower(Inner(a, a), 3))
  }

  function HessianAt(a: V3, b: V3, ea: real, ei: real): Hessian
    requires Inner(a, a) != 0.0
  {
    var eps := 0.5 * (Inner(a, a) - 1.0);
    Hessian(Plus(Times(Plus(Outer(a, a), Times(IDENTITY, eps)), ea), Times(BendingAA(a, b), ei)),
            Times(BendingAB(a, b), ei), Times(BendingBB(a), ei))
  }

  // ----- the blocks applied to a direction

  lemma ApplyBendingAA(a: V3, b: V3, x: V3)
    requires Inner(a, a) != 0.0
    ensures var a2, v := Inner(a, a), Cross(a, b);
      var n, p4 := Cross(b, v), InversePower(a2, 4);
      Apply(BendingAA(a, b), x)
      == Add(Add(Add(Add(Scale(Cross(b, Cross(b, x)), -InversePower(a2, 3)), Scale(Scale(n, Inner(a, x)), -6.0 * p4)),
                     Scale(Scale(a, Inner(n, x)), -3.0 * p4)),
                 Scale(Scale(a, Inner(a, x)), SpreadFactor(a2, Inner(v, v)))),
             Scale(x, StretchFactor(a2, Inner(v, v))))
  {
    hide Inner, Cross, Apply, Plus, Times, Outer, CrossMatrix, Product, Add, Scale, InversePower, SpreadFactor,
         StretchFactor;
    var a2, v := Inner(a, a), Cross(a, b);
    var n, m, p4 := Cross(b, v), CrossMatrix(b), InversePower(a2, 4);
    var t0, t1 := Times(Product(m, m), -InversePower(a2, 3)), Times(Outer(n, a), -6.0 * p4);
    var t2, t3 := Times(Outer(a, n), -3.0 * p4), Times(Outer(a, a), SpreadFactor(a2, Inner(v, v)));
    var t4 := Times(IDENTITY, StretchFactor(a2, Inner(v, v)));
    ApplyCross(b, v);
    assert BendingAA(a, b) == Plus(Plus(Plus(Plus(t0, t1), t2), t3), t4);
    ApplyPlus(Plus(Plus(Plus(t0, t1), t2), t3), t4, x);
    ApplyPlus(Plus(Plus(t0, t1), t2), t3, x);
    ApplyPlus(Plus(t0, t1), t2, x);
    ApplyPlus(t0, t1, x);
    ApplyTimes(Product(m, m), -InversePower(a2, 3), x);
    ApplyProduct(m, m, x);
    ApplyCross(b, x);
    ApplyCross(b, Cross(b, x));
    ApplyTimes(Outer(n, a), -6.0 * p4, x);
    ApplyOuter(n, a, x);
    ApplyTimes(Outer(a, n), -3.0 * p4, x);
    ApplyOuter(a, n, x);
    ApplyTimes(Outer(a, a), SpreadFactor(a2, Inner(v, v)), x);
    ApplyOuter(a, a, x);
    ApplyTimes(IDENTITY, StretchFactor(a2, Inner(v, v)), x);
    ApplyIdentity(x);
  }

  lemma ApplyBendingAB(a: V3, b: V3, y: V3)
    requires Inner(a, a) != 0.0
    ensures var a2, v := Inner(a, a), Cross(a, b);
      Apply(BendingAB(a, b), y)
      == Add(Scale(Add(Scale(Cross(v, y), -1.0), Cross(b, Cross(a, y))), InversePower(a2, 3)),
             Scale(Scale(a, Inner(Cross(a, v), y)), 3.0 * InversePower(a2, 4)))
  {
    hide Inner, Cross, Apply, Plus, Times, Outer, CrossMatrix, Product, Add, Scale, InversePower;
    var a2, v := Inner(a, a), Cross(a, b);
    var l, w := Plus(Times(CrossMatrix(v), -1.0), Product(CrossMatrix(b), CrossMatrix(a))), Cross(a, v);
    ApplyCross(a, v);
    ApplyPlus(Times(l, InversePower(a2, 3)), Times(Outer(a, w), 3.0 * InversePower(a2, 4)), y);
    ApplyTimes(l, InversePower(a2, 3), y);
    ApplyPlus(Times(CrossMatrix(v), -1.0), Product(CrossMatrix(b), CrossMatrix(a)), y);
    ApplyTimes(CrossMatrix(v), -1.0, y);
    ApplyCross(v, y);
    ApplyProduct(CrossMatrix(b), CrossMatrix(a), y);
    ApplyCross(a, y);
    ApplyCross(b, Cross(a, y));
    ApplyTimes(Outer(a, w), 3.0 * InversePower(a2, 4), y);
    ApplyOuter(a, w, y);
  }

  lemma TransposedCross(a: V3, x: V3)
    ensures Apply(Transpose(CrossMatrix(a)), x) == Scale(Cross(a, x), -1.0)
  {
    hide Cross, Apply, Times, CrossMatrix, Transpose;
    TransposeCross(a);
    ApplyTimes(CrossMatrix(a), -1.0, x);
    ApplyCross(a, x);
  }

  lemma TransposedProduct(m: M3, n: M3, u: V3)
    ensures Apply(Transpose(Product(m, n)), u) == Apply(Transpose(n), Apply(Transpose(m), u))
  {
    hide Inner, Apply;
    var t := Transpose(n);
    RowsOfProduct(m, n);
    assert Transpose(Product(m, n)) == Product(t, Transpose(m));
    ApplyProduct(t, Transpose(m), u);
  }

  /** The product of the transposed factors in reverse order. */
  lemma RowsOfProduct(m: M3, n: M3)
    ensures Transpose(Product(m, n)) == Product(Transpose(n), Transpose(m))
  {
    InnersCommute(m, Transpose(n));
  }

  lemma InnersCommute(m: M3, t: M3)
    ensures Inner(m.x, t.x) == Inner(t.x, m.x) && Inner(m.x, t.y) == Inner(t.y, m.x)
      && Inner(m.x, t.z) == Inner(t.z, m.x)
    ensures Inner(m.y, t.x) == Inner(t.x, m.y) && Inner(m.y, t.y) == Inner(t.y, m.y)
      && Inner(m.y, t.z) == Inner(t.z, m.y)
    ensures Inner(m.z, t.x) == Inner(t.x, m.z) && Inner(m.z, t.y) == Inner(t.y, m.z)
      && Inner(m.z, t.z) == Inner(t.z, m.z)
  {
    forall u, w
      ensures Inner(u, w) == Inner(w, u)
    {
      InnerSymmetric(u, w);
    }
  }

  lemma ApplyBendingBA(a: V3, b: V3, x: V3)
    requires Inner(a, a) != 0.0
    ensures var a2, v := Inner(a, a), Cross(a, b);
      Apply(Transpose(BendingAB(a, b)), x)
      == Add(Scale(Add(Cross(v, x), Cross(a, Cross(b, x))), InversePower(a2, 3)),
             Scale(Scale(Cross(a, v), Inner(a, x)), 3.0 * InversePower(a2, 4)))
  {
    hide Inner, Cross, Apply, Plus, Times, Outer, CrossMatrix, Product, Add, Scale, InversePower, Transpose;
    var a2, v := Inner(a, a), Cross(a, b);
    var s, r := Times(CrossMatrix(v), -1.0), Product(CrossMatrix(b), CrossMatrix(a));
    var l, w := Plus(s, r), Cross(a, v);
    ApplyCross(a, v);
    TransposePlus(Times(l, InversePower(a2, 3)), Times(Outer(a, w), 3.0 * InversePower(a2, 4)));
    TransposeTimes(l, InversePower(a2, 3));
    TransposeTimes(Outer(a, w), 3.0 * InversePower(a2, 4));
    TransposeOuter(a, w);
    TransposePlus(s, r);
    TransposeTimes(CrossMatrix(v), -1.0);
    ApplyPlus(Times(Transpose(l), InversePower(a2, 3)), Times(Outer(w, a), 3.0 * InversePower(a2, 4)), x);
    ApplyTimes(Transpose(l), InversePower(a2, 3), x);
    ApplyPlus(Transpose(s), Transpose(r), x);
    ApplyTimes(Transpose(CrossMatrix(v)), -1.0, x);
    TransposedCross(v, x);
    TwiceNegated(Cross(v, x));
    TransposedProduct(CrossMatrix(b), CrossMatrix(a), x);
    TransposedCross(b, x);
    TransposedCross(a, Scale(Cross(b, x), -1.0));
    CrossScale(a, Cross(b, x), -1.0);
    TwiceNegated(Cross(a, Cross(b, x)));
    ApplyTimes(Outer(w, a), 3.0 * InversePower(a2, 4), x);
    ApplyOuter(w, a, x);
  }

  lemma TwiceNegated(u: V3)
    ensures Scale(Scale(u, -1.0), -1.0) == u
  {
  }

  lemma ApplyBendingBB(a: V3, y: V3)
    requires Inner(a, a) != 0.0
    ensures Apply(BendingBB(a), y) == Scale(Cross(a, Cross(a, y)), -InversePower(Inner(a, a), 3))
  {
    hide Inner, Cross, Apply, Times, CrossMatrix, Product, Scale, InversePower;
    ApplyTimes(Product(CrossMatrix(a), CrossMatrix(a)), -InversePower(Inner(a, a), 3), y);
    ApplyProduct(CrossMatrix(a), CrossMatrix(a), y);
    ApplyCross(a, y);
    ApplyCross(a, Cross(a, y));
  }

  // ----- values and their rates

  datatype Rate = Rate(at: real, rate: real)

  datatype Moving = Moving(at: V3, rate: V3)

  function Fixed(c: real): Rate {
    Rate(c, 0.0)
  }

  function SumRate(s: Rate, t: Rate): Rate {
    Rate(s.at + t.at, s.rate + t.rate)
  }

  function TimesRate(s: Rate, t: Rate): Rate {
    Rate(s.at * t.at, s.rate * t.at + s.at * t.rate)
  }

  function InverseRate(s: Rate): Rate
    requires s.at != 0.0
  {
    Rate(1.0 / s.at, -s.rate / (s.at * s.at))
  }

  function PowerRate(x: Rate, n: nat): (r: Rate)
    ensures r.at == Power(x.at, n)
  {
    if n == 0 then Fixed(1.0) else TimesRate(x, PowerRate(x, n - 1))
  }

  function InversePowerRate(x: Rate, n: nat): (r: Rate)
    requires x.at != 0.0
    ensures r.at == InversePower(x.at, n)
  {
    PowerNonzero(x.at, n);
    InverseRate(PowerRate(x, n))
  }

  function AddRate(u: Moving, w: Moving): Moving {
    Moving(Add(u.at, w.at), Add(u.rate, w.rate))
  }

  function ScaleRate(u: Moving, s: Rate): Moving {
    Moving(Scale(u.at, s.at), Add(Scale(u.rate, s.at), Scale(u.at, s.rate)))
  }

  function InnerRate(u: Moving, w: Moving): Rate {
    Rate(Inner(u.at, w.at), Inner(u.rate, w.at) + Inner(u.at, w.rate))
  }

  function CrossRate(u: Moving, w: Moving): Moving {
    Moving(Cross(u.at, w.at), Add(Cross(u.rate, w.at), Cross(u.at, w.rate)))
  }

  function AxialRate(a2: Rate, ea: real): (r: Rate)
    ensures r.at == AxialFactor(a2.at, ea)
  {
    TimesRate(Fixed(ea), TimesRate(Fixed(0.5), SumRate(a2, Fixed(-1.0))))
  }

  function StretchRate(a2: Rate, v2: Rate): (r: Rate)
    requires a2.at != 0.0
    ensures r.at == StretchFactor(a2.at, v2.at)
  {
    TimesRate(TimesRate(Fixed(-3.0), v2), InversePowerRate(a2, 4))
  }

  /** The gradient by the tangent, evaluated on moving arguments. */
  function MovingTangentGradient(a: Moving, b: Moving, ea: real, ei: real): (g: Moving)
    requires Inner(a.at, a.at) != 0.0
    ensures g.at == TangentGradient(a.at, b.at, ea, ei)
  {
    var a2, v := InnerRate(a, a), CrossRate(a, b);
    var bending := AddRate(ScaleRate(CrossRate(b, v), InversePowerRate(a2, 3)),
                           ScaleRate(a, StretchRate(a2, InnerRate(v, v))));
    AddRate(ScaleRate(a, AxialRate(a2, ea)), ScaleRate(bending, Fixed(ei)))
  }

  /** The gradient by the curvature vector, evaluated on moving arguments. */
  function MovingCurvatureGradient(a: Moving, b: Moving, ei: real): (g: Moving)
    requires Inner(a.at, a.at) != 0.0
    ensures g.at == CurvatureGradient(a.at, b.at, ei)
  {
    var p := InversePowerRate(InnerRate(a, a), 3);
    ScaleRate(ScaleRate(CrossRate(a, CrossRate(a, b)), Rate(-p.at, -p.rate)), Fixed(ei))
  }

  // ----- the rates written out

  lemma PowerNext(x: Rate, n: nat)
    ensures PowerRate(x, 0).rate == 0.0
    ensures n > 0 ==>
      && PowerRate(x, n).rate == x.rate * Power(x.at, n - 1) + x.at * PowerRate(x, n - 1).rate
      && Power(x.at, n) == x.at * Power(x.at, n - 1)
  {
  }

  ghost predicate GrowsAs(x: Rate, n: nat, m: real) {
    PowerRate(x, n).rate * x.at == m * (Power(x.at, n) * x.rate)
  }

  lemma {:induction false} PowerRateIs(x: Rate, n: nat)
    ensures GrowsAs(x, n, n as real)
  {
    hide Power, PowerRate;
    PowerNext(x, n);
    if n > 0 {
      PowerRateIs(x, n - 1);
      var p, r, m := Power(x.at, n - 1), PowerRate(x, n - 1).rate, (n - 1) as real;
      OneMorePower(x.at, x.rate, p, r, m, p * x.rate, n as real, PowerRate(x, n).rate, Power(x.at, n));
    }
  }

  lemma OneMorePower(x: real, d: real, p: real, r: real, m: real, pd: real, n: real, r': real, p': real)
    requires r * x == m * pd && pd == p * d && n == m + 1.0 && r' == d * p + x * r && p' == x * p
    ensures r' * x == n * (p' * d)
  {
    assert r' * x == (d * p) * x + x * (r * x);
    assert x * (r * x) == x * (m * pd);
    assert (d * p) * x == p' * d;
    assert x * (m * (p * d)) == m * (p' * d);
  }

  lemma InversePowerRateIs(x: Rate, n: nat)
    requires x.at != 0.0
    ensures InversePowerRate(x, n).rate == -(n as real * (InversePower(x.at, n + 1) * x.rate))
  {
    hide PowerRate;
    PowerNonzero(x.at, n);
    PowerNonzero(x.at, n + 1);
    PowerRateIs(x, n);
    PowerQuotient(PowerRate(x, n).rate, Power(x.at, n), x.at, x.rate, n as real, InversePower(x.at, n + 1));
  }

  lemma PowerQuotient(r: real, p: real, x: real, d: real, n: real, q: real)
    requires r * x == n * (p * d) && p != 0.0 && x != 0.0 && x * p != 0.0 && q == 1.0 / (x * p)
    ensures -r / (p * p) == -(n * (q * d))
  {
    var m := n * (q * d);
    assert q * (x * p) == 1.0;
    Cleared(r, p, x, d, n, q, m);
    assert m * (p * p) == r;
    assert p * p != 0.0;
  }

  lemma Cleared(r: real, p: real, x: real, d: real, n: real, q: real, m: real)
    requires r * x == n * (p * d) && q * (x * p) == 1.0 && m == n * (q * d)
    ensures m * (p * p) == r
  {
    assert m * (p * p) == (n * (p * d)) * (q * p);
    assert (r * x) * (q * p) == r * (q * (x * p));
  }

  lemma SquareRate(a: V3, x: V3)
    ensures InnerRate(Moving(a, x), Moving(a, x)) == Rate(Inner(a, a), 2.0 * Inner(a, x))
  {
    hide Inner;
    InnerSymmetric(a, x);
  }

  // The scalar factors of the rates, named so that vector steps need no arithmetic.

  function Twofold(s: real, t: real): real {
    s * t
  }

  function CubeFactor(p4: real, ax: real): real {
    -6.0 * (p4 * ax)
  }

  function TurnFactor(turning: real, p4: real, g: real, ax: real): real {
    -6.0 * (turning * p4) + g * ax
  }

  lemma AxialRateIs(a2: Rate, ea: real, ax: real)
    requires a2.rate == 2.0 * ax
    ensures AxialRate(a2, ea).rate == Twofold(ea, ax)
  {
    var h := TimesRate(Fixed(0.5), SumRate(a2, Fixed(-1.0)));
    assert h.rate == ax;
  }

  lemma CubeRateIs(a2: Rate, ax: real)
    requires a2.at != 0.0 && a2.rate == 2.0 * ax
    ensures InversePowerRate(a2, 3).rate == CubeFactor(InversePower(a2.at, 4), ax)
  {
    hide InversePower, InversePowerRate;
    InversePowerRateIs(a2, 3);
    CubeTerms(InversePower(a2.at, 4), ax, a2.rate);
  }

  lemma CubeTerms(p4: real, ax: real, da2: real)
    requires da2 == 2.0 * ax
    ensures -(3.0 * (p4 * da2)) == -6.0 * (p4 * ax)
  {
  }

  lemma StretchRateIs(a2: Rate, v2: Rate, ax: real, turning: real)
    requires a2.at != 0.0 && a2.rate == 2.0 * ax && v2.rate == 2.0 * turning
    ensures StretchRate(a2, v2).rate == TurnFactor(turning, InversePower(a2.at, 4), SpreadFactor(a2.at, v2.at), ax)
  {
    hide InversePower, InversePowerRate;
    InversePowerRateIs(a2, 4);
    StretchTerms(v2.at, turning, InversePower(a2.at, 4), InversePower(a2.at, 5), ax, v2.rate, a2.rate,
                 InversePowerRate(a2, 4).rate, -3.0 * v2.at);
  }

  lemma StretchTerms(v2: real, turning: real, p4: real, p5: real, ax: real, dv2: real, da2: real, dp4: real, f: real)
    requires dv2 == 2.0 * turning && da2 == 2.0 * ax && dp4 == -(4.0 * (p5 * da2)) && f == -3.0 * v2
    ensures (0.0 * v2 + -3.0 * dv2) * p4 + f * dp4 == -6.0 * (turning * p4) + 24.0 * v2 * p5 * ax
  {
    assert p5 * da2 == 2.0 * (p5 * ax);
    assert f * dp4 == 24.0 * (v2 * (p5 * ax));
  }

  /** Half the rate of the squared normal `a x b` when `a` moves along `x` and `b` along `y`. */
  function Turning(a: V3, b: V3, x: V3, y: V3): real {
    Inner(Cross(b, Cross(a, b)), x) - Inner(Cross(a, Cross(a, b)), y)
  }

  lemma NormalRate(a: V3, b: V3, x: V3, y: V3)
    ensures var v := CrossRate(Moving(a, x), Moving(b, y));
      v.at == Cross(a, b) && v.rate == Add(Cross(x, b), Cross(a, y))
      && InnerRate(v, v) == Rate(Inner(v.at, v.at), 2.0 * Turning(a, b, x, y))
  {
    hide Inner, Cross, Add;
    var v := Cross(a, b);
    SquareRate(v, Add(Cross(x, b), Cross(a, y)));
    InnerSymmetric(v, Add(Cross(x, b), Cross(a, y)));
    InnerAdd(Cross(x, b), Cross(a, y), v);
    ScalarTriple(x, b, v);
    InnerSymmetric(x, Cross(b, v));
    CrossAnti(a, y);
    InnerScale(Cross(y, a), -1.0, v);
    ScalarTriple(y, a, v);
    InnerSymmetric(y, Cross(a, v));
  }

  lemma CrossAnti(a: V3, b: V3)
    ensures Cross(a, b) == Scale(Cross(b, a), -1.0)
  {
    Commute(a.x, b.y);
    Commute(a.x, b.z);
    Commute(a.y, b.x);
    Commute(a.y, b.z);
    Commute(a.z, b.x);
    Commute(a.z, b.y);
  }

  // ----- the blocks against the rates

  /** The rate of the tangent gradient, its scalar factors written out. */
  lemma TangentRateIs(a: V3, b: V3, x: V3, y: V3, ea: real, ei: real)
    requires Inner(a, a) != 0.0
    ensures var a2, v, ax := Inner(a, a), Cross(a, b), Inner(a, x);
      var n, v2, p4 := Cross(b, v), Inner(v, v), InversePower(a2, 4);
      var dn := Add(Cross(y, v), Cross(b, Add(Cross(x, b), Cross(a, y))));
      var bending := Add(Scale(n, InversePower(a2, 3)), Scale(a, StretchFactor(a2, v2)));
      var rate := Add(Add(Scale(dn, InversePower(a2, 3)), Scale(n, CubeFactor(p4, ax))),
                      Add(Scale(x, StretchFactor(a2, v2)),
                          Scale(a, TurnFactor(Turning(a, b, x, y), p4, SpreadFactor(a2, v2), ax))));
      MovingTangentGradient(Moving(a, x), Moving(b, y), ea, ei).rate
      == Add(Add(Scale(x, AxialFactor(a2, ea)), Scale(a, Twofold(ea, ax))), Add(Scale(rate, ei), Scale(bending, 0.0)))
  {
    hide Inner, Cross, Add, Scale, InversePower, InversePowerRate, AxialFactor, AxialRate, StretchFactor, StretchRate,
         SpreadFactor, Turning, Twofold, CubeFactor, TurnFactor;
    var a2 := InnerRate(Moving(a, x), Moving(a, x));
    var v := CrossRate(Moving(a, x), Moving(b, y));
    SquareRate(a, x);
    NormalRate(a, b, x, y);
    AxialRateIs(a2, ea, Inner(a, x));
    StretchRateIs(a2, InnerRate(v, v), Inner(a, x), Turning(a, b, x, y));
    CubeRateIs(a2, Inner(a, x));
  }

  /** What the first blocks do to a direction, their scalar factors written out. */
  lemma BlocksOnTangent(a: V3, b: V3, x: V3, y: V3, ea: real, ei: real)
    requires Inner(a, a) != 0.0
    ensures var h := HessianAt(a, b, ea, ei);
      Apply(h.aa, x) == Add(Scale(Add(Scale(a, Inner(a, x)), Scale(x, 0.5 * (Inner(a, a) - 1.0))), ea),
                            Scale(Apply(BendingAA(a, b), x), ei))
      && Apply(h.ab, y) == Scale(Apply(BendingAB(a, b), y), ei)
  {
    hide Inner, Apply, Plus, Times, Outer, Add, Scale, BendingAA, BendingAB, BendingBB;
    var eps := 0.5 * (Inner(a, a) - 1.0);
    ApplyPlus(Times(Plus(Outer(a, a), Times(IDENTITY, eps)), ea), Times(BendingAA(a, b), ei), x);
    ApplyTimes(Plus(Outer(a, a), Times(IDENTITY, eps)), ea, x);
    ApplyPlus(Outer(a, a), Times(IDENTITY, eps), x);
    ApplyOuter(a, a, x);
    ApplyTimes(IDENTITY, eps, x);
    ApplyIdentity(x);
    ApplyTimes(BendingAA(a, b), ei, x);
    ApplyTimes(BendingAB(a, b), ei, y);
  }

  lemma ScaleTwice(u: V3, s: real, t: real, st: real)
    requires st == s * t
    ensures Scale(Scale(u, s), t) == Scale(u, st)
  {
    TimesProduct(t, s, u.x, s * u.x);
    TimesProduct(t, s, u.y, s * u.y);
    TimesProduct(t, s, u.z, s * u.z);
    Regroup(s, t, u.x, st);
    Regroup(s, t, u.y, st);
    Regroup(s, t, u.z, st);
  }

  lemma Regroup(s: real, t: real, x: real, st: real)
    requires st == s * t
    ensures t * (s * x) == st * x
  {
  }

  lemma ScaleSum(u: V3, s: real, t: real, sum: real)
    requires sum == s + t
    ensures Scale(u, sum) == Add(Scale(u, s), Scale(u, t))
  {
    TimesSum(u.x, s, t, sum);
    TimesSum(u.y, s, t, sum);
    TimesSum(u.z, s, t, sum);
  }

  lemma ScaleNone(u: V3)
    ensures Scale(u, 0.0) == ZERO
  {
  }

  /** The axial part: one factor for both terms. */
  lemma AxialAgrees(a: V3, x: V3, ea: real, ax: real, eps: real, eax: real, f: real)
    requires eax == ax * ea && f == eps * ea
    ensures Scale(Add(Scale(a, ax), Scale(x, eps)), ea) == Add(Scale(a, eax), Scale(x, f))
  {
    hide Scale, Add;
    ScaleAdds(Scale(a, ax), Scale(x, eps), ea);
    ScaleTwice(a, ax, ea, eax);
    ScaleTwice(x, eps, ea, f);
  }

  /** The four terms along the tangent, of which the kernel has three. */
  lemma AlongTangent(a: V3, nx: real, ax: real, wy: real, m3: real, g: real, q3: real, h: real, k: real)
    requires k == nx * m3 + ax * g + wy * q3 + h
    ensures Scale(a, k)
      == Add(Add(Add(Scale(Scale(a, nx), m3), Scale(Scale(a, ax), g)), Scale(Scale(a, wy), q3)), Scale(a, h))
  {
    hide Scale, Add;
    var u, w, z := nx * m3, ax * g, wy * q3;
    ScaleTwice(a, nx, m3, u);
    ScaleTwice(a, ax, g, w);
    ScaleTwice(a, wy, q3, z);
    ScaleSum(a, u, w, u + w);
    ScaleSum(a, u + w, z, u + w + z);
    ScaleSum(a, u + w + z, h, k);
  }

  /** The scalar factors that meet in one direction; every product is a field of its own. */
  datatype Factors = Factors(
    ax: real, p3: real, n3: real, k3: real, s: real, g: real, k: real, nx: real, wy: real, m6: real, m3: real, q3: real,
    h: real)
  {
    predicate Agree() {
      n3 == -1.0 * p3 && k3 == ax * m6 && k == nx * m3 + ax * g + wy * q3 + h
    }
  }

  /** The rate of the bending gradient is what the two blocks give, and one more term along the tangent. */
  lemma BendingAgrees(c: Factors, a: V3, x: V3, n: V3, vy: V3, bbx: V3, bay: V3)
    requires c.Agree()
    ensures Add(Add(Scale(Add(Scale(vy, -1.0), Add(Scale(bbx, -1.0), bay)), c.p3), Scale(n, c.k3)),
                Add(Scale(x, c.s), Scale(a, c.k)))
      == Add(Add(Add(Add(Add(Add(Scale(bbx, c.n3), Scale(Scale(n, c.ax), c.m6)), Scale(Scale(a, c.nx), c.m3)),
                         Scale(Scale(a, c.ax), c.g)),
                     Scale(x, c.s)),
                 Add(Scale(Add(Scale(vy, -1.0), bay), c.p3), Scale(Scale(a, c.wy), c.q3))),
             Scale(a, c.h))
  {
    hide Scale;
    var turned := Add(Scale(vy, -1.0), bay);
    assert Add(Scale(vy, -1.0), Add(Scale(bbx, -1.0), bay)) == Add(turned, Scale(bbx, -1.0));
    ScaleAdds(turned, Scale(bbx, -1.0), c.p3);
    ScaleTwice(bbx, -1.0, c.p3, c.n3);
    ScaleTwice(n, c.ax, c.m6, c.k3);
    AlongTangent(a, c.nx, c.ax, c.wy, c.m3, c.g, c.q3, c.h, c.k);
  }

  /** Both sides assembled from their axial and bending parts. */
  lemma PartsAgree(axial: V3, axialRate: V3, rate: V3, z: V3, bending: V3, mixed: V3, a: V3, h: real, ei: real, d: real)
    requires rate == Add(Add(bending, mixed), Scale(a, h)) && d == h * ei && axialRate == axial
    ensures Add(axialRate, Add(Scale(rate, ei), Scale(z, 0.0)))
      == Add(Add(Add(axial, Scale(bending, ei)), Scale(mixed, ei)), Scale(a, d))
  {
    hide Scale;
    ScaleAdds(Add(bending, mixed), Scale(a, h), ei);
    ScaleAdds(bending, mixed, ei);
    ScaleTwice(a, h, ei, d);
    ScaleNone(z);
  }

  lemma NormalTurns(a: V3, b: V3, x: V3, y: V3)
    ensures var v := Cross(a, b);
      Add(Cross(y, v), Cross(b, Add(Cross(x, b), Cross(a, y))))
      == Add(Scale(Cross(v, y), -1.0), Add(Scale(Cross(b, Cross(b, x)), -1.0), Cross(b, Cross(a, y))))
  {
    hide Cross, Add, Scale;
    CrossAnti(y, Cross(a, b));
    CrossAdd(b, Cross(x, b), Cross(a, y));
    CrossAnti(x, b);
    CrossScale(b, Cross(b, x), -1.0);
  }

  /** How far the kernel's blocks miss the rate of the tangent gradient. */
  function TangentMiss(a: V3, b: V3, x: V3, y: V3, ei: real): real
    requires Inner(a, a) != 0.0
  {
    -3.0 * (ei * (InversePower(Inner(a, a), 4) * Turning(a, b, x, y)))
  }

  lemma FactorsAgree(p3: real, p4: real, ax: real, s: real, g: real, nx: real, wy: real, t: real)
    requires t == nx - wy
    ensures Factors(ax, p3, -p3, CubeFactor(p4, ax), s, g, TurnFactor(t, p4, g, ax), nx, wy, -6.0 * p4, -3.0 * p4,
                    3.0 * p4,
                    -3.0 * (p4 * t)).Agree()
  {
  }

  lemma TangentMisses(a: V3, b: V3, x: V3, y: V3, ea: real, ei: real)
    requires Inner(a, a) != 0.0
    ensures var h := HessianAt(a, b, ea, ei);
      MovingTangentGradient(Moving(a, x), Moving(b, y), ea, ei).rate
      == Add(Add(Apply(h.aa, x), Apply(h.ab, y)), Scale(a, TangentMiss(a, b, x, y, ei)))
  {
    hide Inner, Cross, Add, Scale, InversePower, StretchFactor, SpreadFactor, Apply, BendingAA, BendingAB,
         MovingTangentGradient, HessianAt, CubeFactor, TurnFactor, Factors.Agree;
    var a2, v, ax := Inner(a, a), Cross(a, b), Inner(a, x);
    var n, v2, w := Cross(b, v), Inner(v, v), Cross(a, v);
    var p3, p4, s, g := InversePower(a2, 3), InversePower(a2, 4), StretchFactor(a2, v2), SpreadFactor(a2, v2);
    var t, eps := Turning(a, b, x, y), 0.5 * (a2 - 1.0);
    TangentRateIs(a, b, x, y, ea, ei);
    NormalTurns(a, b, x, y);
    BlocksOnTangent(a, b, x, y, ea, ei);
    ApplyBendingAA(a, b, x);
    ApplyBendingAB(a, b, y);
    FactorsAgree(p3, p4, ax, s, g, Inner(n, x), Inner(w, y), t);
    var c := Factors(ax, p3, -p3, CubeFactor(p4, ax), s, g, TurnFactor(t, p4, g, ax), Inner(n, x), Inner(w, y),
                     -6.0 * p4,
                     -3.0 * p4, 3.0 * p4, -3.0 * (p4 * t));
    BendingAgrees(c, a, x, n, Cross(v, y), Cross(b, Cross(b, x)), Cross(b, Cross(a, y)));
    AxialAgrees(a, x, ea, ax, eps, Twofold(ea, ax), AxialFactor(a2, ea));
    AddCommutes(Scale(x, AxialFactor(a2, ea)), Scale(a, Twofold(ea, ax)));
    var rate := Add(Add(Scale(Add(Scale(Cross(v, y), -1.0),
                                  Add(Scale(Cross(b, Cross(b, x)), -1.0), Cross(b, Cross(a, y)))), p3),
                        Scale(n, c.k3)), Add(Scale(x, s), Scale(a, c.k)));
    PartsAgree(Scale(Add(Scale(a, ax), Scale(x, eps)), ea),
               Add(Scale(x, AxialFactor(a2, ea)), Scale(a, Twofold(ea, ax))), rate,
               Add(Scale(n, p3), Scale(a, s)), Apply(BendingAA(a, b), x), Apply(BendingAB(a, b), y), a, c.h, ei,
               TangentMiss(a, b, x, y, ei));
  }

  lemma AddCommutes(u: V3, w: V3)
    ensures Add(u, w) == Add(w, u)
  {
  }

  /** The rate of the curvature gradient, its scalar factors written out. */
  lemma CurvatureRateIs(a: V3, b: V3, x: V3, y: V3, ei: real)
    requires Inner(a, a) != 0.0
    ensures var a2, v := Inner(a, a), Cross(a, b);
      var w, dw := Cross(a, v), Add(Cross(x, v), Cross(a, Add(Cross(x, b), Cross(a, y))));
      var rate := Add(Scale(dw, -InversePower(a2, 3)), Scale(w, -CubeFactor(InversePower(a2, 4), Inner(a, x))));
      MovingCurvatureGradient(Moving(a, x), Moving(b, y), ei).rate
      == Add(Scale(rate, ei), Scale(Scale(w, -InversePower(a2, 3)), 0.0))
  {
    hide Inner, Cross, Add, Scale, InversePower, InversePowerRate, CubeFactor;
    SquareRate(a, x);
    CubeRateIs(InnerRate(Moving(a, x), Moving(a, x)), Inner(a, x));
  }

  lemma CurvatureTurns(a: V3, b: V3, x: V3, y: V3)
    ensures var v := Cross(a, b);
      Add(Cross(x, v), Cross(a, Add(Cross(x, b), Cross(a, y))))
      == Add(Scale(Add(Cross(v, x), Cross(a, Cross(b, x))), -1.0), Cross(a, Cross(a, y)))
  {
    hide Cross, Scale;
    CrossAnti(x, Cross(a, b));
    CrossAdd(a, Cross(x, b), Cross(a, y));
    CrossAnti(x, b);
    CrossScale(a, Cross(b, x), -1.0);
    ScaleAdds(Cross(Cross(a, b), x), Cross(a, Cross(b, x)), -1.0);
  }

  /** What the other blocks do to a direction. */
  lemma BlocksOnCurvature(a: V3, b: V3, x: V3, y: V3, ea: real, ei: real)
    requires Inner(a, a) != 0.0
    ensures var h := HessianAt(a, b, ea, ei);
      && Apply(Transpose(h.ab), x) == Scale(Apply(Transpose(BendingAB(a, b)), x), ei)
      && Apply(h.bb, y) == Scale(Apply(BendingBB(a), y), ei)
  {
    hide Inner, Apply, Plus, Times, Outer, Add, Scale, BendingAA, BendingAB, BendingBB, Transpose;
    TransposeTimes(BendingAB(a, b), ei);
    ApplyTimes(Transpose(BendingAB(a, b)), ei, x);
    ApplyTimes(BendingBB(a), ei, y);
  }

  lemma CurvaturePartsAgree(u: V3, aay: V3, w: V3, z: V3, p3: real, n3: real, k3: real, ax: real, q3: real, h: real,
      ei: real,
                            d: real)
    requires n3 == -p3 && k3 == ax * q3 + h && d == h * ei
    ensures Add(Scale(Add(Scale(Add(Scale(u, -1.0), aay), n3), Scale(w, k3)), ei), Scale(z, 0.0))
      == Add(Add(Scale(Add(Scale(u, p3), Scale(Scale(w, ax), q3)), ei), Scale(Scale(aay, n3), ei)), Scale(w, d))
  {
    hide Scale;
    ScaleAdds(Scale(u, -1.0), aay, n3);
    ScaleTwice(u, -1.0, n3, p3);
    ScaleTwice(w, ax, q3, ax * q3);
    ScaleSum(w, ax * q3, h, k3);
    assert Add(Scale(Add(Scale(u, -1.0), aay), n3), Scale(w, k3))
      == Add(Add(Add(Scale(u, p3), Scale(Scale(w, ax), q3)), Scale(aay, n3)), Scale(w, h));
    ScaleAdds(Add(Add(Scale(u, p3), Scale(Scale(w, ax), q3)), Scale(aay, n3)), Scale(w, h), ei);
    ScaleAdds(Add(Scale(u, p3), Scale(Scale(w, ax), q3)), Scale(aay, n3), ei);
    ScaleTwice(w, h, ei, d);
    ScaleNone(z);
  }

  /** How far the kernel's blocks miss the rate of the curvature gradient. */
  function CurvatureMiss(a: V3, x: V3, ei: real): real
    requires Inner(a, a) != 0.0
  {
    3.0 * (ei * (InversePower(Inner(a, a), 4) * Inner(a, x)))
  }

  lemma HalfOfSix(p4: real, ax: real, ei: real, miss: real)
    requires miss == 3.0 * (ei * (p4 * ax))
    ensures -CubeFactor(p4, ax) == ax * (3.0 * p4) + 3.0 * (p4 * ax) && miss == (3.0 * (p4 * ax)) * ei
  {
  }

  lemma CurvatureMisses(a: V3, b: V3, x: V3, y: V3, ea: real, ei: real)
    requires Inner(a, a) != 0.0
    ensures var h := HessianAt(a, b, ea, ei);
      MovingCurvatureGradient(Moving(a, x), Moving(b, y), ei).rate
      == Add(Add(Apply(Transpose(h.ab), x), Apply(h.bb, y)), Scale(Cross(a, Cross(a, b)), CurvatureMiss(a, x, ei)))
  {
    hide Inner, Cross, Add, Scale, InversePower, Apply, BendingAB, BendingBB, MovingCurvatureGradient, HessianAt,
         CubeFactor, Transpose;
    var a2, v, ax := Inner(a, a), Cross(a, b), Inner(a, x);
    var p3, p4 := InversePower(a2, 3), InversePower(a2, 4);
    var w, u := Cross(a, v), Add(Cross(v, x), Cross(a, Cross(b, x)));
    CurvatureRateIs(a, b, x, y, ei);
    CurvatureTurns(a, b, x, y);
    BlocksOnCurvature(a, b, x, y, ea, ei);
    ApplyBendingBA(a, b, x);
    ApplyBendingBB(a, y);
    HalfOfSix(p4, ax, ei, CurvatureMiss(a, x, ei));
    CurvaturePartsAgree(u, Cross(a, Cross(a, y)), w, Scale(w, -p3), p3, -p3, -CubeFactor(p4, ax), ax, 3.0 * p4,
                        3.0 * (p4 * ax), ei, CurvatureMiss(a, x, ei));
  }

  // ----- when the blocks are the rates

  /** Along one pair of directions the kernel's blocks give the rates of both gradients. */
  ghost predicate ExactAlong(a: V3, b: V3, ea: real, ei: real, x: V3, y: V3)
    requires Inner(a, a) != 0.0
  {
    var h := HessianAt(a, b, ea, ei);
    && MovingTangentGradient(Moving(a, x), Moving(b, y), ea, ei).rate == Add(Apply(h.aa, x), Apply(h.ab, y))
    && MovingCurvatureGradient(Moving(a, x), Moving(b, y), ei).rate == Add(Apply(Transpose(h.ab), x), Apply(h.bb, y))
  }

  lemma NothingMissed(u: V3, w: V3, s: real)
    ensures u == Add(u, Scale(w, s)) <==> Scale(w, s) == ZERO
  {
    hide Scale;
  }

  lemma ScaledToZero(w: V3, s: real)
    ensures Scale(w, s) == ZERO <==> s == 0.0 || w == ZERO
  {
  }

  lemma ExactAlongIff(a: V3, b: V3, ea: real, ei: real, x: V3, y: V3)
    requires Inner(a, a) != 0.0
    ensures ExactAlong(a, b, ea, ei, x, y) <==>
      Scale(a, TangentMiss(a, b, x, y, ei)) == ZERO && Scale(Cross(a, Cross(a, b)), CurvatureMiss(a, x, ei)) == ZERO
  {
    hide Inner, Cross, Add, Scale, Apply, Transpose, HessianAt, MovingTangentGradient, MovingCurvatureGradient,
         TangentMiss, CurvatureMiss;
    var h := HessianAt(a, b, ea, ei);
    TangentMisses(a, b, x, y, ea, ei);
    CurvatureMisses(a, b, x, y, ea, ei);
    NothingMissed(Add(Apply(h.aa, x), Apply(h.ab, y)), a, TangentMiss(a, b, x, y, ei));
    NothingMissed(Add(Apply(Transpose(h.ab), x), Apply(h.bb, y)), Cross(a, Cross(a, b)), CurvatureMiss(a, x, ei));
  }

  function Square(x: real): real {
    x * x
  }

  lemma SquareIsZero(v: V3)
    requires Inner(v, v) == 0.0
    ensures v == ZERO
  {
    hide Inner, Square;
    SumOfSquares(v);
    SquarePositive(v.x);
    SquarePositive(v.y);
    SquarePositive(v.z);
  }

  lemma SumOfSquares(v: V3)
    ensures Inner(v, v) == Square(v.x) + Square(v.y) + Square(v.z)
  {
  }

  lemma SquarePositive(x: real)
    ensures Square(x) >= 0.0 && (x != 0.0 ==> Square(x) > 0.0)
  {
    hide Square;
    SquareOfNegated(x);
    if x > 0.0 {
      SquareOfPositive(x);
    } else if x < 0.0 {
      SquareOfPositive(-x);
    } else {
      SquareOfZero();
    }
  }

  lemma SquareOfZero()
    ensures Square(0.0) == 0.0
  {
  }

  lemma SquareOfPositive(x: real)
    requires x > 0.0
    ensures Square(x) > 0.0
  {
    PositiveProduct(x, x, Square(x));
  }

  lemma PositiveProduct(a: real, b: real, p: real)
    requires a > 0.0 && b > 0.0 && p == a * b
    ensures p > 0.0
  {
    assert a * b > 0.0;
  }

  lemma SquareOfNegated(x: real)
    ensures Square(-x) == Square(x)
  {
  }

  lemma CrossZero(a: V3)
    ensures Cross(a, ZERO) == ZERO && forall x :: Inner(ZERO, x) == 0.0
  {
  }

  /** A vector normal to `a`, crossed with it, vanishes only with the vector. */
  lemma NormalCrossIsZero(a: V3, v: V3)
    requires Inner(v, a) == 0.0 && Inner(a, a) != 0.0 && Cross(a, v) == ZERO
    ensures v == ZERO
  {
    hide Cross, Inner, Scale;
    NormalTurn(v, v, a);
    CrossAnti(v, a);
    ScaledToZero(ZERO, -1.0);
    CrossZero(v);
    ScaledToZero(a, -Inner(v, v));
    ZeroSquare();
    SquareIsZero(v);
  }

  lemma ZeroSquare()
    ensures Inner(ZERO, ZERO) == 0.0
  {
  }

  lemma MissIsZero(p4: real, ei: real, t: real)
    requires p4 != 0.0
    ensures 3.0 * (ei * (p4 * t)) == 0.0 <==> ei == 0.0 || t == 0.0
  {
  }

  lemma InverseNonzero(x: real, n: nat)
    requires x != 0.0
    ensures InversePower(x, n) != 0.0
  {
    PowerNonzero(x, n);
    var p, q := Power(x, n), InversePower(x, n);
    assert q * p == 1.0;
  }

  /** At a regular point the tangent's blocks are the exact second derivative of the energy if and only if there is no
      bending stiffness or the curvature vector lies along the tangent. */
  lemma TangentIsExact(a: V3, b: V3, ea: real, ei: real)
    requires Inner(a, a) != 0.0
    ensures (forall x, y :: ExactAlong(a, b, ea, ei, x, y)) <==> ei == 0.0 || Cross(a, b) == ZERO
  {
    hide Inner, Cross, Scale, ExactAlong, TangentMiss, CurvatureMiss;
    if ei == 0.0 || Cross(a, b) == ZERO {
      forall x, y
        ensures ExactAlong(a, b, ea, ei, x, y)
      {
        NothingToMiss(a, b, ei, x, y);
        ExactAlongIff(a, b, ea, ei, x, y);
      }
    } else {
      ExactAlongIff(a, b, ea, ei, a, ZERO);
      CurvatureMissed(a, b, ei);
    }
  }

  lemma NothingToMiss(a: V3, b: V3, ei: real, x: V3, y: V3)
    requires Inner(a, a) != 0.0 && (ei == 0.0 || Cross(a, b) == ZERO)
    ensures Scale(a, TangentMiss(a, b, x, y, ei)) == ZERO
      && Scale(Cross(a, Cross(a, b)), CurvatureMiss(a, x, ei)) == ZERO
  {
    hide Inner, Cross, Scale, InversePower;
    CrossZero(a);
    CrossZero(b);
    ScaledToZero(a, TangentMiss(a, b, x, y, ei));
    ScaledToZero(Cross(a, Cross(a, b)), CurvatureMiss(a, x, ei));
  }

  lemma CurvatureMissed(a: V3, b: V3, ei: real)
    requires Inner(a, a) != 0.0 && ei != 0.0 && Cross(a, b) != ZERO
    ensures Scale(Cross(a, Cross(a, b)), CurvatureMiss(a, a, ei)) != ZERO
  {
    hide Inner, Cross, Scale, InversePower;
    CrossIsNormal(a, b);
    if Cross(a, Cross(a, b)) == ZERO {
      NormalCrossIsZero(a, Cross(a, b));
    }
    InverseNonzero(Inner(a, a), 4);
    MissIsZero(InversePower(Inner(a, a), 4), ei, Inner(a, a));
    ScaledToZero(Cross(a, Cross(a, b)), CurvatureMiss(a, a, ei));
  }
}
