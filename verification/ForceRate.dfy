/**
 The rates of the assembled force and of the stored energy while the line moves. Both are evaluated on moving
 coordinates, value and rate together: the force turns out to be the rate of the energy along every direction, and its
 own rate spreads from the quadrature points to the nodes the way the force does.
 */
module ForceRate {
  import opened Wrappers
  import opened Vec3
  import opened InternalForce
  import opened TangentRate
  import Tangent

  // ----- pairs at the quadrature points, spread to the nodes

  /** A pair of vectors, by tangent and by curvature vector, for every element and point. */
  type Field = (nat, nat) -> (V3, V3)

  function ElementSpread(s: Section, g: Field, e: nat, k: nat): (f: seq<V3>)
    requires s.le != 0.0 && k <= |s.quadrature|
    ensures |f| == 4
    decreases k
  {
    if k == 0 then [ZERO, ZERO, ZERO, ZERO]
    else
      var (first, second) := Shapes(s, k - 1);
      WithPoint(ElementSpread(s, g, e, k - 1), Weight(s, k - 1), first, second, g(e, k - 1).0, g(e, k - 1).1)
  }

  /** The field spread over the first `n` elements of a line with `m` coordinate blocks. */
  function Spread(s: Section, g: Field, n: nat, m: nat): (f: seq<V3>)
    requires s.le != 0.0 && 2 * n + 2 <= m
    ensures |f| == m
    decreases n
  {
    if n == 0 then seq(m, _ => ZERO)
    else AddAt(Spread(s, g, n - 1, m), 2 * (n - 1), ElementSpread(s, g, n - 1, |s.quadrature|))
  }

  /** What a pair does on the displacement of its point. */
  ghost function PairPower(s: Section, p: (V3, V3), d: seq<V3>, e: nat, k: nat): real
    requires s.le != 0.0 && k < |s.quadrature| && 2 * e + 4 <= |d|
  {
    Inner(p.0, Tangent.Tangents(s, d, e, k).0) + Inner(p.1, Tangent.Tangents(s, d, e, k).1)
  }

  ghost function ElementPower(s: Section, g: Field, d: seq<V3>, e: nat, k: nat): real
    requires s.le != 0.0 && k <= |s.quadrature| && 2 * e + 4 <= |d|
    decreases k
  {
    if k == 0 then 0.0
    else ElementPower(s, g, d, e, k - 1) + Weight(s, k - 1) * PairPower(s, g(e, k - 1), d, e, k - 1)
  }

  /** The weighted sum over all points of the first `n` elements. */
  ghost function FieldPower(s: Section, g: Field, d: seq<V3>, n: nat): real
    requires s.le != 0.0 && 2 * n + 2 <= |d|
    decreases n
  {
    if n == 0 then 0.0 else FieldPower(s, g, d, n - 1) + ElementPower(s, g, d, n - 1, |s.quadrature|)
  }

  lemma {:induction false} ElementSpreadWork(s: Section, g: Field, d: seq<V3>, e: nat, k: nat)
    requires s.le != 0.0 && k <= |s.quadrature| && 2 * e + 4 <= |d|
    ensures FourWork(ElementSpread(s, g, e, k), d, 2 * e) == ElementPower(s, g, d, e, k)
    decreases k
  {
    hide Inner, Combine, Shapes, WithPoint, Weight, FourWork;
    if k == 0 {
      FourNoForce(d, 2 * e);
    } else {
      ElementSpreadWork(s, g, d, e, k - 1);
      var (first, second) := Shapes(s, k - 1);
      PointWork(ElementSpread(s, g, e, k - 1), Weight(s, k - 1), first, second, g(e, k - 1).0, g(e, k - 1).1, d, 2 * e);
    }
  }

  /** The work of a spread field is the weighted sum of what its pairs do. */
  lemma {:induction false} SpreadWork(s: Section, g: Field, d: seq<V3>, n: nat)
    requires s.le != 0.0 && 2 * n + 2 <= |d|
    ensures Work(Spread(s, g, n, |d|), d, |d|) == FieldPower(s, g, d, n)
    decreases n
  {
    hide ElementSpread, ElementPower, AddAt, FourWork;
    if n == 0 {
      ZeroWork(d, |d|, |d|);
    } else {
      SpreadWork(s, g, d, n - 1);
      ElementSpreadWork(s, g, d, n - 1, |s.quadrature|);
      AddAtWork(Spread(s, g, n - 1, |d|), 2 * (n - 1), ElementSpread(s, g, n - 1, |s.quadrature|), d, |d|);
    }
  }

  ghost predicate Alike(s: Section, g: Field, h: Field, n: nat) {
    forall e: nat, k: nat :: e < n && k < |s.quadrature| ==> g(e, k) == h(e, k)
  }

  lemma {:induction false} ElementSpreadAlike(s: Section, g: Field, h: Field, n: nat, e: nat, k: nat)
    requires s.le != 0.0 && k <= |s.quadrature| && Alike(s, g, h, n) && e < n
    ensures ElementSpread(s, g, e, k) == ElementSpread(s, h, e, k)
    decreases k
  {
    hide WithPoint, Shapes, Weight;
    if k > 0 {
      ElementSpreadAlike(s, g, h, n, e, k - 1);
    }
  }

  lemma {:induction false} SpreadAlike(s: Section, g: Field, h: Field, n: nat, m: nat)
    requires s.le != 0.0 && 2 * n + 2 <= m && Alike(s, g, h, n)
    ensures Spread(s, g, n, m) == Spread(s, h, n, m)
    decreases n
  {
    hide ElementSpread, AddAt;
    if n > 0 {
      SpreadAlike(s, g, h, n - 1, m);
      ElementSpreadAlike(s, g, h, n, n - 1, |s.quadrature|);
    }
  }

  // ----- the force on moving coordinates

  /** A point of the line at which the tangent does not vanish. */
  predicate OnLine(s: Section, q: seq<V3>, e: nat, k: nat) {
    s.le != 0.0 && k < |s.quadrature| && 2 * e + 4 <= |q|
    && Inner(Tangent.Tangents(s, q, e, k).0, Tangent.Tangents(s, q, e, k).0) != 0.0
  }

  lemma FormedOnLine(s: Section, q: seq<V3>, n: nat, e: nat, k: nat)
    requires s.le != 0.0 && 2 * n + 2 <= |q| && Tangent.Formed(s, q, n) && e < n && k < |s.quadrature|
    ensures OnLine(s, q, e, k)
  {
    assert Tangent.Regular(s, q, e, |s.quadrature|);
    RegularOnLine(s, q, e, |s.quadrature|, k);
  }

  lemma {:induction false} RegularOnLine(s: Section, q: seq<V3>, e: nat, m: nat, k: nat)
    requires s.le != 0.0 && 2 * e + 4 <= |q| && Tangent.Regular(s, q, e, m) && k < m
    ensures OnLine(s, q, e, k)
    decreases m
  {
    hide Inner, Tangent.Tangents, ElementForce;
    Tangent.RegularPoint(s, q, e, m);
    if k < m - 1 {
      RegularOnLine(s, q, e, m - 1, k);
    }
  }

  function MovingTangents(s: Section, q: seq<V3>, d: seq<V3>, e: nat, k: nat): (Moving, Moving)
    requires s.le != 0.0 && k < |s.quadrature| && 2 * e + 4 <= |q| == |d|
  {
    (CombineRate(Shapes(s, k).0, q, d, 2 * e), CombineRate(Shapes(s, k).1, q, d, 2 * e))
  }

  function CombineRate(s: seq<real>, q: seq<V3>, d: seq<V3>, at: nat): Moving
    requires |s| == 4 && at + 4 <= |q| == |d|
  {
    AddRate(AddRate(ScaleRate(Moving(q[at], d[at]), Fixed(s[0])), ScaleRate(Moving(q[at + 1], d[at + 1]), Fixed(s[1]))),
            AddRate(ScaleRate(Moving(q[at + 2], d[at + 2]), Fixed(s[2])),
                    ScaleRate(Moving(q[at + 3], d[at + 3]), Fixed(s[3]))))
  }

  /** A fixed factor scales the rate. */
  lemma FixedScale(u: Moving, c: real)
    ensures ScaleRate(u, Fixed(c)) == Moving(Scale(u.at, c), Scale(u.rate, c))
  {
    hide Scale;
    ScaleNone(u.at);
  }

  lemma CombineRateIs(s: seq<real>, q: seq<V3>, d: seq<V3>, at: nat)
    requires |s| == 4 && at + 4 <= |q| == |d|
    ensures CombineRate(s, q, d, at) == Moving(Combine(s, q, at), Combine(s, d, at))
  {
    hide Scale, ScaleRate;
    FixedScale(Moving(q[at], d[at]), s[0]);
    FixedScale(Moving(q[at + 1], d[at + 1]), s[1]);
    FixedScale(Moving(q[at + 2], d[at + 2]), s[2]);
    FixedScale(Moving(q[at + 3], d[at + 3]), s[3]);
  }

  function PointRate(w: real, first: real, second: real, ga: Moving, gb: Moving): Moving {
    ScaleRate(AddRate(ScaleRate(ga, Fixed(first)), ScaleRate(gb, Fixed(second))), Fixed(w))
  }

  lemma MovingTangentsAre(s: Section, q: seq<V3>, d: seq<V3>, e: nat, k: nat)
    requires s.le != 0.0 && k < |s.quadrature| && 2 * e + 4 <= |q| == |d|
    ensures var ((a, b), (x, y)) := (Tangent.Tangents(s, q, e, k), Tangent.Tangents(s, d, e, k));
      MovingTangents(s, q, d, e, k) == (Moving(a, x), Moving(b, y))
  {
    hide Combine, CombineRate, Shapes;
    CombineRateIs(Shapes(s, k).0, q, d, 2 * e);
    CombineRateIs(Shapes(s, k).1, q, d, 2 * e);
  }

  lemma PointRateIs(w: real, first: real, second: real, ga: Moving, gb: Moving)
    ensures PointRate(w, first, second, ga, gb)
      == Moving(PointForce(w, first, second, ga.at, gb.at), PointForce(w, first, second, ga.rate, gb.rate))
  {
    hide Scale, ScaleRate;
    FixedScale(ga, first);
    FixedScale(gb, second);
    FixedScale(AddRate(ScaleRate(ga, Fixed(first)), ScaleRate(gb, Fixed(second))), w);
  }

  function WithPointRate(f: seq<Moving>, w: real, first: seq<real>, second: seq<real>, ga: Moving, gb: Moving):
      (g: seq<Moving>)
    requires |f| == |first| == |second| == 4
    ensures |g| == 4
  {
    seq(4, i requires 0 <= i < 4 => AddRate(f[i], PointRate(w, first[i], second[i], ga, gb)))
  }

  const STILL := Moving(ZERO, ZERO)

  /** The force of element `e` over its first `k` points, on coordinates `q` that move at rates `d`. */
  ghost function MovingElement(s: Section, q: seq<V3>, d: seq<V3>, e: nat, k: nat): (f: seq<Moving>)
    requires s.le != 0.0 && 2 * e + 4 <= |q| == |d| && Tangent.Regular(s, q, e, k)
    ensures |f| == 4
    decreases k
  {
    if k == 0 then [STILL, STILL, STILL, STILL]
    else
      Tangent.RegularPoint(s, q, e, k);
      var (first, second) := Shapes(s, k - 1);
      var (a, b) := MovingTangents(s, q, d, e, k - 1);
      MovingTangentsAre(s, q, d, e, k - 1);
      WithPointRate(MovingElement(s, q, d, e, k - 1), Weight(s, k - 1), first, second,
                    MovingTangentGradient(a, b, s.ea, s.ei), MovingCurvatureGradient(a, b, s.ei))
  }

  function AddAtRate(f: seq<Moving>, at: nat, fe: seq<Moving>): (g: seq<Moving>)
    requires |fe| == 4 && at + 4 <= |f|
    ensures |g| == |f|
  {
    seq(|f|, i requires 0 <= i < |f| => if at <= i < at + 4 then AddRate(f[i], fe[i - at]) else f[i])
  }

  /** The assembled force of the first `n` elements on moving coordinates. */
  ghost function MovingForce(s: Section, q: seq<V3>, d: seq<V3>, n: nat): (f: seq<Moving>)
    requires s.le != 0.0 && 2 * n + 2 <= |q| == |d| && Tangent.Formed(s, q, n)
    ensures |f| == |q|
    decreases n
  {
    if n == 0 then seq(|q|, _ => STILL)
    else AddAtRate(MovingForce(s, q, d, n - 1), 2 * (n - 1), MovingElement(s, q, d, n - 1, |s.quadrature|))
  }

  // ----- what the moving force is

  /** The gradients at one point; zero by convention where there is none. */
  function GradientPair(s: Section, q: seq<V3>, e: nat, k: nat): (V3, V3) {
    if OnLine(s, q, e, k) then
      var (a, b) := Tangent.Tangents(s, q, e, k);
      (TangentGradient(a, b, s.ea, s.ei), CurvatureGradient(a, b, s.ei))
    else (ZERO, ZERO)
  }

  /** The rates of the gradients at one point while the line moves at rates `d`. */
  function RatePair(s: Section, q: seq<V3>, d: seq<V3>, e: nat, k: nat): (V3, V3) {
    if OnLine(s, q, e, k) && |d| == |q| then
      var ((a, b), (x, y)) := (Tangent.Tangents(s, q, e, k), Tangent.Tangents(s, d, e, k));
      (MovingTangentGradient(Moving(a, x), Moving(b, y), s.ea, s.ei).rate,
       MovingCurvatureGradient(Moving(a, x), Moving(b, y), s.ei).rate)
    else (ZERO, ZERO)
  }

  function Gradients(s: Section, q: seq<V3>): Field {
    (e: nat, k: nat) => GradientPair(s, q, e, k)
  }

  function Rates(s: Section, q: seq<V3>, d: seq<V3>): Field {
    (e: nat, k: nat) => RatePair(s, q, d, e, k)
  }

  /** A sequence of values and one of rates, moving together. */
  predicate Move(f: seq<Moving>, at: seq<V3>, rate: seq<V3>) {
    |f| == |at| == |rate| && forall i :: 0 <= i < |f| ==> f[i] == Moving(at[i], rate[i])
  }

  lemma WithPointMoves(f: seq<Moving>, u: seq<V3>, r: seq<V3>, w: real, first: seq<real>, second: seq<real>,
                       ga: Moving, gb: Moving)
    requires |f| == |first| == |second| == 4 && Move(f, u, r)
    ensures Move(WithPointRate(f, w, first, second, ga, gb), WithPoint(u, w, first, second, ga.at, gb.at),
                 WithPoint(r, w, first, second, ga.rate, gb.rate))
  {
    hide PointForce, PointRate, Add;
    forall i | 0 <= i < 4
      ensures AddRate(f[i], PointRate(w, first[i], second[i], ga, gb))
        == Moving(Add(u[i], PointForce(w, first[i], second[i], ga.at, gb.at)),
                  Add(r[i], PointForce(w, first[i], second[i], ga.rate, gb.rate)))
    {
      PointRateIs(w, first[i], second[i], ga, gb);
    }
  }

  lemma {:induction false} ElementMoves(s: Section, q: seq<V3>, d: seq<V3>, e: nat, k: nat)
    requires s.le != 0.0 && 2 * e + 4 <= |q| == |d| && Tangent.Regular(s, q, e, k)
    ensures k <= |s.quadrature|
    ensures Move(MovingElement(s, q, d, e, k), ElementForce(s, q, e, k).value, ElementSpread(s, Rates(s, q, d), e, k))
    decreases k
  {
    hide Combine, Shapes, WithPoint, WithPointRate, Weight, TangentGradient, CurvatureGradient, MovingTangentGradient,
         MovingCurvatureGradient, Inner, CombineRate, Move;
    if k > 0 {
      Tangent.RegularPoint(s, q, e, k);
      ElementMoves(s, q, d, e, k - 1);
      var (first, second) := Shapes(s, k - 1);
      var (a, b) := MovingTangents(s, q, d, e, k - 1);
      MovingTangentsAre(s, q, d, e, k - 1);
      WithPointMoves(MovingElement(s, q, d, e, k - 1), ElementForce(s, q, e, k - 1).value,
                     ElementSpread(s, Rates(s, q, d), e, k - 1), Weight(s, k - 1), first, second,
                     MovingTangentGradient(a, b, s.ea, s.ei), MovingCurvatureGradient(a, b, s.ei));
    } else {
      NothingMoves();
    }
  }

  lemma NothingMoves()
    ensures Move([STILL, STILL, STILL, STILL], [ZERO, ZERO, ZERO, ZERO], [ZERO, ZERO, ZERO, ZERO])
  {
  }

  lemma AddAtMoves(f: seq<Moving>, u: seq<V3>, r: seq<V3>, at: nat, fe: seq<Moving>, ue: seq<V3>, re: seq<V3>)
    requires Move(f, u, r) && Move(fe, ue, re) && |fe| == 4 && at + 4 <= |f|
    ensures Move(AddAtRate(f, at, fe), AddAt(u, at, ue), AddAt(r, at, re))
  {
    hide Add;
  }

  /** The moving force has the assembled force as its value, and its rate is spread from the rates of the gradients. */
  lemma {:induction false} ForceMoves(s: Section, q: seq<V3>, d: seq<V3>, n: nat)
    requires s.le != 0.0 && 2 * n + 2 <= |q| == |d| && Tangent.Formed(s, q, n)
    ensures Assembled(s, q, n).Some?
    ensures Move(MovingForce(s, q, d, n), Assembled(s, q, n).value, Spread(s, Rates(s, q, d), n, |q|))
    decreases n
  {
    hide ElementForce, ElementSpread, MovingElement, AddAt, AddAtRate, Rates;
    if n > 0 {
      assert Tangent.Regular(s, q, n - 1, |s.quadrature|);
      ForceMoves(s, q, d, n - 1);
      ElementMoves(s, q, d, n - 1, |s.quadrature|);
      AddAtMoves(MovingForce(s, q, d, n - 1), Assembled(s, q, n - 1).value, Spread(s, Rates(s, q, d), n - 1, |q|),
                 2 * (n - 1), MovingElement(s, q, d, n - 1, |s.quadrature|),
                 ElementForce(s, q, n - 1, |s.quadrature|).value,
                 ElementSpread(s, Rates(s, q, d), n - 1, |s.quadrature|));
    }
  }

  /** The rate of the assembled force while the line moves at rates `d`. */
  ghost function RateOfForce(s: Section, q: seq<V3>, d: seq<V3>, n: nat): (r: seq<V3>)
    requires s.le != 0.0 && 2 * n + 2 <= |q| == |d| && Tangent.Formed(s, q, n)
    ensures |r| == |q|
  {
    var f := MovingForce(s, q, d, n);
    seq(|f|, i requires 0 <= i < |f| => f[i].rate)
  }

  lemma RateSpreads(s: Section, q: seq<V3>, d: seq<V3>, n: nat)
    requires s.le != 0.0 && 2 * n + 2 <= |q| == |d| && Tangent.Formed(s, q, n)
    ensures RateOfForce(s, q, d, n) == Spread(s, Rates(s, q, d), n, |q|)
  {
    hide MovingForce, Assembled, Spread, Rates, Tangent.Formed;
    ForceMoves(s, q, d, n);
  }

  // ----- the stored energy

  /** The squared normal `a x b` over the sixth power of the length of `a`. */
  function Bend(a: V3, b: V3): real
    requires Inner(a, a) != 0.0
  {
    Inner(Cross(a, b), Cross(a, b)) * InversePower(Inner(a, a), 3)
  }

  function AxialEnergy(a2: real, ea: real): real {
    var eps := 0.5 * (a2 - 1.0);
    0.5 * ea * (eps * eps)
  }

  /** The energy density: half the stiffnesses times the squared axial strain and the squared curvature. */
  function Density(a: V3, b: V3, ea: real, ei: real): real
    requires Inner(a, a) != 0.0
  {
    AxialEnergy(Inner(a, a), ea) + 0.5 * ei * Bend(a, b)
  }

  function AxialDensity(a2: Rate, ea: real): (u: Rate)
    ensures u.at == AxialEnergy(a2.at, ea)
  {
    var eps := TimesRate(Fixed(0.5), SumRate(a2, Fixed(-1.0)));
    TimesRate(Fixed(0.5 * ea), TimesRate(eps, eps))
  }

  function BendingDensity(a2: Rate, v2: Rate, ei: real): (u: Rate)
    requires a2.at != 0.0
    ensures u.at == 0.5 * ei * (v2.at * InversePower(a2.at, 3))
  {
    TimesRate(Fixed(0.5 * ei), TimesRate(v2, InversePowerRate(a2, 3)))
  }

  /** The energy density on moving arguments. */
  function MovingDensity(a: Moving, b: Moving, ea: real, ei: real): Rate
    requires Inner(a.at, a.at) != 0.0
  {
    var a2, v := InnerRate(a, a), CrossRate(a, b);
    SumRate(AxialDensity(a2, ea), BendingDensity(a2, InnerRate(v, v), ei))
  }

  lemma MovingDensityIs(a: Moving, b: Moving, ea: real, ei: real)
    requires Inner(a.at, a.at) != 0.0
    ensures MovingDensity(a, b, ea, ei).at == Density(a.at, b.at, ea, ei)
  {
    hide Inner, Cross, InversePower, AxialEnergy, AxialDensity, BendingDensity;
  }

  lemma AxialDensityRate(a2: Rate, ea: real, ax: real)
    requires a2.rate == 2.0 * ax
    ensures AxialDensity(a2, ea).rate == AxialFactor(a2.at, ea) * ax
  {
    var eps := TimesRate(Fixed(0.5), SumRate(a2, Fixed(-1.0)));
    assert eps.rate == ax;
    AxialTerms(ea, eps.at, ax, TimesRate(eps, eps).rate, AxialFactor(a2.at, ea));
  }

  lemma AxialTerms(ea: real, eps: real, ax: real, rate: real, factor: real)
    requires rate == ax * eps + eps * ax && factor == ea * eps
    ensures (0.5 * ea) * rate == factor * ax
  {
  }

  lemma BendingDensityRate(a2: Rate, v2: Rate, ei: real, ax: real, turning: real)
    requires a2.at != 0.0 && a2.rate == 2.0 * ax && v2.rate == 2.0 * turning
    ensures BendingDensity(a2, v2, ei).rate
      == ei * (InversePower(a2.at, 3) * turning + StretchFactor(a2.at, v2.at) * ax)
  {
    hide InversePower, InversePowerRate, CubeFactor;
    CubeRateIs(a2, ax);
    BendingTerms(ei, InversePower(a2.at, 3), InversePower(a2.at, 4), v2.at, v2.rate, turning, ax,
                 InversePowerRate(a2, 3).rate);
  }

  lemma BendingTerms(ei: real, p3: real, p4: real, v2: real, dv2: real, turning: real, ax: real, dp3: real)
    requires dv2 == 2.0 * turning && dp3 == CubeFactor(p4, ax)
    ensures (0.5 * ei) * (dv2 * p3 + v2 * dp3) == ei * (p3 * turning + (-3.0 * v2 * p4) * ax)
  {
    assert dv2 * p3 == 2.0 * (p3 * turning);
    assert v2 * dp3 == 2.0 * ((-3.0 * v2 * p4) * ax);
  }

  /** The two gradients are the rate of the energy density. */
  lemma DensityRate(a: V3, b: V3, x: V3, y: V3, ea: real, ei: real)
    requires Inner(a, a) != 0.0
    ensures MovingDensity(Moving(a, x), Moving(b, y), ea, ei).at == Density(a, b, ea, ei)
    ensures MovingDensity(Moving(a, x), Moving(b, y), ea, ei).rate
      == Inner(TangentGradient(a, b, ea, ei), x) + Inner(CurvatureGradient(a, b, ei), y)
  {
    hide Inner, Cross, Add, Scale, InversePower, InversePowerRate, AxialFactor, StretchFactor, AxialDensity,
         BendingDensity, Turning, Density;
    MovingDensityIs(Moving(a, x), Moving(b, y), ea, ei);
    var a2, v := InnerRate(Moving(a, x), Moving(a, x)), CrossRate(Moving(a, x), Moving(b, y));
    SquareRate(a, x);
    NormalRate(a, b, x, y);
    AxialDensityRate(a2, ea, Inner(a, x));
    BendingDensityRate(a2, InnerRate(v, v), ei, Inner(a, x), Turning(a, b, x, y));
    GradientsOn(a, b, x, y, ea, ei);
  }

  /** The gradients along a pair of directions. */
  lemma GradientsOn(a: V3, b: V3, x: V3, y: V3, ea: real, ei: real)
    requires Inner(a, a) != 0.0
    ensures var a2, v := Inner(a, a), Cross(a, b);
      Inner(TangentGradient(a, b, ea, ei), x) + Inner(CurvatureGradient(a, b, ei), y)
      == AxialFactor(a2, ea) * Inner(a, x)
         + ei * (InversePower(a2, 3) * Turning(a, b, x, y) + StretchFactor(a2, Inner(v, v)) * Inner(a, x))
  {
    hide Inner, Cross, Add, Scale, InversePower, AxialFactor, StretchFactor;
    var a2, v := Inner(a, a), Cross(a, b);
    var n, p, g := Cross(b, v), InversePower(a2, 3), StretchFactor(a2, Inner(v, v));
    InnerAdd(Scale(a, AxialFactor(a2, ea)), Scale(Add(Scale(n, p), Scale(a, g)), ei), x);
    InnerScale(a, AxialFactor(a2, ea), x);
    InnerScale(Add(Scale(n, p), Scale(a, g)), ei, x);
    InnerAdd(Scale(n, p), Scale(a, g), x);
    InnerScale(n, p, x);
    InnerScale(a, g, x);
    PowerOfCurvature(Cross(a, v), y, p, ei);
    GradientTerms(ei, p, Inner(n, x), Inner(Cross(a, v), y), g * Inner(a, x), Turning(a, b, x, y));
  }

  lemma GradientTerms(ei: real, p: real, nx: real, wy: real, gx: real, turning: real)
    requires turning == nx - wy
    ensures ei * (p * nx + gx) + -(ei * (p * wy)) == ei * (p * turning + gx)
  {
    assert p * turning == p * nx - p * wy;
  }

  /** The energy stored in element `e` over its first `k` points. */
  ghost function ElementStored(s: Section, q: seq<V3>, e: nat, k: nat): real
    requires s.le != 0.0 && 2 * e + 4 <= |q| && Tangent.Regular(s, q, e, k)
    decreases k
  {
    if k == 0 then 0.0
    else
      Tangent.RegularPoint(s, q, e, k);
      var (a, b) := Tangent.Tangents(s, q, e, k - 1);
      ElementStored(s, q, e, k - 1) + Weight(s, k - 1) * Density(a, b, s.ea, s.ei)
  }

  /** The energy stored in the first `n` elements. */
  ghost function Stored(s: Section, q: seq<V3>, n: nat): real
    requires s.le != 0.0 && 2 * n + 2 <= |q| && Tangent.Formed(s, q, n)
    decreases n
  {
    if n == 0 then 0.0 else Stored(s, q, n - 1) + ElementStored(s, q, n - 1, |s.quadrature|)
  }

  /** The energy of element `e` over its first `k` points, on coordinates `q` that move at rates `d`. */
  ghost function ElementEnergy(s: Section, q: seq<V3>, d: seq<V3>, e: nat, k: nat): Rate
    requires s.le != 0.0 && 2 * e + 4 <= |q| == |d| && Tangent.Regular(s, q, e, k)
    decreases k
  {
    if k == 0 then Fixed(0.0)
    else
      Tangent.RegularPoint(s, q, e, k);
      MovingTangentsAre(s, q, d, e, k - 1);
      var (a, b) := MovingTangents(s, q, d, e, k - 1);
      SumRate(ElementEnergy(s, q, d, e, k - 1),
              TimesRate(Fixed(Weight(s, k - 1)), MovingDensity(a, b, s.ea, s.ei)))
  }

  /** The energy of the first `n` elements, value and rate. */
  ghost function Energy(s: Section, q: seq<V3>, d: seq<V3>, n: nat): Rate
    requires s.le != 0.0 && 2 * n + 2 <= |q| == |d| && Tangent.Formed(s, q, n)
    decreases n
  {
    if n == 0 then Fixed(0.0)
    else SumRate(Energy(s, q, d, n - 1), ElementEnergy(s, q, d, n - 1, |s.quadrature|))
  }

  lemma {:induction false} ElementEnergyRate(s: Section, q: seq<V3>, d: seq<V3>, e: nat, k: nat)
    requires s.le != 0.0 && 2 * e + 4 <= |q| == |d| && Tangent.Regular(s, q, e, k)
    ensures k <= |s.quadrature| && ElementEnergy(s, q, d, e, k).at == ElementStored(s, q, e, k)
    ensures ElementEnergy(s, q, d, e, k).rate == ElementPower(s, Gradients(s, q), d, e, k)
    decreases k
  {
    hide Inner, Tangent.Tangents, MovingTangents, MovingDensity, Density, TangentGradient, CurvatureGradient, Weight,
         ElementForce;
    if k > 0 {
      Tangent.RegularPoint(s, q, e, k);
      ElementEnergyRate(s, q, d, e, k - 1);
      MovingTangentsAre(s, q, d, e, k - 1);
      var ((a, b), (x, y)) := (Tangent.Tangents(s, q, e, k - 1), Tangent.Tangents(s, d, e, k - 1));
      DensityRate(a, b, x, y, s.ea, s.ei);
    }
  }

  lemma {:induction false} EnergyRate(s: Section, q: seq<V3>, d: seq<V3>, n: nat)
    requires s.le != 0.0 && 2 * n + 2 <= |q| == |d| && Tangent.Formed(s, q, n)
    ensures Energy(s, q, d, n).at == Stored(s, q, n)
    ensures Energy(s, q, d, n).rate == FieldPower(s, Gradients(s, q), d, n)
    decreases n
  {
    hide ElementEnergy, ElementPower, ElementStored, Tangent.Regular;
    if n > 0 {
      assert Tangent.Regular(s, q, n - 1, |s.quadrature|);
      EnergyRate(s, q, d, n - 1);
      ElementEnergyRate(s, q, d, n - 1, |s.quadrature|);
    }
  }

  lemma {:induction false} ElementForceSpreads(s: Section, q: seq<V3>, e: nat, k: nat)
    requires s.le != 0.0 && 2 * e + 4 <= |q| && Tangent.Regular(s, q, e, k)
    ensures k <= |s.quadrature| && ElementForce(s, q, e, k) == Some(ElementSpread(s, Gradients(s, q), e, k))
    decreases k
  {
    hide Combine, Shapes, Inner, WithPoint, Weight, TangentGradient, CurvatureGradient;
    if k > 0 {
      Tangent.RegularPoint(s, q, e, k);
      ElementForceSpreads(s, q, e, k - 1);
    }
  }

  lemma {:induction false} ForceSpreads(s: Section, q: seq<V3>, n: nat)
    requires s.le != 0.0 && 2 * n + 2 <= |q| && Tangent.Formed(s, q, n)
    ensures Assembled(s, q, n) == Some(Spread(s, Gradients(s, q), n, |q|))
    decreases n
  {
    hide ElementForce, ElementSpread, AddAt;
    if n > 0 {
      assert Tangent.Regular(s, q, n - 1, |s.quadrature|);
      ForceSpreads(s, q, n - 1);
      ElementForceSpreads(s, q, n - 1, |s.quadrature|);
    }
  }

  /** The assembled force is the rate of the stored energy: along every direction its work is the energy's rate. */
  lemma ForceIsEnergyRate(s: Section, q: seq<V3>, d: seq<V3>, n: nat)
    requires s.le != 0.0 && 2 * n + 2 <= |q| == |d| && Tangent.Formed(s, q, n)
    ensures Assembled(s, q, n).Some? && Energy(s, q, d, n).at == Stored(s, q, n)
    ensures Energy(s, q, d, n).rate == Work(Assembled(s, q, n).value, d, |q|)
  {
    hide Assembled, Energy, Stored, Spread, FieldPower, Work, Tangent.Formed, Gradients;
    EnergyRate(s, q, d, n);
    ForceSpreads(s, q, n);
    SpreadWork(s, Gradients(s, q), d, n);
  }
}
