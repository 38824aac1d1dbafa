/**
 What an accepted time step means: the principle of virtual work over every admissible direction, the Newmark
 formulas written out, and each Newton correction as the solution of the linearized balance.
 */
module StepBalance {
  import opened Wrappers
  import opened Vectors
  import opened Vec3
  import opened LinearSolve
  import opened ForceMapping
  import opened KernelMapping
  import opened InternalForce
  import opened Newmark
  import ForceRate
  import Tangent

  /** A direction that leaves the bottom node and the transverse coordinates of the top node where they are. */
  predicate Admissible(m: Model, d: seq<real>) {
    && |d| == 6 * m.elements + 6
    && d[0] == d[1] == d[2] == d[6 * m.elements] == d[6 * m.elements + 1] == 0.0
  }

  /** `d` against `a` times `x`, over the first `n` rows. */
  ghost function Virtual(a: seq<seq<real>>, x: seq<real>, d: seq<real>, n: nat): real
    requires n <= |a| && n <= |d| && forall i :: 0 <= i < n ==> |a[i]| == |x|
    decreases n
  {
    if n == 0 then 0.0 else Virtual(a, x, d, n - 1) + d[n - 1] * Dot(a[n - 1], x, 0, |x|)
  }

  /** The sum of the sizes of the first `n` entries. */
  ghost function Size(d: seq<real>, n: nat): real
    requires n <= |d|
  {
    if n == 0 then 0.0 else Size(d, n - 1) + if d[n - 1] < 0.0 then -d[n - 1] else d[n - 1]
  }

  ghost predicate Sized(m: Model, s: Start) {
    && |s.q| == |s.v| == |s.a| == |s.baseLoad| == m.Ndof() && Matrix(s.mass, m.Ndof())
    && Matrix(s.damping, m.Ndof())
  }

  // ----- from coordinates to virtual work

  /** What the imbalance `u` of one coordinate does on its displacement. */
  lemma EntryWork(d: real, u: real, inertia: real, viscous: real, internal: real, load: real, allowance: real)
    requires u == inertia + viscous + (internal - load)
    requires d == 0.0 || -allowance <= u <= allowance
    ensures d * inertia + d * viscous + internal * d - load * d == d * u
    ensures -(allowance * Abs(d)) <= d * u <= allowance * Abs(d)
  {
    if d > 0.0 {
      Ordered(-allowance, u, d);
      Ordered(u, allowance, d);
    } else if d < 0.0 {
      Ordered(-allowance, u, -d);
      Ordered(u, allowance, -d);
    }
  }

  lemma Ordered(a: real, b: real, f: real)
    requires a <= b && f >= 0.0
    ensures a * f <= b * f
  {
  }

  /** Inertia, damping and internal force less the load, against the first `k` entries of `d`. */
  ghost function BalanceSum(s: Start, x: Accepted, load: seq<real>, internal: seq<real>, d: seq<real>, k: nat): real
    requires |x.a| == |x.v| == |load| == |internal| == |d| && k <= |d|
    requires Matrix(s.mass, |d|) && Matrix(s.damping, |d|)
  {
    Virtual(s.mass, x.a, d, k) + Virtual(s.damping, x.v, d, k) + Dot(internal, d, 0, k) - Dot(load, d, 0, k)
  }

  lemma BalanceNext(s: Start, x: Accepted, load: seq<real>, internal: seq<real>, d: seq<real>, k: nat)
    requires |x.a| == |x.v| == |load| == |internal| == |d| && k < |d|
    requires Matrix(s.mass, |d|) && Matrix(s.damping, |d|)
    ensures BalanceSum(s, x, load, internal, d, k + 1) == BalanceSum(s, x, load, internal, d, k)
      + (d[k] * Dot(s.mass[k], x.a, 0, |x.a|) + d[k] * Dot(s.damping[k], x.v, 0, |x.v|)
         + internal[k] * d[k] - load[k] * d[k])
  {
    VirtualNext(s.mass, x.a, d, k);
    VirtualNext(s.damping, x.v, d, k);
    DotNext(internal, d, k);
    DotNext(load, d, k);
    hide Virtual, Dot;
  }

  ghost function Times(allowance: real, size: real): real {
    allowance * size
  }

  lemma SizeNext(allowance: real, d: seq<real>, k: nat)
    requires k < |d|
    ensures Times(allowance, Size(d, k + 1)) == Times(allowance, Size(d, k)) + Times(allowance, Abs(d[k]))
  {
    Distributed(allowance, Size(d, k), Abs(d[k]), Size(d, k + 1));
  }

  lemma Distributed(f: real, a: real, b: real, sum: real)
    requires sum == a + b
    ensures f * sum == f * a + f * b
  {
  }

  ghost predicate Between(sum: real, bound: real) {
    -bound <= sum <= bound
  }

  /** What coordinate `k` adds stays within the allowance times the size of its displacement. */
  lemma EntryWithin(s: Start, x: Accepted, load: seq<real>, internal: seq<real>, d: seq<real>, k: nat, allowance: real)
    requires |x.a| == |x.v| == |load| == |internal| == |d| && k < |d|
    requires Matrix(s.mass, |d|) && Matrix(s.damping, |d|)
    requires d[k] == 0.0
      || Abs(Unbalance(s.mass[k], s.damping[k], x.a, x.v, internal[k], load[k])) <= allowance
    ensures Between(BalanceSum(s, x, load, internal, d, k + 1) - BalanceSum(s, x, load, internal, d, k),
                    Times(allowance, Abs(d[k])))
  {
    hide Dot, BalanceSum;
    BalanceNext(s, x, load, internal, d, k);
    var u := Unbalance(s.mass[k], s.damping[k], x.a, x.v, internal[k], load[k]);
    EntryWork(d[k], u, Dot(s.mass[k], x.a, 0, |x.a|), Dot(s.damping[k], x.v, 0, |x.v|), internal[k], load[k],
              allowance);
  }

  lemma {:induction false} AllWithin(
    s: Start, x: Accepted, load: seq<real>, internal: seq<real>, d: seq<real>, k: nat, allowance: real)
    requires |x.a| == |x.v| == |load| == |internal| == |d| && k <= |d|
    requires Matrix(s.mass, |d|) && Matrix(s.damping, |d|)
    requires forall i: nat :: i < |d| ==>
      d[i] == 0.0 || Abs(Unbalance(s.mass[i], s.damping[i], x.a, x.v, internal[i], load[i])) <= allowance
    ensures Between(BalanceSum(s, x, load, internal, d, k), Times(allowance, Size(d, k)))
    decreases k
  {
    hide Unbalance, Abs;
    if k > 0 {
      hide BalanceSum, Times;
      AllWithin(s, x, load, internal, d, k - 1, allowance);
      EntryWithin(s, x, load, internal, d, k - 1, allowance);
      SizeNext(allowance, d, k - 1);
    }
  }

  lemma VirtualNext(a: seq<seq<real>>, x: seq<real>, d: seq<real>, k: nat)
    requires k < |a| && k < |d| && forall i :: 0 <= i <= k ==> |a[i]| == |x|
    ensures Virtual(a, x, d, k + 1) == Virtual(a, x, d, k) + d[k] * Dot(a[k], x, 0, |x|)
  {
  }

  lemma DotNext(u: seq<real>, d: seq<real>, k: nat)
    requires k < |u| && k < |d|
    ensures Dot(u, d, 0, k + 1) == Dot(u, d, 0, k) + u[k] * d[k]
  {
  }

  /** The work of blocks is the inner product of the flat vectors. */
  lemma {:induction false} BlockWorkIsDot(f: seq<real>, d: seq<real>, n: nat)
    requires |f| == |d| && |f| % 3 == 0 && 3 * n <= |f|
    ensures InternalForce.Work(Blocks(f), Blocks(d), n) == Dot(f, d, 0, 3 * n)
    decreases n
  {
    if n > 0 {
      BlockWorkIsDot(f, d, n - 1);
      var e := 3 * (n - 1);
      DotNext(f, d, e);
      DotNext(f, d, e + 1);
      DotNext(f, d, e + 2);
      assert Blocks(f)[n - 1] == V3(f[e], f[e + 1], f[e + 2]) && Blocks(d)[n - 1] == V3(d[e], d[e + 1], d[e + 2]);
      hide Dot, Blocks;
    }
  }

  /** The total load does the work of the base load and of the slices. */
  lemma LoadWork(m: Model, baseLoad: seq<real>, force: seq<real>, rows: seq<seq<real>>, load: seq<real>, d: seq<real>)
    requires m.Valid() && m.SlicesInside() && |force| == 3 * m.slices && |baseLoad| == m.Ndof() == |d|
    requires IsLoad(m, baseLoad, force, rows, load)
    ensures |rows| == |force| && StackedRows(m, rows) && WellShaped(Regrouped(rows, force, m.slices), |d|)
    ensures |load| == |d|
    ensures Dot(load, d, 0, |d|)
      == Dot(baseLoad, d, 0, |d|) + SliceWork(Regrouped(rows, force, m.slices), d, m.slices)
  {
    hide Generalized, Dot, WellShaped, SliceRow, SliceWork;
    var s := Regrouped(rows, force, m.slices);
    VirtualWork(s, d, m.slices);
    DotSum(baseLoad, Generalized(s, |d|, m.slices), load, d, 0, |d|);
  }

  /** The internal force does the rate of the stored energy. */
  lemma ElasticWork(m: Model, q: seq<real>, internal: seq<real>, d: seq<real>)
    requires Steppable(m) && |q| == |internal| == |d| == m.Ndof()
    requires Assembled(SectionOf(m), Blocks(q), m.elements) == Some(Blocks(internal))
    ensures m.length / m.elements as real > 0.0
    ensures var line := Section(m.length / m.elements as real, m.ea, m.ei, m.quadrature);
      && Tangent.Formed(line, Blocks(q), m.elements)
      && Dot(internal, d, 0, |d|) == ForceRate.Energy(line, Blocks(q), Blocks(d), m.elements).rate
  {
    m.IsUniform();
    var line := SectionOf(m);
    SizesAre(m, |d|);
    hide Assembled, Blocks, Dot, InternalForce.Work, ForceRate.Energy, Tangent.Formed;
    Tangent.FormedWithForce(line, Blocks(q), m.elements);
    ForceRate.ForceIsEnergyRate(line, Blocks(q), Blocks(d), m.elements);
    BlockWorkIsDot(internal, d, |d| / 3);
  }

  lemma SizesAre(m: Model, n: nat)
    requires n == m.Ndof()
    ensures n % 3 == 0 && n / 3 == 2 * m.elements + 2 && 3 * (n / 3) == n
  {
  }

  lemma FreeOrStill(m: Model, d: seq<real>, i: nat)
    requires Admissible(m, d) && i < |d| && Fixed(m, i)
    ensures d[i] == 0.0
  {
  }

  lemma StillOrBalanced(m: Model, s: Start, x: Accepted, load: seq<real>, internal: seq<real>, d: seq<real>)
    requires Steppable(m) && Admissible(m, d) && |d| == m.Ndof()
    requires Balanced(m, s.mass, s.damping, load, x.q, x.v, x.a, internal)
    ensures |load| == |internal| == |x.a| == |x.v| == |d| && Matrix(s.mass, |d|) && Matrix(s.damping, |d|)
    ensures forall i: nat :: i < |d| ==>
      d[i] == 0.0 || Abs(Unbalance(s.mass[i], s.damping[i], x.a, x.v, internal[i], load[i])) <= Allowance(m, load)
  {
    hide Assembled, Blocks, Unbalance, Fixed, Admissible, Allowance, Abs, SectionOf;
    forall i: nat | i < |d| && Fixed(m, i)
      ensures d[i] == 0.0
    {
      FreeOrStill(m, d, i);
    }
  }

  /** The virtual work of inertia, damping and elastic energy along `d`, less that of base load and slice forces. */
  ghost function Excess(m: Model, s: Start, x: Accepted, slices: seq<Slice>, d: seq<real>): real
    requires m.Valid() && |s.baseLoad| == |x.q| == |x.v| == |x.a| == |d| == m.Ndof()
    requires Matrix(s.mass, |d|) && Matrix(s.damping, |d|) && WellShaped(slices, |d|)
    requires m.length / m.elements as real > 0.0
    requires Tangent.Formed(Section(m.length / m.elements as real, m.ea, m.ei, m.quadrature), Blocks(x.q), m.elements)
  {
    var line := Section(m.length / m.elements as real, m.ea, m.ei, m.quadrature);
    Virtual(s.mass, x.a, d, |d|) + Virtual(s.damping, x.v, d, |d|)
    + ForceRate.Energy(line, Blocks(x.q), Blocks(d), m.elements).rate
    - Dot(s.baseLoad, d, 0, |d|) - SliceWork(slices, d, |slices|)
  }

  /** The tolerance, times the load scale, per unit of displacement. */
  ghost function Slack(m: Model, load: seq<real>, d: seq<real>): real {
    m.tolerance * LoadScale(load, |load|) * Size(d, |d|)
  }

  /** The stacked rows and the tangents of the line are those of the step, and along `d` the virtual work balances to
      the allowed residual per unit of displacement. */
  ghost predicate WorkBalances(m: Model, s: Start, force: seq<real>, x: Accepted, load: seq<real>, rows: seq<seq<real>>,
                               d: seq<real>)
    requires m.Valid() && m.SlicesInside() && Sized(m, s)
  {
    && |rows| == |force| == 3 * m.slices && StackedRows(m, rows)
    && |x.q| == |x.v| == |x.a| == |d| == m.Ndof() && WellShaped(Regrouped(rows, force, m.slices), |d|)
    && m.length / m.elements as real > 0.0
    && Tangent.Formed(Section(m.length / m.elements as real, m.ea, m.ei, m.quadrature), Blocks(x.q), m.elements)
    && -Slack(m, load, d) <= Excess(m, s, x, Regrouped(rows, force, m.slices), d) <= Slack(m, load, d)
  }

  /**
   The principle of virtual work for an accepted step: along every direction that leaves the held coordinates alone,
   the inertia, the damping and the rate of the stored energy make up the work of the base load and of the slice
   forces, to the allowed residual per unit of displacement.
   */
  lemma VirtualWorkOfStep(m: Model, s: Start, force: seq<real>, x: Accepted, load: seq<real>, rows: seq<seq<real>>,
                          internal: seq<real>, d: seq<real>)
    requires m.length > 0.0 && m.elements >= 2 && m.slices >= 1 && m.beta != 0.0 && m.dt != 0.0
    requires Sized(m, s) && Lands(m, s, force, x, load, rows, internal) && Admissible(m, d)
    ensures m.SlicesInside() && WorkBalances(m, s, force, x, load, rows, d)
  {
    hide IsLoad, Assembled, Blocks, Dot, Unbalance, Fixed, Admissible, NewmarkAll, ForceRate.Energy, Tangent.Formed,
         Virtual, SliceWork, WellShaped, Allowance, Abs, SectionOf, Matrix, Size, LoadScale, Times;
    FullSize(m, d);
    LoadWork(m, s.baseLoad, force, rows, load, d);
    ElasticWork(m, x.q, internal, d);
    StillOrBalanced(m, s, x, load, internal, d);
    AllWithin(s, x, load, internal, d, |d|, Allowance(m, load));
    SlackIs(m, load, d);
  }

  lemma SlackIs(m: Model, load: seq<real>, d: seq<real>)
    ensures Times(Allowance(m, load), Size(d, |d|)) == Slack(m, load, d)
  {
    hide Size, LoadScale;
  }

  lemma FullSize(m: Model, d: seq<real>)
    requires Admissible(m, d)
    ensures |d| == m.Ndof()
  {
  }

  // ----- the Newmark formulas

  /** An accepted step in the Newmark formulas, coordinate by coordinate, and what it leaves alone. */
  lemma StepInFormulas(m: Model, s: Start, force: seq<real>, x: Accepted, load: seq<real>, rows: seq<seq<real>>,
                       internal: seq<real>, i: nat)
    requires m.length > 0.0 && m.elements >= 2 && m.slices >= 1 && m.beta != 0.0 && m.dt != 0.0
    requires Sized(m, s) && Lands(m, s, force, x, load, rows, internal) && i < 6 * m.elements + 6
    ensures |x.q| == |x.v| == |x.a| == 6 * m.elements + 6 == |s.q|
    ensures x.q[i] == s.q[i] + m.dt * s.v[i] + m.dt * m.dt * ((0.5 - m.beta) * s.a[i] + m.beta * x.a[i])
    ensures x.v[i] == s.v[i] + m.dt * ((1.0 - m.gamma) * s.a[i] + m.gamma * x.a[i])
    ensures Held(m, i) ==> x.q[i] == s.q[i]
    ensures 1 <= x.iterations <= m.maxNewton && x.norm <= m.tolerance * LoadScale(load, |load|)
  {
    hide IsLoad, Balanced, LoadScale, Model.SlicesInside, NewmarkAt;
    assert NewmarkAt(m, s.q[i], s.v[i], s.a[i], x.q[i], x.v[i], x.a[i]);
    AtInFormulas(m, s.q[i], s.v[i], s.a[i], x.q[i], x.v[i], x.a[i]);
  }

  lemma AtInFormulas(m: Model, q0: real, v0: real, a0: real, q1: real, v1: real, a1: real)
    requires NewmarkAt(m, q0, v0, a0, q1, v1, a1)
    ensures q1 == q0 + m.dt * v0 + m.dt * m.dt * ((0.5 - m.beta) * a0 + m.beta * a1)
    ensures v1 == v0 + m.dt * ((1.0 - m.gamma) * a0 + m.gamma * a1)
  {
  }

  // ----- the Newton correction

  /** Changes of position, acceleration and velocity that go together under the Newmark relations. */
  ghost predicate Together(m: Model, dq: seq<real>, da: seq<real>, dv: seq<real>) {
    && |dq| == |da| == |dv|
    && forall j :: 0 <= j < |dq| ==> dq[j] == m.beta * m.dt * m.dt * da[j] && dv[j] == m.gamma * m.dt * da[j]
  }

  /** The effective stiffness answers a change of position with stiffness, inertia and damping of what goes with it. */
  lemma EffectiveAnswers(m: Model, k: real, mass: real, damping: real, dq: real, da: real, dv: real)
    requires m.beta != 0.0 && m.dt != 0.0 && dq == m.beta * m.dt * m.dt * da && dv == m.gamma * m.dt * da
    ensures Effective(m, k, mass, damping) * dq == k * dq + mass * da + damping * dv
  {
    ProductNonzero(m.beta, m.dt);
    ProductNonzero(m.beta * m.dt, m.dt);
    var b := m.beta * m.dt;
    var c := b * m.dt;
    Divided(mass, c);
    Divided(damping * m.gamma, b);
    var u, w := mass / c, damping * m.gamma / b;
    AnswerTerms(k, mass, damping, m.gamma, m.dt, b, c, u, w, dq, da, dv);
  }

  lemma AnswerTerms(k: real, mass: real, damping: real, gamma: real, dt: real, b: real, c: real, u: real, w: real,
                    dq: real, da: real, dv: real)
    requires c == b * dt && c * u == mass && b * w == damping * gamma && dq == c * da && dv == gamma * dt * da
    ensures (k + u + w) * dq == k * dq + mass * da + damping * dv
  {
    assert u * dq == mass * da by {
      assert u * (c * da) == (c * u) * da;
    }
    assert w * dq == damping * dv by {
      assert w * (c * da) == (b * w) * (dt * da);
      assert (damping * gamma) * (dt * da) == damping * (gamma * dt * da);
    }
  }

  ghost function EffectiveRow(m: Model, k: seq<real>, mass: seq<real>, damping: seq<real>): (row: seq<real>)
    requires m.beta != 0.0 && m.dt != 0.0 && |k| == |mass| == |damping|
    ensures |row| == |k| && forall j :: 0 <= j < |k| ==> row[j] == Effective(m, k[j], mass[j], damping[j])
  {
    seq(|k|, j requires 0 <= j < |k| => Effective(m, k[j], mass[j], damping[j]))
  }

  lemma {:induction false} RowAnswers(m: Model, k: seq<real>, mass: seq<real>, damping: seq<real>, dq: seq<real>,
                                      da: seq<real>, dv: seq<real>, n: nat)
    requires m.beta != 0.0 && m.dt != 0.0 && n <= |k| == |mass| == |damping| == |dq| && Together(m, dq, da, dv)
    ensures Dot(EffectiveRow(m, k, mass, damping), dq, 0, n)
      == Dot(k, dq, 0, n) + Dot(mass, da, 0, n) + Dot(damping, dv, 0, n)
    decreases n
  {
    hide Effective;
    if n > 0 {
      RowAnswers(m, k, mass, damping, dq, da, dv, n - 1);
      EffectiveAnswers(m, k[n - 1], mass[n - 1], damping[n - 1], dq[n - 1], da[n - 1], dv[n - 1]);
    }
  }

  /** The inner product over the first `k` indices of a list. */
  ghost function DotOver(u: seq<real>, d: seq<real>, free: seq<nat>, k: nat): real
    requires |u| == |d| && k <= |free| && forall i :: 0 <= i < |free| ==> free[i] < |u|
    decreases k
  {
    if k == 0 then 0.0 else DotOver(u, d, free, k - 1) + u[free[k - 1]] * d[free[k - 1]]
  }

  /** Exactly the first `k` indices of an increasing list lie below `n`. */
  predicate SplitsAt(free: seq<nat>, k: nat, n: nat) {
    && k <= |free| && (forall i, j :: 0 <= i < j < |free| ==> free[i] < free[j])
    && (forall i :: 0 <= i < k ==> free[i] < n) && (forall i :: k <= i < |free| ==> free[i] >= n)
  }

  /** Below one index less there lies one index less, or none of the list is left out. */
  lemma SplitsBelow(free: seq<nat>, k: nat, n: nat)
    requires n > 0 && SplitsAt(free, k, n)
    ensures n - 1 in free ==> k > 0 && free[k - 1] == n - 1 && SplitsAt(free, k - 1, n - 1)
    ensures n - 1 !in free ==> SplitsAt(free, k, n - 1)
  {
  }

  /** Where `d` vanishes off the list, the indices of the list are all that count. */
  lemma {:induction false} DotOverIsDot(u: seq<real>, d: seq<real>, free: seq<nat>, k: nat, n: nat)
    requires |u| == |d| && n <= |u| && SplitsAt(free, k, n) && forall i :: 0 <= i < |free| ==> free[i] < |u|
    requires forall j: nat :: j < |d| && j !in free ==> d[j] == 0.0
    ensures DotOver(u, d, free, k) == Dot(u, d, 0, n)
    decreases n
  {
    hide SplitsAt;
    if n > 0 {
      SplitsBelow(free, k, n);
      DotOverIsDot(u, d, free, if n - 1 in free then k - 1 else k, n - 1);
    } else {
      NoMoreThan(free, k, 0);
    }
  }

  lemma {:induction false} NoMoreThan(free: seq<nat>, k: nat, n: nat)
    requires SplitsAt(free, k, n)
    ensures k <= n
    decreases k
  {
    if k > 0 {
      NoMoreThan(free, k - 1, free[k - 1]);
    }
  }

  /** The change of position from one trial to the next. */
  ghost function Change(q: seq<real>, p: seq<real>): (d: seq<real>)
    requires |q| == |p|
    ensures |d| == |q| && forall j :: 0 <= j < |q| ==> d[j] == p[j] - q[j]
  {
    seq(|q|, j requires 0 <= j < |q| => p[j] - q[j])
  }

  /** Row `i` of the linearized balance at the next trial. */
  ghost function Linearized(k: seq<seq<real>>, mass: seq<seq<real>>, damping: seq<seq<real>>, r: seq<real>,
                            dq: seq<real>, da: seq<real>, dv: seq<real>, i: nat): real
    requires i < |k| == |mass| == |damping| == |r| && |k[i]| == |mass[i]| == |damping[i]| == |dq| == |da| == |dv|
  {
    r[i] + (Dot(k[i], dq, 0, |dq|) + Dot(mass[i], da, 0, |dq|) + Dot(damping[i], dv, 0, |dq|))
  }

  /** A row of the reduced system against the correction, which is the change of position reversed. */
  lemma {:induction false} ReducedRow(
    row: seq<real>, dq: seq<real>, free: seq<nat>, a: seq<real>, x: seq<real>, k: nat)
    requires |row| == |dq| && k <= |free| == |a| == |x| && forall j :: 0 <= j < |free| ==> free[j] < |row|
    requires forall j :: 0 <= j < |free| ==> a[j] == row[free[j]] && x[j] == -dq[free[j]]
    ensures Dot(a, x, 0, k) == -DotOver(row, dq, free, k)
    decreases k
  {
    if k > 0 {
      ReducedRow(row, dq, free, a, x, k - 1);
      Opposite(row[free[k - 1]], dq[free[k - 1]], x[k - 1]);
    }
  }

  lemma Opposite(a: real, d: real, x: real)
    requires x == -d
    ensures a * x == -(a * d)
  {
  }

  /** The reduced system, row by row, on the whole vector. */
  lemma FreeRowSolved(m: Model, k: seq<seq<real>>, mass: seq<seq<real>>, damping: seq<seq<real>>, r: seq<real>,
                      q: seq<real>, p: seq<real>, free: seq<nat>, s: System, da: seq<real>, dv: seq<real>, i: nat)
    requires Steppable(m) && |r| == |q| == |p| == m.Ndof()
    requires Matrix(k, |r|) && Matrix(mass, |r|) && Matrix(damping, |r|)
    requires IsFreeSystem(m, k, mass, damping, r, free, s) && NewtonCorrection(q, p, free, s)
    requires (forall j: nat :: j < |p| && Fixed(m, j) ==> p[j] == q[j]) && Together(m, Change(q, p), da, dv)
    requires i < |r| && !Fixed(m, i)
    ensures Linearized(k, mass, damping, r, Change(q, p), da, dv, i) == 0.0
  {
    hide Effective, Fixed, Dot, Together, UniqueSolution, SplitsAt;
    var e :| 0 <= e < |free| && free[e] == i;
    var dq, row := Change(q, p), EffectiveRow(m, k[i], mass[i], damping[i]);
    AllBelow(m, free, |r|);
    DotOverIsDot(row, dq, free, |free|, |r|);
    RowAnswers(m, k[i], mass[i], damping[i], dq, da, dv, |r|);
    var x := seq(|free|, j requires 0 <= j < |free| && free[j] < |q| => q[free[j]] - p[free[j]]);
    SystemRow(s, x, e);
    ReducedRow(row, dq, free, s.a[e], x, |free|);
  }

  lemma AllBelow(m: Model, free: seq<nat>, n: nat)
    requires AllFree(m, free, n)
    ensures SplitsAt(free, |free|, n)
  {
    hide Fixed;
  }

  lemma SystemRow(s: System, x: seq<real>, e: nat)
    requires UniqueSolution(s, x) && e < |x|
    ensures |s.a| == |s.b| == |x| == |s.a[e]| && Dot(s.a[e], x, 0, |x|) == s.b[e]
  {
  }

  /**
   Every correction of the Newton loop solves the linearized balance: the residual at the pass, plus the assembled
   tangent, the mass and the damping on the changes of position, acceleration and velocity that go together, vanishes
   at every free coordinate, and the held coordinates do not move.
   */
  lemma CorrectionSolvesLinearized(
    p: Problem, x: Pass, k: seq<seq<real>>, next: seq<real>, da: seq<real>, dv: seq<real>, i: nat)
    requires p.Valid() && |x.q| == |x.r| == |next| == p.m.Ndof() && p.Leads(x, next)
    requires IsTangent(p.m, x.q, k) && Matrix(k, p.m.Ndof())
    requires Together(p.m, Change(x.q, next), da, dv) && i < 6 * p.m.elements + 6
    ensures Held(p.m, i) ==> next[i] == x.q[i]
    ensures !Held(p.m, i) ==> Linearized(k, p.mass, p.damping, x.r, Change(x.q, next), da, dv, i) == 0.0
  {
    hide IsFreeSystem, NewtonCorrection, Eliminated, Allowance, Tangent.EvenMatrix, Tangent.Formed, Linearized,
         Together, Matrix;
    var free, s :| p.Reduces(x, free, s) && NewtonCorrection(x.q, next, free, s);
    ReducedSystem(p, x, k, free, s);
    if !Held(p.m, i) {
      FreeRowSolved(p.m, k, p.mass, p.damping, x.r, x.q, next, free, s, da, dv, i);
    }
  }

  lemma ReducedSystem(p: Problem, x: Pass, k: seq<seq<real>>, free: seq<nat>, s: System)
    requires p.Valid() && |x.q| == |x.r| == p.m.Ndof() && p.Reduces(x, free, s) && IsTangent(p.m, x.q, k)
    requires Matrix(k, p.m.Ndof())
    ensures IsFreeSystem(p.m, k, p.mass, p.damping, x.r, free, s)
  {
    hide IsFreeSystem, Allowance, Tangent.EvenMatrix, Tangent.Formed;
  }

  /** The bottom node and the transverse coordinates of the top node. */
  predicate Held(m: Model, i: nat) {
    i in {0, 1, 2, 6 * m.elements, 6 * m.elements + 1}
  }
}
