/**
 The kernel's time step: Newmark rates, a Newton loop on the free coordinates, and a state that
 changes only when the loop has converged.
 */
module Newmark {
  import opened Wrappers
  import opened Vectors
  import opened Vec3
  import opened LinearSolve
  import opened ForceMapping
  import opened KernelMapping
  import opened InternalForce
  import Tangent

  class State {
    var q: seq<real>
    var qdot: seq<real>
    var qddot: seq<real>
    var baseLoad: seq<real>
    var mass: seq<seq<real>>
    var damping: seq<seq<real>>
    var time: real
    var step: nat
    var residual: real
    var iterations: nat

    /** Everything but the length of `q`, which the step checks itself. */
    ghost predicate Regular(n: nat)
      reads this
    {
      |qdot| == |qddot| == |baseLoad| == n && Matrix(mass, n) && Matrix(damping, n)
    }
  }

  datatype Diagnostics = Diagnostics(initialResidual: real, residual: real, iterations: nat, converged: bool)

  ghost predicate Matrix(a: seq<seq<real>>, n: nat) {
    |a| == n && forall i :: 0 <= i < n ==> |a[i]| == n
  }

  /** The step divides by `beta` and by the time step. */
  predicate Steppable(m: Model) {
    m.Valid() && m.beta != 0.0 && m.dt != 0.0
  }

  function SectionOf(m: Model): Section
    requires m.Valid()
  {
    Section(m.ElementLength(), m.ea, m.ei, m.quadrature)
  }

  /** The bottom node and the two transverse coordinates of the top node are held. */
  predicate Fixed(m: Model, i: nat) {
    i < 3 || i == 6 * m.elements || i == 6 * m.elements + 1
  }

  // ----- the Newmark relations

  function Predicted(m: Model, q: real, v: real, a: real): real {
    q + (m.dt * v + m.dt * m.dt * (0.5 - m.beta) * a)
  }

  function PredictedRate(m: Model, v: real, a: real): real {
    v + m.dt * (1.0 - m.gamma) * a
  }

  function Acceleration(m: Model, q: real, predicted: real): real
    requires m.beta != 0.0 && m.dt != 0.0
  {
    (q - predicted) / (m.beta * m.dt * m.dt)
  }

  function Rate(m: Model, predictedRate: real, a: real): real {
    predictedRate + m.gamma * m.dt * a
  }

  /** Displacement and velocity at the end of the step against old values and the new acceleration. */
  ghost predicate NewmarkAt(m: Model, q0: real, v0: real, a0: real, q1: real, v1: real, a1: real) {
    && q1 == q0 + m.dt * v0 + m.dt * m.dt * ((0.5 - m.beta) * a0 + m.beta * a1)
    && v1 == v0 + m.dt * ((1.0 - m.gamma) * a0 + m.gamma * a1)
  }

  lemma RatesAreNewmark(m: Model, q0: real, v0: real, a0: real, q1: real)
    requires m.beta != 0.0 && m.dt != 0.0
    ensures var a1 := Acceleration(m, q1, Predicted(m, q0, v0, a0));
      NewmarkAt(m, q0, v0, a0, q1, Rate(m, PredictedRate(m, v0, a0), a1), a1)
  {
    AccelerationInverts(m, q1, Predicted(m, q0, v0, a0));
    hide Acceleration;
    NewmarkExpands(m.dt, m.beta, m.gamma, a0, Acceleration(m, q1, Predicted(m, q0, v0, a0)));
  }

  lemma AccelerationInverts(m: Model, q: real, predicted: real)
    requires m.beta != 0.0 && m.dt != 0.0
    ensures m.beta * m.dt * m.dt * Acceleration(m, q, predicted) == q - predicted
  {
    ProductNonzero(m.beta, m.dt);
    ProductNonzero(m.beta * m.dt, m.dt);
    Divided(q - predicted, m.beta * m.dt * m.dt);
  }

  lemma ProductNonzero(a: real, b: real)
    requires a != 0.0 && b != 0.0
    ensures a * b != 0.0
  {
  }

  lemma NewmarkExpands(dt: real, beta: real, gamma: real, a0: real, a1: real)
    ensures dt * dt * ((0.5 - beta) * a0 + beta * a1) == dt * dt * (0.5 - beta) * a0 + beta * dt * dt * a1
    ensures dt * ((1.0 - gamma) * a0 + gamma * a1) == dt * (1.0 - gamma) * a0 + gamma * dt * a1
  {
  }

  ghost predicate NewmarkAll(m: Model, q0: seq<real>, v0: seq<real>, a0: seq<real>, q1: seq<real>, v1: seq<real>,
      a1: seq<real>) {
    && |q0| == |v0| == |a0| == |q1| == |v1| == |a1|
    && forall i :: 0 <= i < |q0| ==> NewmarkAt(m, q0[i], v0[i], a0[i], q1[i], v1[i], a1[i])
  }

  // ----- the residual

  /** Entry `i` of inertia, damping and internal force less the load. */
  function Unbalance(mass: seq<real>, damping: seq<real>, a: seq<real>, v: seq<real>, internal: real, load: real): real
    requires |mass| == |damping| == |a| == |v|
  {
    Dot(mass, a, 0, |a|) + Dot(damping, v, 0, |v|) + (internal - load)
  }

  /** The load scale: one, or the largest load entry if that is greater. */
  function LoadScale(load: seq<real>, n: nat): (s: real)
    requires n <= |load|
  {
    if n == 0 then 1.0 else Max(LoadScale(load, n - 1), Abs(load[n - 1]))
  }

  lemma {:induction false} LoadScaleIsLargest(load: seq<real>, n: nat)
    requires n <= |load|
    ensures LoadScale(load, n) >= 1.0 && forall i :: 0 <= i < n ==> LoadScale(load, n) >= Abs(load[i])
    ensures LoadScale(load, n) == 1.0 || exists i :: 0 <= i < n && LoadScale(load, n) == Abs(load[i])
  {
    if n > 0 {
      LoadScaleIsLargest(load, n - 1);
    }
  }

  /** The residual the Newton loop accepts. */
  function Allowance(m: Model, load: seq<real>): real {
    m.tolerance * LoadScale(load, |load|)
  }

  /** What one trial displacement implies: its rates, its internal force and its residual. */
  ghost predicate Trial(m: Model, mass: seq<seq<real>>, damping: seq<seq<real>>, load: seq<real>,
                        predicted: seq<real>, predictedRate: seq<real>, q: seq<real>,
                        v: seq<real>, a: seq<real>, internal: seq<real>, r: seq<real>)
    requires Steppable(m)
  {
    var n := m.Ndof();
    && |load| == |predicted| == |predictedRate| == |q| == |v| == |a| == |internal| == |r| == n
    && Matrix(mass, n) && Matrix(damping, n)
    && (forall i :: 0 <= i < n ==> a[i] == Acceleration(m, q[i], predicted[i]))
    && (forall i :: 0 <= i < n ==> v[i] == Rate(m, predictedRate[i], a[i]))
    && Assembled(SectionOf(m), Blocks(q), m.elements) == Some(Blocks(internal))
    && forall i: nat :: i < n ==>
      r[i] == if Fixed(m, i) then 0.0 else Unbalance(mass[i], damping[i], a, v, internal[i], load[i])
  }

  method Rates(m: Model, q: seq<real>, predicted: seq<real>, predictedRate: seq<real>)
      returns (v: seq<real>, a: seq<real>)
    requires Steppable(m) && |q| == |predicted| == |predictedRate|
    ensures |v| == |a| == |q|
    ensures forall i :: 0 <= i < |q| ==> a[i] == Acceleration(m, q[i], predicted[i])
    ensures forall i :: 0 <= i < |q| ==> v[i] == Rate(m, predictedRate[i], a[i])
  {
    hide Acceleration, Rate;
    var qdd, qd := new real[|q|], new real[|q|];
    for i := 0 to |q|
      invariant forall k :: 0 <= k < i ==> qdd[k] == Acceleration(m, q[k], predicted[k])
      invariant forall k :: 0 <= k < i ==> qd[k] == Rate(m, predictedRate[k], qdd[k])
    {
      qdd[i] := Acceleration(m, q[i], predicted[i]);
      qd[i] := Rate(m, predictedRate[i], qdd[i]);
    }
    v, a := qd[..], qdd[..];
  }

  method Residual(m: Model, mass: seq<seq<real>>, damping: seq<seq<real>>, load: seq<real>,
                  v: seq<real>, a: seq<real>, internal: seq<real>) returns (r: seq<real>)
    requires Steppable(m) && |load| == |v| == |a| == |internal| == m.Ndof() && Matrix(mass, m.Ndof())
      && Matrix(damping, m.Ndof())
    ensures |r| == m.Ndof()
    ensures forall i: nat :: i < m.Ndof() ==>
      r[i] == if Fixed(m, i) then 0.0 else Unbalance(mass[i], damping[i], a, v, internal[i], load[i])
  {
    var n := m.Ndof();
    var rr := new real[n];
    for i: nat := 0 to n
      invariant forall k: nat :: k < i ==>
        rr[k] == if Fixed(m, k) then 0.0 else Unbalance(mass[k], damping[k], a, v, internal[k], load[k])
    {
      var sum := RowSum(mass[i], damping[i], a, v);
      rr[i] := if Fixed(m, i) then 0.0 else sum + (internal[i] - load[i]);
    }
    r := rr[..];
  }

  /** Inertia and damping accumulated together, coordinate by coordinate. */
  method RowSum(mass: seq<real>, damping: seq<real>, a: seq<real>, v: seq<real>) returns (sum: real)
    requires |mass| == |damping| == |a| == |v|
    ensures sum == Dot(mass, a, 0, |a|) + Dot(damping, v, 0, |v|)
  {
    sum := 0.0;
    for j := 0 to |a|
      invariant sum == Dot(mass, a, 0, j) + Dot(damping, v, 0, j)
    {
      sum := sum + (mass[j] * a[j] + damping[j] * v[j]);
    }
  }

  /** The largest free residual. */
  ghost predicate IsNorm(m: Model, r: seq<real>, norm: real) {
    && norm >= 0.0 && (forall i: nat :: i < |r| && !Fixed(m, i) ==> Abs(r[i]) <= norm)
    && (norm == 0.0 || exists i: nat :: i < |r| && !Fixed(m, i) && norm == Abs(r[i]))
  }

  method FreeNorm(m: Model, r: seq<real>) returns (norm: real)
    requires |r| == m.Ndof()
    ensures IsNorm(m, r, norm)
  {
    norm := 0.0;
    for i: nat := 0 to |r|
      invariant norm >= 0.0 && forall k: nat :: k < i && !Fixed(m, k) ==> Abs(r[k]) <= norm
      invariant norm == 0.0 || exists k: nat :: k < i && !Fixed(m, k) && norm == Abs(r[k])
    {
      if !Fixed(m, i) {
        norm := Max(norm, Abs(r[i]));
      }
    }
  }

  /** The Newmark predictor, and the start of the Newton loop with the held coordinates put back. */
  ghost predicate IsPredictor(m: Model, q: seq<real>, v: seq<real>, a: seq<real>,
                              predicted: seq<real>, predictedRate: seq<real>, start: seq<real>)
  {
    && |q| == |v| == |a| == |predicted| == |predictedRate| == |start| == m.Ndof()
    && (forall i :: 0 <= i < |q| ==> predicted[i] == Predicted(m, q[i], v[i], a[i]))
    && (forall i :: 0 <= i < |q| ==> predictedRate[i] == PredictedRate(m, v[i], a[i]))
    && (forall i: nat :: i < |q| ==> start[i] == if Fixed(m, i) then q[i] else predicted[i])
  }

  method Predictor(m: Model, q: seq<real>, v: seq<real>, a: seq<real>)
      returns (predicted: seq<real>, predictedRate: seq<real>, start: seq<real>)
    requires |q| == |v| == |a| == m.Ndof()
    ensures IsPredictor(m, q, v, a, predicted, predictedRate, start)
  {
    hide Predicted, PredictedRate;
    var qpred, qdpred, qq := new real[|q|], new real[|q|], new real[|q|];
    for i: nat := 0 to |q|
      invariant forall k :: 0 <= k < i ==> qpred[k] == Predicted(m, q[k], v[k], a[k])
      invariant forall k :: 0 <= k < i ==> qdpred[k] == PredictedRate(m, v[k], a[k])
      invariant forall k: nat :: k < i ==> qq[k] == if Fixed(m, k) then q[k] else qpred[k]
    {
      qpred[i] := Predicted(m, q[i], v[i], a[i]);
      qdpred[i] := PredictedRate(m, v[i], a[i]);
      qq[i] := if Fixed(m, i) then q[i] else qpred[i];
    }
    predicted, predictedRate, start := qpred[..], qdpred[..], qq[..];
  }

  predicate AllFree(m: Model, free: seq<nat>, n: nat) {
    && (forall i :: 0 <= i < |free| ==> free[i] < n && !Fixed(m, free[i]))
    && (forall i, j :: 0 <= i < j < |free| ==> free[i] < free[j])
  }

  /** The reduced system is the free part of the effective tangent, with the free residual. */
  ghost predicate IsFreeSystem(m: Model, k: seq<seq<real>>, mass: seq<seq<real>>, damping: seq<seq<real>>, r: seq<real>,
                               free: seq<nat>, s: System)
    requires Steppable(m) && |r| == m.Ndof() && Matrix(k, |r|) && Matrix(mass, |r|) && Matrix(damping, |r|)
  {
    && AllFree(m, free, |r|) && (forall i: nat :: i < |r| && !Fixed(m, i) ==> i in free)
    && Square(s, |free|)
    && (forall i :: 0 <= i < |free| ==> s.b[i] == r[free[i]])
    && (forall i, j :: 0 <= i < |free| && 0 <= j < |free| ==>
          s.a[i][j] == Effective(m, k[free[i]][free[j]], mass[free[i]][free[j]], damping[free[i]][free[j]]))
  }

  method FreeSystem(m: Model, k: seq<seq<real>>, mass: seq<seq<real>>, damping: seq<seq<real>>, r: seq<real>)
      returns (free: seq<nat>, s: System)
    requires Steppable(m) && |r| == m.Ndof() && Matrix(k, |r|) && Matrix(mass, |r|) && Matrix(damping, |r|)
    ensures AllFree(m, free, |r|) && Square(s, |free|)
    ensures IsFreeSystem(m, k, mass, damping, r, free, s)
  {
    hide Effective;
    free := [];
    for i: nat := 0 to |r|
      invariant AllFree(m, free, i) && forall j: nat :: j < i && !Fixed(m, j) ==> j in free
    {
      if !Fixed(m, i) {
        free := free + [i];
      }
    }
    var rows := seq(|free|, i requires 0 <= i < |free| && free[i] < |r| =>
      seq(|free|, j requires 0 <= j < |free| && free[j] < |r| =>
        Effective(m, k[free[i]][free[j]], mass[free[i]][free[j]], damping[free[i]][free[j]])));
    s := System(rows, seq(|free|, i requires 0 <= i < |free| && free[i] < |r| => r[free[i]]));
  }

  function Effective(m: Model, k: real, mass: real, damping: real): real
    requires m.beta != 0.0 && m.dt != 0.0
  {
    k + mass / (m.beta * m.dt * m.dt) + damping * m.gamma / (m.beta * m.dt)
  }

  /** Subtracts the correction on the free coordinates and on no other. */
  method Corrected(m: Model, q: seq<real>, free: seq<nat>, dq: seq<real>) returns (p: seq<real>)
    requires |dq| == |free| && AllFree(m, free, |q|)
    ensures |p| == |q| && forall i: nat :: i < |q| && Fixed(m, i) ==> p[i] == q[i]
    ensures forall i :: 0 <= i < |free| ==> p[free[i]] == q[free[i]] - dq[i]
  {
    p := q;
    for i := 0 to |free|
      invariant |p| == |q| && forall k: nat :: k < |q| && Fixed(m, k) ==> p[k] == q[k]
      invariant forall k :: 0 <= k < i ==> p[free[k]] == q[free[k]] - dq[k]
      invariant forall k :: i <= k < |free| ==> p[free[k]] == q[free[k]]
    {
      p := p[free[i] := p[free[i]] - dq[i]];
    }
  }

  /** The correction solves the reduced system, and uniquely. */
  ghost predicate NewtonCorrection(q: seq<real>, p: seq<real>, free: seq<nat>, s: System) {
    && |q| == |p| && (forall i :: 0 <= i < |free| ==> free[i] < |q|)
    && UniqueSolution(s, seq(|free|, i requires 0 <= i < |free| && free[i] < |q| => q[free[i]] - p[free[i]]))
  }

  /** One Newton correction, or the singular tangent that stops the loop. */
  method NewtonStep(m: Model, k: seq<seq<real>>, mass: seq<seq<real>>, damping: seq<seq<real>>, r: seq<real>,
      q: seq<real>)
      returns (p: Option<seq<real>>, ghost free: seq<nat>, ghost s: System)
    requires Steppable(m) && |r| == |q| == m.Ndof() && Matrix(k, |r|) && Matrix(mass, |r|) && Matrix(damping, |r|)
    ensures IsFreeSystem(m, k, mass, damping, r, free, s) && Square(s, |free|)
    ensures p.Some? <==> Eliminated(s, |free|, |free|).Some?
    ensures p.Some? ==>
      && |p.value| == |q| && NewtonCorrection(q, p.value, free, s)
      && forall i: nat :: i < |q| && Fixed(m, i) ==> p.value[i] == q[i]
  {
    hide IsFreeSystem, UniqueSolution, Eliminated;
    var indices, reduced := FreeSystem(m, k, mass, damping, r);
    free, s := indices, reduced;
    var dq := Solve(reduced);
    if dq.Err? {
      assert dq.error == SingularTangent || dq.error == DimensionMismatch;
      return None, free, s;
    }
    var corrected := Corrected(m, q, indices, dq.value);
    assert dq.value == seq(|free|, i requires 0 <= i < |free| && free[i] < |q| => q[free[i]] - corrected[free[i]]);
    return Some(corrected), free, s;
  }

  /** The total load: the base load plus the mapped slice forces. */
  ghost predicate IsLoad(m: Model, baseLoad: seq<real>, force: seq<real>, rows: seq<seq<real>>, load: seq<real>)
    requires m.Valid() && m.SlicesInside() && |force| == 3 * m.slices && |baseLoad| == m.Ndof()
  {
    && StackedRows(m, rows) && WellShaped(Regrouped(rows, force, m.slices), m.Ndof())
    && load == Plus(baseLoad, Generalized(Regrouped(rows, force, m.slices), m.Ndof(), m.slices))
  }

  /** The state balances the load within the tolerance, scaled by the largest load entry. */
  ghost predicate Balanced(m: Model, mass: seq<seq<real>>, damping: seq<seq<real>>, load: seq<real>,
                           q: seq<real>, v: seq<real>, a: seq<real>, internal: seq<real>)
    requires Steppable(m)
  {
    var n := m.Ndof();
    && |load| == |q| == |v| == |a| == |internal| == n && Matrix(mass, n) && Matrix(damping, n)
    && Assembled(SectionOf(m), Blocks(q), m.elements) == Some(Blocks(internal))
    && forall i: nat :: i < n && !Fixed(m, i) ==>
      Abs(Unbalance(mass[i], damping[i], a, v, internal[i], load[i])) <= Allowance(m, load)
  }

  ghost predicate IsReference(q: seq<real>, le: real, nodes: nat) {
    |q| == 6 * nodes && Blocks(q) == Reference(le, 2 * nodes)
  }

  /** Straight and unstretched, with no rates and no loads. */
  ghost predicate AtRest(m: Model, q: seq<real>, v: seq<real>, a: seq<real>, baseLoad: seq<real>, force: seq<real>)
    requires m.Valid()
  {
    && IsReference(q, SectionOf(m).le, m.elements + 1)
    && v == a == baseLoad == Zeros(m.Ndof()) && force == Zeros(3 * m.slices)
    && m.SlicesInside() && m.maxNewton >= 1 && m.tolerance >= 0.0
  }

  /** The trial state and its residual, or none when the internal force does not exist. */
  method Evaluate(m: Model, mass: seq<seq<real>>, damping: seq<seq<real>>, load: seq<real>,
                  predicted: seq<real>, predictedRate: seq<real>, q: seq<real>)
      returns (exists_: bool, v: seq<real>, a: seq<real>, r: seq<real>, internal: seq<real>)
    requires Steppable(m) && |load| == |predicted| == |predictedRate| == |q| == m.Ndof()
    requires Matrix(mass, m.Ndof()) && Matrix(damping, m.Ndof())
    ensures exists_ <==> Assembled(SectionOf(m), Blocks(q), m.elements).Some?
    ensures exists_ ==> Trial(m, mass, damping, load, predicted, predictedRate, q, v, a, internal, r)
  {
    hide Assembled, Unbalance, Acceleration, Rate, Blocks;
    v, a := Rates(m, q, predicted, predictedRate);
    m.IsUniform();
    var force := AssembleForce(SectionOf(m), q, m.elements);
    if force.None? {
      return false, v, a, [], [];
    }
    internal := force.value;
    r := Residual(m, mass, damping, load, v, a, internal);
    exists_ := true;
  }

  /** The load vector of a step, or why it cannot be formed. */
  method FormLoad(m: Model, baseLoad: seq<real>, force: seq<real>)
      returns (r: Result<seq<real>, KernelError>, ghost rows: seq<seq<real>>)
    requires m.Valid() && |baseLoad| == m.Ndof()
    ensures r == Err(ForceDimensions) <==> |force| != 3 * m.slices
    ensures r == Err(SliceOutsideLine) <==> |force| == 3 * m.slices && !m.SlicesInside()
    ensures r.Err? ==> r.error in {ForceDimensions, SliceOutsideLine}
    ensures r.Ok? ==> |force| == 3 * m.slices && m.SlicesInside() && IsLoad(m, baseLoad, force, rows, r.value)
  {
    hide Generalized, StackedRows, Regrouped, WellShaped;
    rows := [];
    var external := ExternalForce(m, force);
    if external.Err? {
      return Err(external.error), rows;
    }
    rows :| IsExternal(m, rows, force, external.value);
    return Ok(Plus(baseLoad, external.value)), rows;
  }

  /** An accepted trial balances the load. */
  lemma TrialBalances(m: Model, mass: seq<seq<real>>, damping: seq<seq<real>>, load: seq<real>, predicted: seq<real>,
                      predictedRate: seq<real>, q: seq<real>, v: seq<real>, a: seq<real>, internal: seq<real>,
                      r: seq<real>, norm: real)
    requires Steppable(m) && Trial(m, mass, damping, load, predicted, predictedRate, q, v, a, internal, r)
    requires norm <= Allowance(m, load)
    requires forall i: nat :: i < |r| && !Fixed(m, i) ==> Abs(r[i]) <= norm
    ensures Balanced(m, mass, damping, load, q, v, a, internal)
  {
    hide Assembled, Unbalance, Acceleration, Rate, Allowance, Blocks, Fixed, Abs, SectionOf;
  }

  /** Every trial is Newmark-consistent with the old state. */
  lemma TrialIsNewmark(m: Model, mass: seq<seq<real>>, damping: seq<seq<real>>, load: seq<real>,
                       q0: seq<real>, v0: seq<real>, a0: seq<real>, predicted: seq<real>, predictedRate: seq<real>,
                       start: seq<real>, q: seq<real>, v: seq<real>, a: seq<real>, internal: seq<real>, r: seq<real>)
    requires Steppable(m) && Trial(m, mass, damping, load, predicted, predictedRate, q, v, a, internal, r)
    requires IsPredictor(m, q0, v0, a0, predicted, predictedRate, start)
    ensures NewmarkAll(m, q0, v0, a0, q, v, a)
  {
    hide Assembled, Unbalance, Acceleration, Rate, Predicted, PredictedRate, Blocks, NewmarkAt, Fixed, SectionOf;
    forall i | 0 <= i < |q0|
      ensures NewmarkAt(m, q0[i], v0[i], a0[i], q[i], v[i], a[i])
    {
      RatesAreNewmark(m, q0[i], v0[i], a0[i], q[i]);
    }
  }

  /** From rest the predictor is the state itself. */
  lemma RestStart(m: Model, q: seq<real>, v: seq<real>, a: seq<real>, baseLoad: seq<real>, force: seq<real>,
                  predicted: seq<real>, predictedRate: seq<real>, start: seq<real>)
    requires Steppable(m) && AtRest(m, q, v, a, baseLoad, force)
      && IsPredictor(m, q, v, a, predicted, predictedRate, start)
    ensures start == predicted == q && predictedRate == Zeros(m.Ndof())
  {
    hide IsReference;
    forall i | 0 <= i < |q|
      ensures predicted[i] == q[i] && predictedRate[i] == 0.0
    {
      assert Predicted(m, q[i], 0.0, 0.0) == q[i] && PredictedRate(m, 0.0, 0.0) == 0.0;
    }
  }

  lemma {:induction false} ZeroGeneralized(slices: seq<Slice>, ndof: nat, n: nat)
    requires WellShaped(slices, ndof) && n <= |slices|
    requires forall i :: 0 <= i < |slices| ==> slices[i].force == [0.0, 0.0, 0.0]
    ensures Generalized(slices, ndof, n) == Zeros(ndof)
    decreases n
  {
    if n > 0 {
      ZeroGeneralized(slices, ndof, n - 1);
      var c := Contribution(slices[n - 1].h, slices[n - 1].force, ndof);
      assert forall j :: 0 <= j < ndof ==> c[j] == 0.0;
    }
  }

  /** From rest the internal force exists. */
  lemma RestRegular(m: Model, q: seq<real>)
    requires Steppable(m) && IsReference(q, SectionOf(m).le, m.elements + 1)
    ensures |q| == m.Ndof()
      && Assembled(SectionOf(m), Blocks(q), m.elements) == Some(seq(2 * (m.elements + 1), _ => ZERO))
  {
    m.IsUniform();
    ReferenceForceFree(SectionOf(m), 2 * (m.elements + 1), m.elements);
  }

  /** From rest the first residual vanishes. */
  lemma RestResidual(m: Model, mass: seq<seq<real>>, damping: seq<seq<real>>, load: seq<real>,
                     predicted: seq<real>, predictedRate: seq<real>, q: seq<real>, v: seq<real>, a: seq<real>,
                     internal: seq<real>, r: seq<real>, norm: real)
    requires Steppable(m) && IsReference(q, SectionOf(m).le, m.elements + 1)
    requires Trial(m, mass, damping, load, predicted, predictedRate, q, v, a, internal, r)
    requires predicted == q && predictedRate == Zeros(m.Ndof()) && load == Zeros(m.Ndof()) && IsNorm(m, r, norm)
    ensures norm == 0.0
  {
    RestRegular(m, q);
    hide Assembled, Unbalance, Blocks, IsReference;
    forall i | 0 <= i < |q|
      ensures a[i] == 0.0 && v[i] == 0.0
    {
    }
    forall i: nat | i < |r|
      ensures r[i] == 0.0
    {
      ZeroEntry(internal, i);
      RestUnbalance(mass[i], damping[i], a, v);
    }
  }

  lemma ZeroEntry(internal: seq<real>, i: nat)
    requires |internal| % 3 == 0 && Blocks(internal) == seq(|internal| / 3, _ => ZERO) && i < |internal|
    ensures internal[i] == 0.0
  {
    var b := Blocks(internal)[i / 3];
    assert b == ZERO;
  }

  lemma RestUnbalance(mass: seq<real>, damping: seq<real>, a: seq<real>, v: seq<real>)
    requires |mass| == |damping| == |a| == |v| && forall i :: 0 <= i < |a| ==> a[i] == 0.0 && v[i] == 0.0
    ensures Unbalance(mass, damping, a, v, 0.0, 0.0) == 0.0
  {
    DotSymmetric(mass, a, 0, |a|);
    DotSymmetric(damping, v, 0, |v|);
    DotZero(a, mass, 0, |a|);
    DotZero(v, damping, 0, |v|);
  }

  lemma RestLoad(m: Model, baseLoad: seq<real>, force: seq<real>, rows: seq<seq<real>>, load: seq<real>)
    requires m.Valid() && m.SlicesInside() && |force| == 3 * m.slices && |baseLoad| == m.Ndof()
    requires baseLoad == Zeros(m.Ndof()) && force == Zeros(3 * m.slices)
    ensures IsLoad(m, baseLoad, force, rows, load) ==> load == Zeros(m.Ndof())
  {
    hide Generalized, Contribution, WellShaped, SliceRow;
    if IsLoad(m, baseLoad, force, rows, load) {
      ZeroGeneralized(Regrouped(rows, force, m.slices), m.Ndof(), m.slices);
    }
  }

  /** The symmetrized tangent that is assembled beside the force. */
  ghost predicate IsTangent(m: Model, q: seq<real>, k: seq<seq<real>>)
    requires m.Valid()
  {
    && |q| == m.Ndof() && SectionOf(m).le != 0.0 && Tangent.Formed(SectionOf(m), Blocks(q), m.elements)
    && k == Tangent.EvenMatrix(SectionOf(m), Blocks(q), m.elements)
  }

  /** No tangent vector of the trial is degenerate. */
  ghost predicate HasForce(m: Model, q: seq<real>)
    requires Steppable(m)
  {
    |q| == m.Ndof() && Assembled(SectionOf(m), Blocks(q), m.elements).Some?
  }

  lemma LengthPositive(m: Model)
    requires m.Valid()
    ensures SectionOf(m).le > 0.0
  {
    m.IsUniform();
  }

  /** The tangent exists wherever the force does. */
  method TangentAt(m: Model, q: seq<real>) returns (k: seq<seq<real>>)
    requires Steppable(m) && |q| == m.Ndof() && SectionOf(m).le != 0.0
    requires Assembled(SectionOf(m), Blocks(q), m.elements).Some?
    ensures IsTangent(m, q, k) && Matrix(k, m.Ndof())
  {
    hide Assembled, Tangent.Formed, Tangent.Entry, Model.Valid;
    var s, blocks, n := SectionOf(m), Blocks(q), m.Ndof();
    Tangent.FormedWithForce(s, blocks, m.elements);
    var assembled := Tangent.AssembleTangent(s, blocks, m.elements);
    var kk := assembled.value;
    k := seq(n, i requires 0 <= i < n reads kk => seq(n, j requires 0 <= j < n reads kk => kk[i, j]));
    var even := Tangent.EvenMatrix(s, blocks, m.elements);
    forall i | 0 <= i < n
      ensures k[i] == even[i]
    {
      assert forall j :: 0 <= j < n ==> k[i][j] == even[i][j];
    }
  }

  /** What the Newton loop hands to the state. */
  datatype Accepted = Accepted(q: seq<real>, v: seq<real>, a: seq<real>, initial: real, norm: real, iterations: nat)

  /** One pass of the loop: the trial, its rates, force and residual, and the largest free residual. */
  datatype Pass = Pass(q: seq<real>, v: seq<real>, a: seq<real>, internal: seq<real>, r: seq<real>, norm: real)

  /** What stays the same while the loop runs. */
  datatype Problem = Problem(
    m: Model, mass: seq<seq<real>>, damping: seq<seq<real>>, load: seq<real>, predicted: seq<real>,
    predictedRate: seq<real>, start: seq<real>)
  {
    ghost predicate Valid() {
      && Steppable(m) && |load| == |predicted| == |predictedRate| == |start| == m.Ndof()
      && Matrix(mass, m.Ndof()) && Matrix(damping, m.Ndof())
    }

    ghost predicate IsPass(x: Pass)
      requires Valid()
    {
      && Trial(m, mass, damping, load, predicted, predictedRate, x.q, x.v, x.a, x.internal, x.r)
      && IsNorm(m, x.r, x.norm)
    }

    /** The residual is too large, and the reduced system of the tangent at the trial says where to go on. */
    ghost predicate Reduces(x: Pass, free: seq<nat>, s: System)
      requires Valid()
    {
      x.norm > Allowance(m, load) && |x.r| == m.Ndof()
      && exists k :: IsTangent(m, x.q, k) && Matrix(k, |x.r|) && IsFreeSystem(m, k, mass, damping, x.r, free, s)
    }

    /** `p` is the one trial that follows the pass. */
    ghost predicate Leads(x: Pass, p: seq<real>)
      requires Valid()
    {
      && |x.q| == |p| && (forall i: nat :: i < |p| && Fixed(m, i) ==> p[i] == x.q[i])
      && exists free, s ::
        Reduces(x, free, s) && NewtonCorrection(x.q, p, free, s)
        && Square(s, |free|) && Eliminated(s, |free|, |free|).Some?
    }

    /** The reduced system of the pass has a pivot below the floor. */
    ghost predicate Sticks(x: Pass)
      requires Valid()
    {
      IsPass(x) && exists free, s ::
        Reduces(x, free, s) && Square(s, |free|) && Eliminated(s, |free|, |free|).None?
    }

    /** The passes so far, each leading to the next, and the trial they lead to. */
    ghost predicate Course(passes: seq<Pass>, q: seq<real>)
      requires Valid()
    {
      && (forall i :: 0 <= i < |passes| ==> IsPass(passes[i]))
      && (forall i :: 0 < i < |passes| ==> Leads(passes[i - 1], passes[i].q))
      && if passes == [] then q == start else passes[0].q == start && Leads(passes[|passes| - 1], q)
    }

    /** The passes of a run, the trial it stopped at, and the pass there if its force exists. */
    ghost predicate Ends(t: Trace, r: Result<Accepted, KernelError>)
      requires Valid()
    {
      && Course(t.passes, t.q)
      && match r
         case Ok(x) => Accepts(t, x)
         case Err(DegenerateTangent) => |t.passes| < m.maxNewton && !HasForce(m, t.q)
         case Err(SingularMatrix) => |t.passes| < m.maxNewton && t.last.q == t.q && Sticks(t.last)
         case Err(error) => error == NotConverged && |t.passes| == m.maxNewton
    }

    /** The first pass within the allowance is the result. */
    ghost predicate Accepts(t: Trace, x: Accepted)
      requires Valid()
    {
      && IsPass(t.last) && t.last.q == t.q && t.last.norm <= Allowance(m, load) && |t.passes| < m.maxNewton
      && x == Accepted(t.q, t.last.v, t.last.a, (t.passes + [t.last])[0].norm, t.last.norm, |t.passes| + 1)
    }
  }

  datatype Trace = Trace(passes: seq<Pass>, q: seq<real>, last: Pass)

  const NO_PASS := Pass([], [], [], [], [], 0.0)

  /** Extending a course by one pass that leads on. */
  lemma CourseGoesOn(p: Problem, passes: seq<Pass>, x: Pass, q: seq<real>)
    requires p.Valid() && p.Course(passes, x.q) && p.IsPass(x) && p.Leads(x, q)
    ensures p.Course(passes + [x], q)
  {
    hide Problem.IsPass, Problem.Leads;
  }

  /**
   Newton iteration from `start`: every pass leads to the next by the reduced system of its own tangent, and the first
   one within tolerance is the result. No held coordinate moves. A start whose residual already vanishes is returned
   at once.
   */
  method NewtonLoop(p: Problem) returns (r: Result<Accepted, KernelError>, ghost trace: Trace)
    requires p.Valid()
    ensures p.Ends(trace, r) && |trace.q| == p.m.Ndof()
    ensures forall i: nat :: i < p.m.Ndof() && Fixed(p.m, i) ==> trace.q[i] == p.start[i]
    ensures Resting(p.m, p.load, p.predicted, p.predictedRate, p.start) ==>
      r.Ok? && r.value.iterations == 1 && r.value.q == p.start
  {
    hide Assembled, Trial, Allowance, IsReference, NewtonCorrection, IsFreeSystem, Eliminated, Fixed, Abs, SectionOf,
         Matrix, IsNorm, IsTangent, Problem.Course, Problem.Leads, Problem.Sticks;
    var m, allowance := p.m, Allowance(p.m, p.load);
    var q, initial, iter := p.start, 0.0, 1;
    ghost var passes: seq<Pass> := [];
    ghost var resting := Resting(m, p.load, p.predicted, p.predictedRate, p.start);
    if resting {
      RestRegular(m, p.start);
      AllowanceNonnegative(m, p.load);
    }
    CourseStarts(p);
    while iter <= m.maxNewton
      invariant 1 <= iter <= m.maxNewton + 1 && |passes| == iter - 1 && p.Course(passes, q)
      invariant passes != [] ==> initial == passes[0].norm
      invariant |q| == m.Ndof() && forall i: nat :: i < |q| && Fixed(m, i) ==> q[i] == p.start[i]
      invariant resting ==> iter == 1 && q == p.start
    {
      var regular, v, a, rr, qi := Evaluate(m, p.mass, p.damping, p.load, p.predicted, p.predictedRate, q);
      if !regular {
        return Err(DegenerateTangent), Trace(passes, q, NO_PASS);
      }
      TrialShape(m, p.mass, p.damping, p.load, p.predicted, p.predictedRate, q, v, a, qi, rr);
      var norm := FreeNorm(m, rr);
      ghost var x := Pass(q, v, a, qi, rr, norm);
      if iter == 1 {
        initial := norm;
      }
      if resting {
        RestResidual(m, p.mass, p.damping, p.load, p.predicted, p.predictedRate, q, v, a, qi, rr, norm);
      }
      if norm <= allowance {
        return Ok(Accepted(q, v, a, initial, norm, iter)), Trace(passes, q, x);
      }
      LengthPositive(m);
      var k := TangentAt(m, q);
      var next, free, s := NewtonStep(m, k, p.mass, p.damping, rr, q);
      assert p.Reduces(x, free, s);
      if next.None? {
        PassSticks(p, x, free, s);
        return Err(SingularMatrix), Trace(passes, q, x);
      }
      PassLeads(p, x, next.value, free, s);
      CourseGoesOn(p, passes, x, next.value);
      passes, q, iter := passes + [x], next.value, iter + 1;
    }
    return Err(NotConverged), Trace(passes, q, NO_PASS);
  }

  lemma PassSticks(p: Problem, x: Pass, free: seq<nat>, s: System)
    requires p.Valid() && p.IsPass(x) && p.Reduces(x, free, s)
    requires Square(s, |free|) && Eliminated(s, |free|, |free|).None?
    ensures p.Sticks(x)
  {
    hide Problem.IsPass, Problem.Reduces, Eliminated;
  }

  lemma PassLeads(p: Problem, x: Pass, q: seq<real>, free: seq<nat>, s: System)
    requires p.Valid() && p.Reduces(x, free, s) && NewtonCorrection(x.q, q, free, s)
    requires Square(s, |free|) && Eliminated(s, |free|, |free|).Some?
    requires |x.q| == |q| && forall i: nat :: i < |q| && Fixed(p.m, i) ==> q[i] == x.q[i]
    ensures p.Leads(x, q)
  {
    hide Problem.Reduces, NewtonCorrection, Fixed, Eliminated;
  }

  lemma CourseStarts(p: Problem)
    requires p.Valid()
    ensures p.Course([], p.start)
  {
  }

  // ----- the outcome is determined

  lemma BlocksInjective(f: seq<real>, g: seq<real>)
    requires |f| == |g| && |f| % 3 == 0 && Blocks(f) == Blocks(g)
    ensures f == g
  {
    forall i | 0 <= i < |f|
      ensures f[i] == g[i]
    {
      var b, c := i / 3, i % 3;
      assert i == 3 * b + c && Blocks(f)[b] == Blocks(g)[b];
    }
  }

  lemma NormDetermined(m: Model, r: seq<real>, x: real, y: real)
    requires IsNorm(m, r, x) && IsNorm(m, r, y)
    ensures x == y
  {
    hide Fixed;
  }

  lemma RatesAt(p: Problem, x: Pass, i: nat)
    requires p.Valid() && p.IsPass(x) && i < |x.q|
    ensures |x.q| == |x.a| == |x.v| == p.m.Ndof()
    ensures x.a[i] == Acceleration(p.m, x.q[i], p.predicted[i]) && x.v[i] == Rate(p.m, p.predictedRate[i], x.a[i])
  {
    hide Assembled, Blocks, Acceleration, Rate, Unbalance, Fixed, IsNorm, SectionOf, Matrix;
  }

  ghost predicate IsForce(m: Model, q: seq<real>, internal: seq<real>)
    requires Steppable(m)
  {
    HasForce(m, q) && |internal| == m.Ndof() && |internal| % 3 == 0
    && Blocks(internal) == Assembled(SectionOf(m), Blocks(q), m.elements).value
  }

  lemma ForceOf(p: Problem, x: Pass)
    requires p.Valid() && p.IsPass(x)
    ensures |x.q| == |x.a| == |x.v| == |x.internal| == |x.r| == p.m.Ndof()
    ensures HasForce(p.m, x.q) && IsForce(p.m, x.q, x.internal)
  {
    Thirds(p.m);
    hide Assembled, Blocks, Acceleration, Rate, Unbalance, Fixed, IsNorm, SectionOf, Matrix, Model.Ndof,
         Model.ElementLength;
  }

  lemma Thirds(m: Model)
    ensures m.Ndof() % 3 == 0
  {
  }

  lemma ForceDetermined(m: Model, q: seq<real>, f: seq<real>, g: seq<real>)
    requires Steppable(m) && IsForce(m, q, f) && IsForce(m, q, g)
    ensures f == g
  {
    hide Assembled, Blocks, SectionOf, Model.Valid, Model.Ndof, Model.ElementLength, HasForce;
    BlocksInjective(f, g);
  }

  lemma RatesAgree(p: Problem, x: Pass, y: Pass, i: nat)
    requires p.Valid() && p.IsPass(x) && p.IsPass(y) && x.q == y.q && i < |x.q|
    ensures |x.q| == |x.a| == |x.v| == |y.a| == |y.v| && x.a[i] == y.a[i] && x.v[i] == y.v[i]
  {
    hide Trial, Acceleration, Rate, IsNorm, Matrix, Problem.IsPass;
    RatesAt(p, x, i);
    RatesAt(p, y, i);
  }

  lemma RatesDetermined(p: Problem, x: Pass, y: Pass)
    requires p.Valid() && p.IsPass(x) && p.IsPass(y) && x.q == y.q
    ensures x.a == y.a && x.v == y.v && x.internal == y.internal && |x.r| == |y.r|
  {
    hide Trial, IsForce, HasForce, IsNorm, Matrix, Model.Valid, Problem.IsPass;
    ForceOf(p, x);
    ForceOf(p, y);
    ForceDetermined(p.m, x.q, x.internal, y.internal);
    forall i: nat | i < |x.q|
      ensures x.a[i] == y.a[i] && x.v[i] == y.v[i]
    {
      RatesAgree(p, x, y, i);
    }
  }

  lemma ResidualAt(p: Problem, x: Pass, i: nat)
    requires p.Valid() && p.IsPass(x) && i < |x.r|
    ensures |x.r| == p.m.Ndof() && |x.internal| == |x.a| == |x.v| == |x.r|
    ensures x.r[i]
      == if Fixed(p.m, i) then 0.0 else Unbalance(p.mass[i], p.damping[i], x.a, x.v, x.internal[i], p.load[i])
  {
    hide Assembled, Blocks, Acceleration, Rate, Unbalance, Fixed, IsNorm, SectionOf;
  }

  /** A trial position has one set of rates, force, residual and norm. */
  lemma PassDetermined(p: Problem, x: Pass, y: Pass)
    requires p.Valid() && p.IsPass(x) && p.IsPass(y) && x.q == y.q
    ensures x == y
  {
    hide Trial, Unbalance, Fixed, Matrix;
    RatesDetermined(p, x, y);
    forall i: nat | i < |x.r|
      ensures x.r[i] == y.r[i]
    {
      ResidualAt(p, x, i);
      ResidualAt(p, y, i);
    }
    NormDetermined(p.m, x.r, x.norm, y.norm);
  }

  ghost predicate SameElements(a: seq<nat>, b: seq<nat>) {
    forall k: nat :: k in a <==> k in b
  }

  lemma Transfers(a: seq<nat>, b: seq<nat>, k: nat)
    requires SameElements(a, b)
    ensures k in a <==> k in b
  {
  }

  predicate Increasing(a: seq<nat>) {
    forall i, j :: 0 <= i < j < |a| ==> a[i] < a[j]
  }

  lemma IncreasingLast(a: seq<nat>, k: nat)
    requires a != [] && Increasing(a)
    ensures Increasing(a[..|a| - 1]) && (k in a ==> k <= a[|a| - 1])
    ensures k in a[..|a| - 1] <==> k in a && k != a[|a| - 1]
  {
    assert a == a[..|a| - 1] + [a[|a| - 1]];
  }

  /** Two increasing lists of the same numbers are one. */
  lemma {:induction false} IncreasingDetermined(a: seq<nat>, b: seq<nat>)
    requires Increasing(a) && Increasing(b) && SameElements(a, b)
    ensures a == b
    decreases |a|
  {
    hide SameElements, Increasing;
    if a == [] {
      if b != [] {
        Transfers(a, b, b[0]);
      }
    } else {
      var x := a[|a| - 1];
      Transfers(a, b, x);
      var y := b[|b| - 1];
      Transfers(a, b, y);
      IncreasingLast(a, y);
      IncreasingLast(b, x);
      WithoutLast(a, b);
      IncreasingDetermined(a[..|a| - 1], b[..|b| - 1]);
      assert a == a[..|a| - 1] + [x] && b == b[..|b| - 1] + [y];
    }
  }

  lemma WithoutLast(a: seq<nat>, b: seq<nat>)
    requires a != [] && b != [] && a[|a| - 1] == b[|b| - 1] && Increasing(a) && Increasing(b) && SameElements(a, b)
    ensures SameElements(a[..|a| - 1], b[..|b| - 1])
  {
    hide Increasing;
    var c, d := a[..|a| - 1], b[..|b| - 1];
    forall k: nat
      ensures k in c <==> k in d
    {
      IncreasingLast(a, k);
      IncreasingLast(b, k);
    }
  }

  lemma FreeDetermined(m: Model, k: seq<seq<real>>, mass: seq<seq<real>>, damping: seq<seq<real>>, r: seq<real>,
                       free: seq<nat>, s: System, free': seq<nat>, s': System)
    requires Steppable(m) && |r| == m.Ndof() && Matrix(k, |r|) && Matrix(mass, |r|) && Matrix(damping, |r|)
    requires IsFreeSystem(m, k, mass, damping, r, free, s) && IsFreeSystem(m, k, mass, damping, r, free', s')
    ensures free == free' && s == s'
  {
    hide Effective, Fixed;
    IncreasingDetermined(free, free');
    assert s.b == s'.b;
    forall i | 0 <= i < |free|
      ensures s.a[i] == s'.a[i]
    {
      forall j | 0 <= j < |free|
        ensures s.a[i][j] == s'.a[i][j]
      {
        assert s.a[i][j] == Effective(m, k[free[i]][free[j]], mass[free[i]][free[j]], damping[free[i]][free[j]]);
      }
    }
    assert s.a == s'.a;
  }

  lemma ReducedDetermined(p: Problem, x: Pass, free: seq<nat>, s: System, free': seq<nat>, s': System)
    requires p.Valid() && p.Reduces(x, free, s) && p.Reduces(x, free', s')
    ensures free == free' && s == s' && FreeOf(p.m, free, |x.q|)
  {
    hide IsFreeSystem, Allowance, Tangent.EvenMatrix, Tangent.Formed, Matrix;
    var k :| IsTangent(p.m, x.q, k) && Matrix(k, |x.r|) && IsFreeSystem(p.m, k, p.mass, p.damping, x.r, free, s);
    FreeDetermined(p.m, k, p.mass, p.damping, x.r, free, s, free', s');
    FreeCovers(p.m, k, p.mass, p.damping, x.r, free, s);
  }

  predicate FreeOf(m: Model, free: seq<nat>, n: nat) {
    AllFree(m, free, n) && forall i: nat :: i < n && !Fixed(m, i) ==> i in free
  }

  lemma FreeCovers(m: Model, k: seq<seq<real>>, mass: seq<seq<real>>, damping: seq<seq<real>>, r: seq<real>,
                   free: seq<nat>, s: System)
    requires Steppable(m) && |r| == m.Ndof() && Matrix(k, |r|) && Matrix(mass, |r|) && Matrix(damping, |r|)
    requires IsFreeSystem(m, k, mass, damping, r, free, s)
    ensures FreeOf(m, free, |r|)
  {
    hide Effective, Fixed;
  }

  lemma CorrectionDetermined(m: Model, q: seq<real>, free: seq<nat>, s: System, a: seq<real>, b: seq<real>)
    requires FreeOf(m, free, |q|) && NewtonCorrection(q, a, free, s) && NewtonCorrection(q, b, free, s)
    requires forall i: nat :: i < |q| && Fixed(m, i) ==> a[i] == q[i] && b[i] == q[i]
    ensures a == b
  {
    hide Fixed;
    var da := seq(|free|, i requires 0 <= i < |free| && free[i] < |q| => q[free[i]] - a[free[i]]);
    var db := seq(|free|, i requires 0 <= i < |free| && free[i] < |q| => q[free[i]] - b[free[i]]);
    assert da == db;
    forall i: nat | i < |q|
      ensures a[i] == b[i]
    {
      if !Fixed(m, i) {
        var j :| 0 <= j < |free| && free[j] == i;
        assert da[j] == db[j];
      }
    }
  }

  /** A pass leads to one trial. */
  lemma LeadDetermined(p: Problem, x: Pass, a: seq<real>, b: seq<real>)
    requires p.Valid() && p.Leads(x, a) && p.Leads(x, b)
    ensures a == b
  {
    hide Problem.Reduces, NewtonCorrection, FreeOf, Fixed, Eliminated;
    var free, s :| p.Reduces(x, free, s) && NewtonCorrection(x.q, a, free, s);
    var free', s' :| p.Reduces(x, free', s') && NewtonCorrection(x.q, b, free', s');
    ReducedDetermined(p, x, free, s, free', s');
    CorrectionDetermined(p.m, x.q, free, s, a, b);
  }

  /** Where a pass sticks or is accepted, it leads nowhere. */
  lemma LeadExcludes(p: Problem, x: Pass, q: seq<real>)
    requires p.Valid() && p.Leads(x, q)
    ensures x.norm > Allowance(p.m, p.load) && !p.Sticks(x)
  {
    hide Allowance, NewtonCorrection, FreeOf, Fixed, Eliminated, Problem.IsPass, IsFreeSystem, IsTangent, Matrix;
    var free, s :| p.Reduces(x, free, s) && Square(s, |free|) && Eliminated(s, |free|, |free|).Some?;
    if p.Sticks(x) {
      var free', s' :| p.Reduces(x, free', s') && Square(s', |free'|) && Eliminated(s', |free'|, |free'|).None?;
      ReducedDetermined(p, x, free, s, free', s');
    }
  }

  lemma StickExcludes(p: Problem, x: Pass)
    requires p.Valid() && p.Sticks(x)
    ensures x.norm > Allowance(p.m, p.load) && p.IsPass(x)
  {
    hide Allowance, Eliminated, Problem.IsPass;
  }

  /** Two courses of one problem agree as far as both go, and the shorter one stops at a trial of the longer. */
  lemma {:induction false} CoursesAgree(p: Problem, a: seq<Pass>, qa: seq<real>, b: seq<Pass>, qb: seq<real>, k: nat)
    requires p.Valid() && p.Course(a, qa) && p.Course(b, qb) && k <= |a| && k <= |b|
    ensures a[..k] == b[..k]
    ensures (if k < |a| then a[k].q else qa) == (if k < |b| then b[k].q else qb)
    decreases k
  {
    hide Problem.IsPass, Problem.Leads;
    if k > 0 {
      CoursesAgree(p, a, qa, b, qb, k - 1);
      PassDetermined(p, a[k - 1], b[k - 1]);
      assert a[..k] == a[..k - 1] + [a[k - 1]] && b[..k] == b[..k - 1] + [b[k - 1]];
      LeadDetermined(p, a[k - 1], if k < |a| then a[k].q else qa, if k < |b| then b[k].q else qb);
    }
  }

  /** A run that ended is not a proper part of another. */
  lemma SameLength(p: Problem, t: Trace, r: Result<Accepted, KernelError>, t': Trace, r': Result<Accepted, KernelError>)
    requires p.Valid() && p.Ends(t, r) && p.Ends(t', r')
    ensures |t.passes| >= |t'.passes|
  {
    hide Problem.IsPass, Problem.Leads, Problem.Sticks, Allowance;
    var k := |t.passes|;
    if k < |t'.passes| {
      CoursesAgree(p, t.passes, t.q, t'.passes, t'.q, k);
      var x := t'.passes[k];
      LeadExcludes(p, x, if k + 1 < |t'.passes| then t'.passes[k + 1].q else t'.q);
      ForceOf(p, x);
      EndsLate(p, t', r');
      match r {
        case Ok(_) => PassDetermined(p, x, t.last);
        case Err(SingularMatrix) =>
          StickExcludes(p, t.last);
          PassDetermined(p, x, t.last);
        case Err(_) =>
      }
    }
  }

  lemma EndsLate(p: Problem, t: Trace, r: Result<Accepted, KernelError>)
    requires p.Valid() && p.Ends(t, r)
    ensures |t.passes| <= p.m.maxNewton
  {
    hide Problem.IsPass, Problem.Leads, Problem.Sticks, Problem.Course, Allowance;
  }

  /** The problem alone decides how the loop ends: with which trial, after how many passes, or with which error. */
  lemma OutcomeIsDetermined(p: Problem, t: Trace, r: Result<Accepted, KernelError>, t': Trace,
                            r': Result<Accepted, KernelError>)
    requires p.Valid() && p.Ends(t, r) && p.Ends(t', r')
    ensures r == r' && t.passes == t'.passes && t.q == t'.q
  {
    hide Problem.IsPass, Problem.Leads, Problem.Sticks, Problem.Course, Allowance;
    SameLength(p, t, r, t', r');
    SameLength(p, t', r', t, r);
    var k := |t.passes|;
    CoursesAgree(p, t.passes, t.q, t'.passes, t'.q, k);
    assert t.passes[..k] == t.passes && t'.passes[..k] == t'.passes;
    EndPass(p, t, r);
    EndPass(p, t', r');
    if p.IsPass(t.last) && t.last.q == t.q && p.IsPass(t'.last) && t'.last.q == t'.q {
      PassDetermined(p, t.last, t'.last);
    }
  }

  /** Unless the passes are used up, the run stopped at a trial without force, or at a pass that sticks or is
      accepted. */
  lemma EndPass(p: Problem, t: Trace, r: Result<Accepted, KernelError>)
    requires p.Valid() && p.Ends(t, r)
    ensures r.Ok? ==> HasForce(p.m, t.q) && t.last.norm <= Allowance(p.m, p.load) && p.IsPass(t.last)
    ensures r == Err(SingularMatrix) ==>
      HasForce(p.m, t.q) && t.last.norm > Allowance(p.m, p.load) && p.IsPass(t.last)
  {
    hide Problem.IsPass, Problem.Leads, Problem.Sticks, Problem.Course, Allowance, HasForce;
    if r.Ok? {
      ForceOf(p, t.last);
    } else if r == Err(SingularMatrix) {
      StickExcludes(p, t.last);
      ForceOf(p, t.last);
    }
  }

  lemma AllowanceNonnegative(m: Model, load: seq<real>)
    requires m.tolerance >= 0.0
    ensures Allowance(m, load) >= 0.0
  {
    LoadScaleIsLargest(load, |load|);
  }

  lemma TrialShape(m: Model, mass: seq<seq<real>>, damping: seq<seq<real>>, load: seq<real>, predicted: seq<real>,
                   predictedRate: seq<real>, q: seq<real>, v: seq<real>, a: seq<real>, internal: seq<real>,
                   r: seq<real>)
    requires Steppable(m) && Trial(m, mass, damping, load, predicted, predictedRate, q, v, a, internal, r)
    ensures |q| == |v| == |a| == |internal| == |r| == m.Ndof()
  {
  }

  /** The predictor is the reference line at rest and nothing loads it. */
  ghost predicate Resting(m: Model, load: seq<real>, predicted: seq<real>, predictedRate: seq<real>, start: seq<real>)
    requires m.Valid()
  {
    && IsReference(start, SectionOf(m).le, m.elements + 1) && predicted == start
    && predictedRate == load == Zeros(m.Ndof()) && m.maxNewton >= 1 && m.tolerance >= 0.0
  }

  lemma RestDimensions(m: Model, q: seq<real>, v: seq<real>, a: seq<real>, baseLoad: seq<real>, force: seq<real>)
    requires Steppable(m) && AtRest(m, q, v, a, baseLoad, force)
    ensures |q| == m.Ndof() && |force| == 3 * m.slices && m.SlicesInside()
  {
    RestRegular(m, q);
  }

  lemma RestRests(m: Model, q: seq<real>, v: seq<real>, a: seq<real>, baseLoad: seq<real>, force: seq<real>,
                  rows: seq<seq<real>>, load: seq<real>, predicted: seq<real>, predictedRate: seq<real>,
                  start: seq<real>)
    requires Steppable(m) && AtRest(m, q, v, a, baseLoad, force) && m.SlicesInside() && |force| == 3 * m.slices
    requires IsPredictor(m, q, v, a, predicted, predictedRate, start)
    ensures IsLoad(m, baseLoad, force, rows, load) ==>
      Resting(m, load, predicted, predictedRate, start) && start == q
  {
    hide IsLoad, IsReference;
    RestStart(m, q, v, a, baseLoad, force, predicted, predictedRate, start);
    RestLoad(m, baseLoad, force, rows, load);
  }

  /** The fields of the state a step reads. */
  datatype Start = Start(
    q: seq<real>, v: seq<real>, a: seq<real>, baseLoad: seq<real>, mass: seq<seq<real>>, damping: seq<seq<real>>)

  /** What an accepted step satisfies: both Newmark relations at every coordinate, held coordinates where they were,
      the load of base and slices, and the free residual within the allowance. */
  ghost predicate Lands(
    m: Model, s: Start, force: seq<real>, x: Accepted, load: seq<real>, rows: seq<seq<real>>, internal: seq<real>)
    requires Steppable(m) && |s.q| == |s.v| == |s.a| == |s.baseLoad| == m.Ndof()
    requires Matrix(s.mass, m.Ndof()) && Matrix(s.damping, m.Ndof())
  {
    && NewmarkAll(m, s.q, s.v, s.a, x.q, x.v, x.a)
    && (forall i: nat :: i < m.Ndof() && Fixed(m, i) ==> x.q[i] == s.q[i])
    && |force| == 3 * m.slices && m.SlicesInside() && IsLoad(m, s.baseLoad, force, rows, load)
    && Balanced(m, s.mass, s.damping, load, x.q, x.v, x.a, internal)
    && 1 <= x.iterations <= m.maxNewton && x.norm <= Allowance(m, load)
  }

  /** The state is of the model's size and every slice lies on the line with its force. */
  ghost predicate Posed(m: Model, s: Start, force: seq<real>)
    requires m.Valid()
  {
    |s.q| == m.Ndof() && |force| == 3 * m.slices && m.SlicesInside()
  }

  /** The Newton loop ran on what the state, its load and its predictor pose, and ended with `r`. */
  ghost predicate LoopRan(m: Model, s: Start, force: seq<real>, rows: seq<seq<real>>, p: Problem, trace: Trace,
                         r: Result<Accepted, KernelError>)
    requires Steppable(m) && Posed(m, s, force) && |s.baseLoad| == m.Ndof()
  {
    && p.m == m && p.mass == s.mass && p.damping == s.damping && IsLoad(m, s.baseLoad, force, rows, p.load)
    && IsPredictor(m, s.q, s.v, s.a, p.predicted, p.predictedRate, p.start)
    && p.Valid() && p.Ends(trace, r)
  }

  /** The step up to the point where the state is written. */
  method SolveStep(state: State, m: Model, force: seq<real>)
    returns (r: Result<Accepted, KernelError>, ghost rows: seq<seq<real>>, ghost p: Problem, ghost trace: Trace)
    requires Steppable(m) && state.Regular(m.Ndof())
    ensures r == Err(StateDimensions) <==> |state.q| != m.Ndof()
    ensures r == Err(ForceDimensions) <==> |state.q| == m.Ndof() && |force| != 3 * m.slices
    ensures r == Err(SliceOutsideLine) <==> |state.q| == m.Ndof() && |force| == 3 * m.slices && !m.SlicesInside()
    ensures var s := Start(state.q, state.qdot, state.qddot, state.baseLoad, state.mass, state.damping);
      && (Posed(m, s, force) ==> LoopRan(m, s, force, rows, p, trace, r))
      && (r.Ok? ==> |state.q| == m.Ndof() && Lands(m, s, force, r.value, p.load, rows, trace.last.internal))
    ensures AtRest(m, state.q, state.qdot, state.qddot, state.baseLoad, force) ==>
      r.Ok? && r.value.iterations == 1 && r.value.q == state.q
  {
    hide Assembled, Trial, Balanced, Allowance, IsLoad, IsReference, NewmarkAll, Fixed, Abs, Predicted, PredictedRate,
         SectionOf, Matrix, Resting, AtRest, Problem.Ends;
    rows, p, trace := [], Problem(m, [], [], [], [], [], []), Trace([], [], NO_PASS);
    if AtRest(m, state.q, state.qdot, state.qddot, state.baseLoad, force) {
      RestDimensions(m, state.q, state.qdot, state.qddot, state.baseLoad, force);
    }
    if |state.q| != m.Ndof() {
      return Err(StateDimensions), rows, p, trace;
    }
    var formed;
    formed, rows := FormLoad(m, state.baseLoad, force);
    if formed.Err? {
      return Err(formed.error), rows, p, trace;
    }
    LoadShape(m, state.baseLoad, force, rows, formed.value);
    var predicted, predictedRate, start := Predictor(m, state.q, state.qdot, state.qddot);
    if AtRest(m, state.q, state.qdot, state.qddot, state.baseLoad, force) {
      RestRests(m, state.q, state.qdot, state.qddot, state.baseLoad, force, rows, formed.value, predicted,
                predictedRate, start);
    }
    var problem := Problem(m, state.mass, state.damping, formed.value, predicted, predictedRate, start);
    p := problem;
    r, trace := NewtonLoop(problem);
    EndsInLoop(p, trace, r);
    if r.Ok? {
      ghost var s := Start(state.q, state.qdot, state.qddot, state.baseLoad, state.mass, state.damping);
      AcceptedLands(m, s, force, rows, p, trace, r.value);
    }
  }

  lemma EndsInLoop(p: Problem, trace: Trace, r: Result<Accepted, KernelError>)
    requires p.Valid() && p.Ends(trace, r)
    ensures r.Err? ==> r.error in {DegenerateTangent, SingularMatrix, NotConverged}
    ensures r.Ok? ==> p.Accepts(trace, r.value)
  {
    hide Problem.Course, Problem.Accepts, Problem.IsPass, Problem.Reduces, Assembled;
  }

  lemma AcceptedLands(m: Model, s: Start, force: seq<real>, rows: seq<seq<real>>, p: Problem, trace: Trace, x: Accepted)
    requires Steppable(m) && Posed(m, s, force) && |s.v| == |s.a| == |s.baseLoad| == m.Ndof() && p.Valid()
    requires p.m == m && p.mass == s.mass && p.damping == s.damping && IsLoad(m, s.baseLoad, force, rows, p.load)
    requires IsPredictor(m, s.q, s.v, s.a, p.predicted, p.predictedRate, p.start) && p.Accepts(trace, x)
    requires forall i: nat :: i < m.Ndof() && Fixed(m, i) ==> |x.q| == m.Ndof() && x.q[i] == p.start[i]
    ensures Lands(m, s, force, x, p.load, rows, trace.last.internal)
  {
    hide Assembled, Trial, Balanced, Allowance, IsLoad, NewmarkAll, Fixed, Abs, Predicted, PredictedRate, SectionOf;
    var last := trace.last;
    TrialIsNewmark(m, p.mass, p.damping, p.load, s.q, s.v, s.a, p.predicted, p.predictedRate, p.start, last.q, last.v,
                   last.a, last.internal, last.r);
    TrialBalances(m, p.mass, p.damping, p.load, p.predicted, p.predictedRate, last.q, last.v, last.a, last.internal,
                  last.r, last.norm);
  }

  /**
   One time step. On success the state meets both Newmark relations at every coordinate, keeps the
   held coordinates, balances the load within tolerance and counts one step; on any error it is
   exactly as before. Every iterate follows from the one before by the tangent assembled there.
   */
  method Advance(state: State, m: Model, force: seq<real>)
    returns (r: Result<Diagnostics, KernelError>, ghost rows: seq<seq<real>>, ghost p: Problem, ghost trace: Trace)
    requires Steppable(m) && state.Regular(m.Ndof())
    modifies state
    ensures r.Err? ==> unchanged(state)
    ensures unchanged(state`baseLoad, state`mass, state`damping)
    ensures r == Err(StateDimensions) <==> |old(state.q)| != m.Ndof()
    ensures r == Err(ForceDimensions) <==> |old(state.q)| == m.Ndof() && |force| != 3 * m.slices
    ensures r == Err(SliceOutsideLine) <==> |old(state.q)| == m.Ndof() && |force| == 3 * m.slices && !m.SlicesInside()
    ensures var s := old(Start(state.q, state.qdot, state.qddot, state.baseLoad, state.mass, state.damping));
      Posed(m, s, force) ==> LoopRan(m, s, force, rows, p, trace,
        if r.Err? then Err(r.error)
        else Ok(Accepted(state.q, state.qdot, state.qddot, r.value.initialResidual, state.residual, state.iterations)))
    ensures r.Ok? ==>
      var s := old(Start(state.q, state.qdot, state.qddot, state.baseLoad, state.mass, state.damping));
      && |s.q| == m.Ndof() && state.step == old(state.step) + 1 && state.time == old(state.time) + m.dt
      && state.iterations == r.value.iterations && state.residual == r.value.residual && r.value.converged
      && Lands(m, s, force,
               Accepted(state.q, state.qdot, state.qddot, r.value.initialResidual, state.residual, state.iterations),
               p.load, rows, trace.last.internal)
    ensures AtRest(m, old(state.q), old(state.qdot), old(state.qddot), old(state.baseLoad), force) ==>
      r.Ok? && r.value.iterations == 1 && state.q == old(state.q)
  {
    hide Lands, AtRest, Matrix, LoopRan, Model.SlicesInside;
    var solved;
    solved, rows, p, trace := SolveStep(state, m, force);
    if solved.Err? {
      return Err(solved.error), rows, p, trace;
    }
    var x := solved.value;
    state.qddot := x.a;
    state.qdot := x.v;
    state.q := x.q;
    state.time := state.time + m.dt;
    state.step := state.step + 1;
    state.residual := x.norm;
    state.iterations := x.iterations;
    return Ok(Diagnostics(x.initial, x.norm, x.iterations, true)), rows, p, trace;
  }

  lemma LoadShape(m: Model, baseLoad: seq<real>, force: seq<real>, rows: seq<seq<real>>, load: seq<real>)
    requires m.Valid() && m.SlicesInside() && |force| == 3 * m.slices && |baseLoad| == m.Ndof()
    ensures IsLoad(m, baseLoad, force, rows, load) ==> |load| == m.Ndof()
  {
  }
}
