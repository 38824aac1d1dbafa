/**
 The generalized force `Q = sum_i H_i^T F_i` of integrated slice forces, as the Python mapping and
 the C++ kernel accumulate it, and what it conserves: virtual work against every displacement,
 and with Hermite row blocks every moment of the slice forces up to the third.
 */
module ForceMapping {
  import opened Wrappers
  import opened Vectors
  import opened Hermite

  datatype ForceError = HKeys | ForceKeys | HShape | DofCount | ForceShape | DeltaShape

  /** Row block and force of one slice. */
  datatype Slice = Slice(h: seq<seq<real>>, force: seq<real>)

  ghost predicate WellShaped(slices: seq<Slice>, ndof: nat) {
    forall i :: 0 <= i < |slices| ==>
      |slices[i].h| == 3 == |slices[i].force| && forall r :: 0 <= r < 3 ==> |slices[i].h[r]| == ndof
  }

  /** `H^T F` of one slice. */
  function Contribution(h: seq<seq<real>>, force: seq<real>, ndof: nat): (q: seq<real>)
    requires |h| == 3 == |force| && forall r :: 0 <= r < 3 ==> |h[r]| == ndof
    ensures |q| == ndof
  {
    seq(ndof, j requires 0 <= j < ndof => h[0][j] * force[0] + h[1][j] * force[1] + h[2][j] * force[2])
  }

  function Plus(u: seq<real>, v: seq<real>): (w: seq<real>)
    requires |u| == |v|
    ensures |w| == |u|
  {
    seq(|u|, j requires 0 <= j < |u| => u[j] + v[j])
  }

  ghost function Generalized(slices: seq<Slice>, ndof: nat, n: nat): (q: seq<real>)
    requires WellShaped(slices, ndof) && n <= |slices|
    ensures |q| == ndof
    decreases n
  {
    if n == 0 then Zeros(ndof)
    else Plus(Generalized(slices, ndof, n - 1), Contribution(slices[n - 1].h, slices[n - 1].force, ndof))
  }

  /** Work of the slice forces over the interpolated slice displacements. */
  ghost function SliceWork(slices: seq<Slice>, dq: seq<real>, n: nat): real
    requires WellShaped(slices, |dq|) && n <= |slices|
    decreases n
  {
    if n == 0 then 0.0 else SliceWork(slices, dq, n - 1) + OneWork(slices[n - 1].h, slices[n - 1].force, dq)
  }

  function OneWork(h: seq<seq<real>>, force: seq<real>, dq: seq<real>): real
    requires |h| == 3 == |force| && forall r :: 0 <= r < 3 ==> |h[r]| == |dq|
  {
    PartialWork(h, force, dq, |dq|)
  }

  function PartialWork(h: seq<seq<real>>, force: seq<real>, dq: seq<real>, hi: nat): real
    requires |h| == 3 == |force| && (forall r :: 0 <= r < 3 ==> |h[r]| == |dq|) && hi <= |dq|
  {
    force[0] * Dot(h[0], dq, 0, hi) + force[1] * Dot(h[1], dq, 0, hi) + force[2] * Dot(h[2], dq, 0, hi)
  }

  function Scaled(u: seq<real>, f: real): (w: seq<real>)
    ensures |w| == |u| && forall j :: 0 <= j < |u| ==> w[j] == u[j] * f
  {
    seq(|u|, j requires 0 <= j < |u| => u[j] * f)
  }

  lemma ContributionWork(h: seq<seq<real>>, force: seq<real>, dq: seq<real>, hi: nat)
    requires |h| == 3 == |force| && (forall r :: 0 <= r < 3 ==> |h[r]| == |dq|) && hi <= |dq|
    ensures Dot(Contribution(h, force, |dq|), dq, 0, hi) == PartialWork(h, force, dq, hi)
  {
    hide Dot;
    var a, b, c := Scaled(h[0], force[0]), Scaled(h[1], force[1]), Scaled(h[2], force[2]);
    DotScale(h[0], force[0], a, dq, 0, hi);
    DotScale(h[1], force[1], b, dq, 0, hi);
    DotScale(h[2], force[2], c, dq, 0, hi);
    DotSum(a, b, Plus(a, b), dq, 0, hi);
    DotSum(Plus(a, b), c, Contribution(h, force, |dq|), dq, 0, hi);
  }

  /** Virtual work: the generalized force does the work of the slice forces, for every displacement. */
  lemma {:induction false} VirtualWork(slices: seq<Slice>, dq: seq<real>, n: nat)
    requires WellShaped(slices, |dq|) && n <= |slices|
    ensures Dot(Generalized(slices, |dq|, n), dq, 0, |dq|) == SliceWork(slices, dq, n)
    decreases n
  {
    var ndof := |dq|;
    if n == 0 {
      DotZero(Zeros(ndof), dq, 0, ndof);
    } else {
      VirtualWork(slices, dq, n - 1);
      var c := Contribution(slices[n - 1].h, slices[n - 1].force, ndof);
      DotSum(Generalized(slices, ndof, n - 1), c, Generalized(slices, ndof, n), dq, 0, ndof);
      ContributionWork(slices[n - 1].h, slices[n - 1].force, dq, ndof);
    }
  }

  // ----- conservation with Hermite row blocks

  /** Every slice's block is the Hermite block at its position on the mesh. */
  ghost predicate OnMesh(slices: seq<Slice>, positions: seq<real>, nodes: seq<real>, ndof: nat) {
    && ValidMesh(nodes) && 6 * |nodes| <= ndof && |positions| == |slices| && WellShaped(slices, ndof)
    && forall i :: 0 <= i < |slices| ==>
      && nodes[0] <= positions[i] <= nodes[|nodes| - 1]
      && forall c :: 0 <= c < 3 ==> slices[i].h[c] == PythonRow(nodes, positions[i], c, ndof)
  }

  /** Forces in direction `c` weighted by one displacement per slice. */
  ghost function ForceMoment(slices: seq<Slice>, u: seq<real>, c: nat, n: nat): real
    requires n <= |slices| == |u| && c < 3 && forall i :: 0 <= i < |slices| ==> |slices[i].force| == 3
    decreases n
  {
    if n == 0 then 0.0 else ForceMoment(slices, u, c, n - 1) + slices[n - 1].force[c] * u[n - 1]
  }

  /** Nodal forces in direction `c`: position entries weighted by values, slope entries by slopes. */
  ghost function NodalMoment(q: seq<real>, values: seq<real>, slopes: seq<real>, c: nat, n: nat): real
    requires n <= |values| == |slopes| && 6 * |values| <= |q| && c < 3
    decreases n
  {
    if n == 0 then 0.0
    else NodalMoment(q, values, slopes, c, n - 1) + NodalTerm(q, values[n - 1], slopes[n - 1], 6 * (n - 1), c)
  }

  function NodalTerm(q: seq<real>, value: real, slope: real, base: nat, c: nat): real
    requires base + 6 <= |q| && c < 3
  {
    q[base + c] * value + q[base + 3 + c] * slope
  }

  /**
   The mapping conserves every moment of the load up to the third: for any mesh and any slices
   inside it, the nodal forces and the slice forces have the same moment against every cubic field.
   */
  lemma MomentsConserved(slices: seq<Slice>, positions: seq<real>, nodes: seq<real>, p: Cubic, c: nat, ndof: nat)
    requires OnMesh(slices, positions, nodes, ndof) && c < 3
    ensures NodalMoment(Generalized(slices, ndof, |slices|), ValuesOf(nodes, p), SlopesOf(nodes, p), c, |nodes|)
         == ForceMoment(slices, ValuesOf(positions, p), c, |slices|)
  {
    var values, slopes := ValuesOf(nodes, p), SlopesOf(nodes, p);
    var dq := NodalField(values, slopes, c, ndof);
    var q := Generalized(slices, ndof, |slices|);
    VirtualWork(slices, dq, |slices|);
    forall i, d | 0 <= i < |slices| && 0 <= d < 3
      ensures Dot(slices[i].h[d], dq, 0, ndof) == if c == d then ValuesOf(positions, p)[i] else 0.0
    {
      HReproducesCubic(nodes, positions[i], c, d, p, ndof);
    }
    WorkIsMoment(slices, dq, ValuesOf(positions, p), c, |slices|);
    FieldWork(q, values, slopes, c, |nodes|);
    DotSplit(q, dq, 0, 6 * |nodes|, ndof);
    DotSymmetric(q, dq, 6 * |nodes|, ndof);
    DotZero(dq, q, 6 * |nodes|, ndof);
  }

  /** Blocks that read `u` in direction `c` only turn slice work into a force moment. */
  lemma {:induction false} WorkIsMoment(slices: seq<Slice>, dq: seq<real>, u: seq<real>, c: nat, n: nat)
    requires WellShaped(slices, |dq|) && n <= |slices| == |u| && c < 3
    requires forall i, d :: 0 <= i < |slices| && 0 <= d < 3 ==>
      Dot(slices[i].h[d], dq, 0, |dq|) == if c == d then u[i] else 0.0
    ensures SliceWork(slices, dq, n) == ForceMoment(slices, u, c, n)
    decreases n
  {
    if n > 0 {
      WorkIsMoment(slices, dq, u, c, n - 1);
      assert OneWork(slices[n - 1].h, slices[n - 1].force, dq) == slices[n - 1].force[c] * u[n - 1];
    }
  }

  lemma {:induction false} FieldWork(q: seq<real>, values: seq<real>, slopes: seq<real>, c: nat, n: nat)
    requires n <= |values| == |slopes| && 6 * |values| <= |q| && c < 3
    ensures Dot(q, NodalField(values, slopes, c, |q|), 0, 6 * n) == NodalMoment(q, values, slopes, c, n)
    decreases n
  {
    hide NodalField, NodalMoment, NodalTerm, Dot;
    NodalNext(q, values, slopes, c, n);
    if n > 0 {
      FieldWork(q, values, slopes, c, n - 1);
      NodalAt(values, slopes, c, |q|, n - 1, 0);
      NodalAt(values, slopes, c, |q|, n - 1, 1);
      NodalAt(values, slopes, c, |q|, n - 1, 2);
      SixTerms(q, NodalField(values, slopes, c, |q|), 6 * (n - 1), c, values[n - 1], slopes[n - 1]);
    } else {
      NoTerms(q, NodalField(values, slopes, c, |q|));
    }
  }

  lemma NodalNext(q: seq<real>, values: seq<real>, slopes: seq<real>, c: nat, n: nat)
    requires n <= |values| == |slopes| && 6 * |values| <= |q| && c < 3
    ensures NodalMoment(q, values, slopes, c, 0) == 0.0
    ensures n > 0 ==>
      NodalMoment(q, values, slopes, c, n)
      == NodalMoment(q, values, slopes, c, n - 1) + NodalTerm(q, values[n - 1], slopes[n - 1], 6 * (n - 1), c)
  {
    hide NodalTerm;
  }

  lemma NoTerms(q: seq<real>, dq: seq<real>)
    ensures Dot(q, dq, 0, 0) == 0.0
  {
  }

  lemma SixTerms(q: seq<real>, dq: seq<real>, base: nat, c: nat, value: real, slope: real)
    requires |q| == |dq| && base + 6 <= |q| && c < 3
    requires dq[base] == (if c == 0 then value else 0.0) && dq[base + 3] == (if c == 0 then slope else 0.0)
    requires dq[base + 1] == (if c == 1 then value else 0.0) && dq[base + 4] == (if c == 1 then slope else 0.0)
    requires dq[base + 2] == (if c == 2 then value else 0.0) && dq[base + 5] == (if c == 2 then slope else 0.0)
    ensures Dot(q, dq, 0, base + 6) == Dot(q, dq, 0, base) + NodalTerm(q, value, slope, base, c)
  {
    assert Dot(q, dq, 0, base + 2) == Dot(q, dq, 0, base) + q[base] * dq[base] + q[base + 1] * dq[base + 1];
    assert Dot(q, dq, 0, base + 4) == Dot(q, dq, 0, base + 2) + q[base + 2] * dq[base + 2] + q[base + 3] * dq[base + 3];
  }

  /** The total force and the total first moment of the load. */
  lemma ForceAndFirstMomentConserved(slices: seq<Slice>, positions: seq<real>, nodes: seq<real>, c: nat, ndof: nat)
    requires OnMesh(slices, positions, nodes, ndof) && c < 3
    ensures var q := Generalized(slices, ndof, |slices|);
      && NodalMoment(q, Ones(|nodes|), Zeros(|nodes|), c, |nodes|) == ForceMoment(slices, Ones(|slices|), c, |slices|)
      && NodalMoment(q, nodes, Ones(|nodes|), c, |nodes|) == ForceMoment(slices, positions, c, |slices|)
  {
    hide NodalMoment, ForceMoment, Generalized;
    MomentsConserved(slices, positions, nodes, Cubic(1.0, 0.0, 0.0, 0.0), c, ndof);
    assert ValuesOf(nodes, Cubic(1.0, 0.0, 0.0, 0.0)) == Ones(|nodes|);
    assert SlopesOf(nodes, Cubic(1.0, 0.0, 0.0, 0.0)) == Zeros(|nodes|);
    assert ValuesOf(positions, Cubic(1.0, 0.0, 0.0, 0.0)) == Ones(|slices|);
    MomentsConserved(slices, positions, nodes, Cubic(0.0, 1.0, 0.0, 0.0), c, ndof);
    assert ValuesOf(nodes, Cubic(0.0, 1.0, 0.0, 0.0)) == nodes;
    assert SlopesOf(nodes, Cubic(0.0, 1.0, 0.0, 0.0)) == Ones(|nodes|);
    assert ValuesOf(positions, Cubic(0.0, 1.0, 0.0, 0.0)) == positions;
  }

  function Ones(n: nat): (z: seq<real>)
    ensures |z| == n
  {
    seq(n, _ => 1.0)
  }

  // ----- the Python accumulation

  datatype Work = Work(slice: real, generalized: real, errorAbs: real)

  datatype GeneralizedForce = GeneralizedForce(generalized: seq<real>, contributions: map<nat, seq<real>>,
                                               work: Option<Work>)

  function Ids(n: nat): (s: set<nat>)
    ensures forall i: nat :: i in s <==> i < n
  {
    if n == 0 then {} else Ids(n - 1) + {n - 1}
  }

  /** Three rows of one positive length. */
  predicate Block(h: seq<seq<real>>) {
    |h| == 3 && |h[0]| > 0 && |h[1]| == |h[0]| == |h[2]|
  }

  function SliceList(h: map<nat, seq<seq<real>>>, force: map<nat, seq<real>>, n: nat): (s: seq<Slice>)
    requires h.Keys == force.Keys == Ids(n)
    ensures |s| == n
  {
    seq(n, i requires 0 <= i < n => Slice(h[i], force[i]))
  }

  /** The first check that fails: keys, then every block, then the dof count, then every force, then the
      displacement. */
  function FirstDefect(n: nat, h: map<nat, seq<seq<real>>>, force: map<nat, seq<real>>, deltaQ: Option<seq<real>>):
    Option<ForceError>
    requires n > 0
  {
    var defect := InputDefect(n, h, force);
    if defect.Some? then defect
    else if deltaQ.Some? && |deltaQ.value| != |h[0][0]| then Some(DeltaShape)
    else None
  }

  function InputDefect(n: nat, h: map<nat, seq<seq<real>>>, force: map<nat, seq<real>>): (defect: Option<ForceError>)
    requires n > 0
    ensures defect.None? ==> h.Keys == force.Keys == Ids(n) && Block(h[0])
  {
    if h.Keys != Ids(n) then Some(HKeys)
    else if force.Keys != Ids(n) then Some(ForceKeys)
    else if exists i: nat :: i < n && !Block(h[i]) then Some(HShape)
    else if exists i: nat :: i < n && |h[i][0]| != |h[0][0]| then Some(DofCount)
    else if exists i: nat :: i < n && |force[i]| != 3 then Some(ForceShape)
    else None
  }

  /**
   Accumulates `Q` slice by slice, keeps every contribution, and audits virtual work when a
   displacement is given; otherwise reports the first check that fails. In exact arithmetic the
   audit always closes.
   */
  method MapIntegratedSliceForces(n: nat, h: map<nat, seq<seq<real>>>, force: map<nat, seq<real>>,
                                  deltaQ: Option<seq<real>>)
      returns (r: Result<GeneralizedForce, ForceError>)
    requires n > 0
    ensures match FirstDefect(n, h, force, deltaQ)
      case Some(defect) => r == Err(defect)
      case None => r.Ok?
    ensures r.Ok? ==>
      && h.Keys == force.Keys == Ids(n)
      && var s, q := SliceList(h, force, n), r.value.generalized;
      && |q| > 0 && WellShaped(s, |q|) && q == Generalized(s, |q|, n)
      && r.value.contributions.Keys == Ids(n)
      && (forall i: nat :: i < n ==> r.value.contributions[i] == Contribution(s[i].h, s[i].force, |q|))
      && r.value.work.Some? == deltaQ.Some?
      && (deltaQ.Some? ==>
           && |deltaQ.value| == |q|
           && r.value.work == Some(Work(SliceWork(s, deltaQ.value, n), SliceWork(s, deltaQ.value, n), 0.0)))
  {
    hide Generalized, SliceWork, Dot, Contribution, InputDefect;
    var defect := CheckInput(n, h, force);
    if defect.Some? {
      return Err(defect.value);
    }
    var ndof := |h[0][0]|;
    InputIsShaped(n, h, force);
    var s := SliceList(h, force, n);
    var q, contributions := Accumulate(s, ndof);
    var work := None;
    if deltaQ.Some? {
      if |deltaQ.value| != ndof {
        return Err(DeltaShape);
      }
      var slice := SumSliceWork(s, deltaQ.value);
      var generalized := Dot(deltaQ.value, q, 0, ndof);
      DotSymmetric(deltaQ.value, q, 0, ndof);
      VirtualWork(s, deltaQ.value, n);
      work := Some(Work(slice, generalized, Abs(slice - generalized)));
    }
    r := Ok(GeneralizedForce(q, contributions, work));
  }

  lemma InputIsShaped(n: nat, h: map<nat, seq<seq<real>>>, force: map<nat, seq<real>>)
    requires n > 0 && InputDefect(n, h, force).None?
    ensures WellShaped(SliceList(h, force, n), |h[0][0]|)
  {
  }

  method CheckInput(n: nat, h: map<nat, seq<seq<real>>>, force: map<nat, seq<real>>)
      returns (defect: Option<ForceError>)
    requires n > 0
    ensures defect == InputDefect(n, h, force)
  {
    if h.Keys != Ids(n) {
      return Some(HKeys);
    }
    if force.Keys != Ids(n) {
      return Some(ForceKeys);
    }
    for i: nat := 0 to n
      invariant forall k: nat :: k < i ==> Block(h[k])
    {
      if !Block(h[i]) {
        return Some(HShape);
      }
    }
    for i: nat := 0 to n
      invariant forall k: nat :: k < i ==> |h[k][0]| == |h[0][0]|
    {
      if |h[i][0]| != |h[0][0]| {
        return Some(DofCount);
      }
    }
    for i: nat := 0 to n
      invariant forall k: nat :: k < i ==> |force[k]| == 3
    {
      if |force[i]| != 3 {
        return Some(ForceShape);
      }
    }
    return None;
  }

  method Accumulate(s: seq<Slice>, ndof: nat) returns (q: seq<real>, contributions: map<nat, seq<real>>)
    requires WellShaped(s, ndof)
    ensures q == Generalized(s, ndof, |s|)
    ensures contributions.Keys == Ids(|s|)
    ensures forall i: nat :: i < |s| ==> contributions[i] == Contribution(s[i].h, s[i].force, ndof)
  {
    hide Contribution;
    var generalized := new real[ndof](_ => 0.0);
    contributions := map[];
    for i: nat := 0 to |s|
      invariant generalized[..] == Generalized(s, ndof, i)
      invariant contributions.Keys == Ids(i)
      invariant forall k: nat :: k < i ==> contributions[k] == Contribution(s[k].h, s[k].force, ndof)
    {
      var contribution := Contribution(s[i].h, s[i].force, ndof);
      contributions := contributions[i := contribution];
      AddInto(generalized, contribution);
    }
    q := generalized[..];
  }

  method AddInto(generalized: array<real>, contribution: seq<real>)
    requires generalized.Length == |contribution|
    modifies generalized
    ensures generalized[..] == Plus(old(generalized[..]), contribution)
  {
    for column := 0 to generalized.Length
      invariant forall j :: 0 <= j < column ==> generalized[j] == old(generalized[j]) + contribution[j]
      invariant forall j :: column <= j < generalized.Length ==> generalized[j] == old(generalized[j])
    {
      generalized[column] := generalized[column] + contribution[column];
    }
  }

  method SumSliceWork(s: seq<Slice>, dq: seq<real>) returns (w: real)
    requires WellShaped(s, |dq|)
    ensures w == SliceWork(s, dq, |s|)
  {
    w := 0.0;
    for i := 0 to |s|
      invariant w == SliceWork(s, dq, i)
    {
      w := w + OneWork(s[i].h, s[i].force, dq);
    }
  }
}
