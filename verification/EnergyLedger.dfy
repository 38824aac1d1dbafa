/**
 The energy ledger of a coupled run, kept twice: by the online driver while it runs, and by the
 offline audit from the rows the driver wrote. Both integrate power by right-endpoint rectangles.
 */
module EnergyLedger {
  import opened Wrappers
  import opened Vec3
  import Vectors

  // ----- increments and totals

  /** The work of one step: power times time step, and the change of stored energy. */
  datatype Increment = Increment(
    cfd: real, structure: real, defect: real, projection: real, temporal: real, damping: real, delta: real,
    balance: real)

  datatype Totals = Totals(
    cfd: real, structure: real, defect: real, projection: real, temporal: real, damping: real, balance: real)

  const NOTHING := Totals(0.0, 0.0, 0.0, 0.0, 0.0, 0.0, 0.0)

  function Plus(t: Totals, i: Increment): Totals {
    Totals(t.cfd + i.cfd, t.structure + i.structure, t.defect + i.defect, t.projection + i.projection,
           t.temporal + i.temporal, t.damping + i.damping, t.balance + i.balance)
  }

  function Total(increments: seq<Increment>): Totals {
    if increments == [] then NOTHING else Plus(Total(increments[..|increments| - 1]), increments[|increments| - 1])
  }

  function Difference(a: V3, b: V3): V3 {
    V3(a.x - b.x, a.y - b.y, a.z - b.z)
  }

  /** The work a power does over one time step, by the right endpoint. */
  function Work(power: real, dt: real): real {
    power * dt
  }

  function TimeAt(step: int, dt: real): real {
    step as real * dt
  }

  /** The increment of a step from its forces, velocities, damping power and stored energies. */
  function Step(raw: V3, applied: V3, predicted: V3, corrected: V3, damping: real, stored: real, before: real,
      dt: real): Increment {
    var cfd, structure := Inner(raw, predicted), Inner(applied, corrected);
    var work, delta, loss := Work(structure, dt), stored - before, Work(damping, dt);
    Increment(Work(cfd, dt), work, Work(cfd - structure, dt), Work(Inner(Difference(raw, applied), predicted), dt),
              Work(Inner(applied, Difference(predicted, corrected)), dt), loss, delta, work - delta - loss)
  }

  // ----- the online driver

  datatype Branch = EulerBernoulli | Ancf

  datatype LoadMode = Full | TransverseOnly

  /** What one step of the coupled run delivers: the raw load, the interface velocities and the structure's energies. */
  datatype Sample = Sample(
    raw: V3, predictedX: real, predictedY: real, correctedX: real, correctedY: real, damping: real, stored: real,
    representation: string)

  /** The force sent to the structure: no axial force on a beam, no in-line force in the cross-flow diagnostic. */
  function Project(load: V3, branch: Branch, mode: LoadMode): V3 {
    var row := if branch.EulerBernoulli? then V3(load.x, load.y, 0.0) else load;
    if mode.TransverseOnly? then V3(0.0, row.y, 0.0) else row
  }

  /** A row of the audit file as the auditor reads it; absent columns are `None`. */
  datatype Row = Row(
    step: int, time: real, dt: Option<real>, force: V3,
    appliedX: Option<real>, appliedY: Option<real>, appliedZ: Option<real>,
    predicted: V3, corrected: V3, damping: real, stored: Option<real>, mechanical: Option<real>,
    previousStored: Option<real>, deltaStored: Option<real>, representation: string)

  /** A row as the driver writes it, with the driver's own cumulative columns. */
  datatype Written = Written(row: Row, totals: Totals)

  function DriverIncrement(s: Sample, branch: Branch, mode: LoadMode, before: real, dt: real): Increment {
    Step(s.raw, Project(s.raw, branch, mode), V3(s.predictedX, s.predictedY, 0.0), V3(s.correctedX, s.correctedY, 0.0),
         s.damping, s.stored, before, dt)
  }

  function StoredBefore(samples: seq<Sample>, initial: real, i: nat): real
    requires i <= |samples|
  {
    if i == 0 then initial else samples[i - 1].stored
  }

  function DriverIncrements(samples: seq<Sample>, branch: Branch, mode: LoadMode, initial: real, dt: real):
      (incs: seq<Increment>)
    ensures |incs| == |samples|
  {
    seq(|samples|,
        i requires 0 <= i < |samples| => DriverIncrement(samples[i], branch, mode, StoredBefore(samples, initial, i),
                                                         dt))
  }

  /** The row of one step: no dt column, no axial velocities, the boundary energy of the step. */
  function RowOf(s: Sample, branch: Branch, mode: LoadMode, before: real, dt: real, step: int): Row {
    var applied := Project(s.raw, branch, mode);
    Row(step, TimeAt(step, dt), None, s.raw, Some(applied.x), Some(applied.y), Some(applied.z),
        V3(s.predictedX, s.predictedY, 0.0), V3(s.correctedX, s.correctedY, 0.0), s.damping, Some(s.stored), None,
        Some(before), Some(s.stored - before), s.representation)
  }

  /** Row `i` of the file, of step `start + 1 + i`. */
  function DriverRow(
    samples: seq<Sample>, branch: Branch, mode: LoadMode, initial: real, dt: real, start: int, i: nat): Row
    requires i < |samples|
  {
    RowOf(samples[i], branch, mode, StoredBefore(samples, initial, i), dt, start + 1 + i)
  }

  /** The driver's planar powers are the spatial ones of the rows it writes, whose axial velocities are absent. */
  method Powers(s: Sample, applied: V3) returns (cfd: real, structure: real, projection: real, temporal: real)
    ensures var p, c := V3(s.predictedX, s.predictedY, 0.0), V3(s.correctedX, s.correctedY, 0.0);
      && cfd == Inner(s.raw, p) && structure == Inner(applied, c)
      && projection == Inner(Difference(s.raw, applied), p) && temporal == Inner(applied, Difference(p, c))
  {
    cfd := s.raw.x * s.predictedX + s.raw.y * s.predictedY;
    structure := applied.x * s.correctedX + applied.y * s.correctedY;
    projection := (s.raw.x - applied.x) * s.predictedX + (s.raw.y - applied.y) * s.predictedY;
    temporal := applied.x * (s.predictedX - s.correctedX) + applied.y * (s.predictedY - s.correctedY);
  }

  /** One pass of the driver's step loop: the increments it adds to its accumulators and the row it writes. */
  method DriveStep(s: Sample, branch: Branch, mode: LoadMode, before: real, dt: real, step: int)
    returns (increment: Increment, row: Row)
    ensures increment == DriverIncrement(s, branch, mode, before, dt)
    ensures row == RowOf(s, branch, mode, before, dt, step)
  {
    hide Project, Work, TimeAt, Inner, Difference;
    var applied := Project(s.raw, branch, mode);
    var cfdPower, structurePower, projectionPower, temporalPower := Powers(s, applied);
    var delta, work, loss := s.stored - before, Work(structurePower, dt), Work(s.damping, dt);
    increment := Increment(
      Work(cfdPower, dt), work, Work(cfdPower - structurePower, dt), Work(projectionPower, dt), Work(temporalPower, dt),
      loss, delta, work - delta - loss);
    row := Row(step, TimeAt(step, dt), None, s.raw, Some(applied.x), Some(applied.y), Some(applied.z),
               V3(s.predictedX, s.predictedY, 0.0), V3(s.correctedX, s.correctedY, 0.0), s.damping, Some(s.stored),
                 None,
               Some(before), Some(delta), s.representation);
  }

  /** The driver's step loop and its accumulators. */
  method RunCase(samples: seq<Sample>, branch: Branch, mode: LoadMode, initial: real, dt: real, start: int)
    returns (rows: seq<Written>)
    ensures |rows| == |samples|
    ensures forall i :: 0 <= i < |rows| ==>
      && rows[i].row == DriverRow(samples, branch, mode, initial, dt, start, i)
      && rows[i].totals == Total(DriverIncrements(samples, branch, mode, initial, dt)[..i + 1])
  {
    hide DriverIncrement, RowOf, Total, Plus;
    NoTotal();
    ghost var incs := DriverIncrements(samples, branch, mode, initial, dt);
    var totals := NOTHING;
    var previousStored := initial;
    rows := [];
    for i: nat := 0 to |samples|
      invariant |rows| == i && previousStored == StoredBefore(samples, initial, i)
      invariant totals == Total(incs[..i])
      invariant forall k :: 0 <= k < i ==>
        && rows[k].row == DriverRow(samples, branch, mode, initial, dt, start, k)
        && rows[k].totals == Total(incs[..k + 1])
    {
      var increment, row := DriveStep(samples[i], branch, mode, previousStored, dt, start + 1 + i);
      TotalNext(incs, i);
      totals := Plus(totals, increment);
      rows := rows + [Written(row, totals)];
      previousStored := samples[i].stored;
    }
  }

  lemma NoTotal()
    ensures Total([]) == NOTHING
  {
  }

  lemma TotalNext(incs: seq<Increment>, i: nat)
    requires i < |incs|
    ensures Total(incs[..i + 1]) == Plus(Total(incs[..i]), incs[i])
  {
    assert incs[..i + 1][..i] == incs[..i];
  }

  // ----- the offline audit

  datatype AuditError = NoRows | BadRepresentation | NonPositiveDt(step: int) | NegativeDamping(step: int)

  const DAMPING_TOLERANCE := 1.0e-12

  datatype Audited = Audited(dt: real, increment: Increment, totals: Totals, storedBefore: real, stored: real)

  function Or(value: Option<real>, default_: real): real {
    match value
    case None => default_
    case Some(v) => v
  }

  function Applied(r: Row): V3 {
    V3(Or(r.appliedX, r.force.x), Or(r.appliedY, r.force.y), Or(r.appliedZ, r.force.z))
  }

  /** The first row decides which column holds the stored energy. */
  function StoredOf(rows: seq<Row>, i: nat): real
    requires i < |rows|
  {
    if rows[0].stored.Some? then Or(rows[i].stored, 0.0) else Or(rows[i].mechanical, 0.0)
  }

  /** The energy at the beginning of the file: supplied, recorded, reconstructed, or taken as zero. */
  function InitialStored(rows: seq<Row>, supplied: Option<real>): real
    requires rows != []
  {
    if supplied.Some? then supplied.value
    else if rows[0].previousStored.Some? then rows[0].previousStored.value
    else if rows[0].deltaStored.Some? then StoredOf(rows, 0) - rows[0].deltaStored.value
    else 0.0
  }

  function BoundaryStored(rows: seq<Row>, supplied: Option<real>, i: nat): real
    requires i < |rows|
  {
    if i == 0 then InitialStored(rows, supplied) else StoredOf(rows, i - 1)
  }

  function Share(time: real, steps: int): real
    requires steps > 0
  {
    time / steps as real
  }

  function TimeStep(rows: seq<Row>, i: nat): real
    requires i < |rows|
  {
    if i > 0 then rows[i].time - rows[i - 1].time
    else
      var steps := if rows[0].step > 1 then rows[0].step else 1;
      Or(rows[0].dt, Share(rows[0].time, steps))
  }

  function AuditIncrement(rows: seq<Row>, supplied: Option<real>, i: nat): Increment
    requires i < |rows|
  {
    var r := rows[i];
    Step(r.force, Applied(r), r.predicted, r.corrected, r.damping, StoredOf(rows, i),
         BoundaryStored(rows, supplied, i), TimeStep(rows, i))
  }

  function AuditIncrements(rows: seq<Row>, supplied: Option<real>): (incs: seq<Increment>)
    ensures |incs| == |rows|
  {
    seq(|rows|, i requires 0 <= i < |rows| => AuditIncrement(rows, supplied, i))
  }

  predicate Represented(rows: seq<Row>) {
    forall i :: 0 <= i < |rows| ==> rows[i].representation == "" || rows[i].representation == "integrated_N"
  }

  predicate Dissipates(rows: seq<Row>, i: nat)
    requires i < |rows|
  {
    TimeStep(rows, i) > 0.0 && rows[i].damping >= -DAMPING_TOLERANCE
  }

  /** The audited row: its increment, the totals up to and including it, and the energies at its boundaries. */
  function AuditedRow(rows: seq<Row>, supplied: Option<real>, i: nat): Audited
    requires i < |rows|
  {
    Audited(TimeStep(rows, i), AuditIncrement(rows, supplied, i), Total(AuditIncrements(rows, supplied)[..i + 1]),
            BoundaryStored(rows, supplied, i), StoredOf(rows, i))
  }

  /** A file the audit accepts: rows of integrated loads with positive time steps and no negative damping. */
  predicate Auditable(rows: seq<Row>) {
    rows != [] && Represented(rows) && forall i :: 0 <= i < |rows| ==> Dissipates(rows, i)
  }

  method ComputeEnergyRows(rows: seq<Row>, supplied: Option<real>) returns (r: Result<seq<Audited>, AuditError>)
    ensures r.Ok? <==> Auditable(rows)
    ensures r.Ok? ==> |r.value| == |rows| && forall i :: 0 <= i < |rows| ==> r.value[i] == AuditedRow(rows, supplied, i)
  {
    hide AuditedRow, Dissipates, TimeStep, BoundaryStored, StoredOf, Total, AuditIncrements;
    if rows == [] {
      return Err(NoRows);
    }
    if !Represented(rows) {
      return Err(BadRepresentation);
    }
    NoTotal();
    var totals := NOTHING;
    var previousTime, previousStored := 0.0, InitialStored(rows, supplied);
    StartBoundary(rows, supplied);
    var out: seq<Audited> := [];
    for i: nat := 0 to |rows|
      invariant |out| == i && totals == Total(AuditIncrements(rows, supplied)[..i])
      invariant i > 0 ==> previousTime == rows[i - 1].time
      invariant i < |rows| ==> previousStored == BoundaryStored(rows, supplied, i)
      invariant forall k :: 0 <= k < i ==> Dissipates(rows, k)
      invariant forall k :: 0 <= k < i ==> out[k] == AuditedRow(rows, supplied, k)
    {
      var row;
      row, totals := AuditRow(rows, supplied, i, previousTime, previousStored, totals);
      if row.Err? {
        return Err(row.error);
      }
      out := out + [row.value];
      previousTime, previousStored := rows[i].time, row.value.stored;
      if i + 1 < |rows| {
        NextBoundary(rows, supplied, i + 1);
      }
    }
    return Ok(out);
  }

  lemma StartBoundary(rows: seq<Row>, supplied: Option<real>)
    requires rows != []
    ensures BoundaryStored(rows, supplied, 0) == InitialStored(rows, supplied)
  {
  }

  lemma NextBoundary(rows: seq<Row>, supplied: Option<real>, i: nat)
    requires 0 < i < |rows|
    ensures BoundaryStored(rows, supplied, i) == StoredOf(rows, i - 1)
  {
  }

  /** One pass of the audit loop. */
  method AuditRow(rows: seq<Row>, supplied: Option<real>, i: nat, previousTime: real, previousStored: real,
      totals: Totals)
    returns (r: Result<Audited, AuditError>, next: Totals)
    requires i < |rows| && previousStored == BoundaryStored(rows, supplied, i)
      && (i > 0 ==> previousTime == rows[i - 1].time)
    requires totals == Total(AuditIncrements(rows, supplied)[..i])
    ensures r.Ok? <==> Dissipates(rows, i)
    ensures r.Ok? ==>
      && r.value == AuditedRow(rows, supplied, i) && r.value.stored == StoredOf(rows, i)
      && next == Total(AuditIncrements(rows, supplied)[..i + 1])
  {
    hide Step, Applied, Share, InitialStored, Total, BoundaryStored;
    var row := rows[i];
    var dt := if i > 0 then row.time - previousTime
      else Or(row.dt, Share(row.time, if row.step > 1 then row.step else 1));
    next := totals;
    if dt <= 0.0 {
      return Err(NonPositiveDt(row.step)), totals;
    }
    if row.damping < -DAMPING_TOLERANCE {
      return Err(NegativeDamping(row.step)), totals;
    }
    var stored := if rows[0].stored.Some? then Or(row.stored, 0.0) else Or(row.mechanical, 0.0);
    var increment := Step(row.force, Applied(row), row.predicted, row.corrected, row.damping, stored, previousStored,
                          dt);
    assert increment == AuditIncrements(rows, supplied)[i];
    TotalNext(AuditIncrements(rows, supplied), i);
    next := Plus(totals, increment);
    return Ok(Audited(dt, increment, next, previousStored, stored)), next;
  }

  // ----- the audit reproduces the driver

  function RowsOf(samples: seq<Sample>, branch: Branch, mode: LoadMode, initial: real, dt: real, start: int):
      (rows: seq<Row>)
    ensures |rows| == |samples|
  {
    seq(|samples|, i requires 0 <= i < |samples| => DriverRow(samples, branch, mode, initial, dt, start, i))
  }

  lemma FirstTimeStep(step: int, dt: real)
    requires step >= 1
    ensures Share(TimeAt(step, dt), step) == dt
  {
    var n, p := step as real, step as real * dt;
    assert n > 0.0 && p == n * dt;
    Cancelled(n, dt, p, p / n);
  }

  lemma Cancelled(n: real, dt: real, p: real, q: real)
    requires n > 0.0 && p == n * dt && q == p / n
    ensures q == dt
  {
    Vectors.Divided(p, n);
    assert n * (q - dt) == 0.0;
  }

  lemma NextTimeStep(step: int, dt: real)
    ensures TimeAt(step, dt) - TimeAt(step - 1, dt) == dt
  {
    var n, m := step as real, (step - 1) as real;
    assert n == m + 1.0;
    assert (m + 1.0) * dt == m * dt + dt;
  }

  lemma DriverTimeStep(samples: seq<Sample>, branch: Branch, mode: LoadMode, initial: real, dt: real, start: int,
      i: nat)
    requires i < |samples| && start >= 0
    ensures TimeStep(RowsOf(samples, branch, mode, initial, dt, start), i) == dt
  {
    hide Share, TimeAt, Project;
    if i == 0 {
      FirstTimeStep(start + 1, dt);
    } else {
      NextTimeStep(start + 1 + i, dt);
    }
  }

  lemma SameIncrement(samples: seq<Sample>, branch: Branch, mode: LoadMode, initial: real, dt: real, start: int, i: nat)
    requires i < |samples| && start >= 0
    ensures AuditIncrement(RowsOf(samples, branch, mode, initial, dt, start), None, i)
      == DriverIncrement(samples[i], branch, mode, StoredBefore(samples, initial, i), dt)
  {
    hide Step, Project, TimeAt, TimeStep;
    DriverTimeStep(samples, branch, mode, initial, dt, start, i);
  }

  /** From the rows a driver wrote, the audit recomputes every increment of the driver, and so every cumulative
      column. */
  lemma AuditReproducesDriver(samples: seq<Sample>, branch: Branch, mode: LoadMode, initial: real, dt: real, start: int)
    requires start >= 0
    ensures AuditIncrements(RowsOf(samples, branch, mode, initial, dt, start), None)
      == DriverIncrements(samples, branch, mode, initial, dt)
    ensures forall k :: 0 <= k < |samples| ==>
      AuditedRow(RowsOf(samples, branch, mode, initial, dt, start), None, k).totals
      == Total(DriverIncrements(samples, branch, mode, initial, dt)[..k + 1])
  {
    hide DriverRow, StoredBefore, AuditIncrement, DriverIncrement, Total, TimeStep, BoundaryStored, StoredOf;
    var rows := RowsOf(samples, branch, mode, initial, dt, start);
    var audited, driven := AuditIncrements(rows, None), DriverIncrements(samples, branch, mode, initial, dt);
    forall i | 0 <= i < |samples|
      ensures audited[i] == driven[i]
    {
      SameIncrement(samples, branch, mode, initial, dt, start, i);
    }
  }

  lemma DriverRowDissipates(samples: seq<Sample>, branch: Branch, mode: LoadMode, initial: real, dt: real,
      start: int, i: nat)
    requires start >= 0 && i < |samples|
    ensures var rows := RowsOf(samples, branch, mode, initial, dt, start);
      && rows[i].representation == samples[i].representation
      && (Dissipates(rows, i) <==> dt > 0.0 && samples[i].damping >= -DAMPING_TOLERANCE)
  {
    hide TimeStep, Project, TimeAt;
    DriverTimeStep(samples, branch, mode, initial, dt, start, i);
  }

  /** The audit accepts the file of a driver exactly when it has rows, the time step is positive, the loads are
      integrated and no damping is below the tolerance. */
  lemma AuditAcceptsDriver(samples: seq<Sample>, branch: Branch, mode: LoadMode, initial: real, dt: real, start: int)
    requires start >= 0
    ensures Auditable(RowsOf(samples, branch, mode, initial, dt, start))
      <==> samples != [] && dt > 0.0
           && forall i :: 0 <= i < |samples| ==>
             && (samples[i].representation == "" || samples[i].representation == "integrated_N")
             && samples[i].damping >= -DAMPING_TOLERANCE
  {
    hide Dissipates, DriverRow;
    var rows := RowsOf(samples, branch, mode, initial, dt, start);
    forall i | 0 <= i < |samples|
      ensures rows[i].representation == samples[i].representation
      ensures Dissipates(rows, i) <==> dt > 0.0 && samples[i].damping >= -DAMPING_TOLERANCE
    {
      DriverRowDissipates(samples, branch, mode, initial, dt, start, i);
    }
    if samples != [] {
      assert Dissipates(rows, 0) ==> dt > 0.0;
    }
  }

  // ----- what the totals mean

  /** Each increment satisfies the split of the defect and the balance of the structure. */
  ghost predicate Sound(i: Increment) {
    && i.defect == i.projection + i.temporal && i.defect == i.cfd - i.structure
    && i.balance == i.structure - i.delta - i.damping
  }

  lemma StepIsSound(raw: V3, applied: V3, predicted: V3, corrected: V3, damping: real, stored: real, before: real,
      dt: real)
    ensures Sound(Step(raw, applied, predicted, corrected, damping, stored, before, dt))
  {
    hide Inner, Work;
    var cfd, structure := Inner(raw, predicted), Inner(applied, corrected);
    var projection, temporal := Inner(Difference(raw, applied), predicted),
      Inner(applied, Difference(predicted, corrected));
    DefectSplits(raw, applied, predicted, corrected);
    Distribute(cfd, structure, projection, temporal, dt);
  }

  /** The power defect is what projection takes from the load plus what correction changes in the velocity. */
  lemma DefectSplits(raw: V3, applied: V3, predicted: V3, corrected: V3)
    ensures Inner(raw, predicted) - Inner(applied, corrected)
      == Inner(Difference(raw, applied), predicted) + Inner(applied, Difference(predicted, corrected))
  {
    InnerDifference(raw, applied, predicted);
    InnerDifferenceRight(applied, predicted, corrected);
  }

  lemma InnerDifference(a: V3, b: V3, w: V3)
    ensures Inner(Difference(a, b), w) == Inner(a, w) - Inner(b, w)
  {
  }

  lemma InnerDifferenceRight(a: V3, v: V3, w: V3)
    ensures Inner(a, Difference(v, w)) == Inner(a, v) - Inner(a, w)
  {
  }

  lemma Distribute(cfd: real, structure: real, projection: real, temporal: real, dt: real)
    requires cfd - structure == projection + temporal
    ensures Work(cfd - structure, dt) == Work(projection, dt) + Work(temporal, dt)
    ensures Work(cfd - structure, dt) == Work(cfd, dt) - Work(structure, dt)
  {
  }

  function Deltas(incs: seq<Increment>): real {
    if incs == [] then 0.0 else Deltas(incs[..|incs| - 1]) + incs[|incs| - 1].delta
  }

  lemma {:induction false} TotalsAreSound(incs: seq<Increment>)
    requires forall i :: 0 <= i < |incs| ==> Sound(incs[i])
    ensures var t := Total(incs);
      && t.defect == t.projection + t.temporal && t.defect == t.cfd - t.structure
      && t.balance == t.structure - Deltas(incs) - t.damping
    decreases |incs|
  {
    if incs != [] {
      TotalsAreSound(incs[..|incs| - 1]);
    }
  }

  lemma {:induction false} DeltasTelescope(rows: seq<Row>, supplied: Option<real>, k: nat)
    requires 0 < k <= |rows|
    ensures Deltas(AuditIncrements(rows, supplied)[..k]) == StoredOf(rows, k - 1) - InitialStored(rows, supplied)
    decreases k
  {
    hide Inner, Applied, TimeStep, InitialStored, StoredOf;
    var incs := AuditIncrements(rows, supplied);
    assert incs[..k][..k - 1] == incs[..k - 1];
    assert incs[k - 1].delta == StoredOf(rows, k - 1) - BoundaryStored(rows, supplied, k - 1);
    if k > 1 {
      DeltasTelescope(rows, supplied, k - 1);
    } else {
      assert Deltas(incs[..0]) == 0.0;
    }
  }

  /** After any number of rows the defect splits into projection and temporal parts, and the residual is work minus
      stored-energy change minus damping. */
  lemma LedgerBalances(rows: seq<Row>, supplied: Option<real>, k: nat)
    requires 0 < k <= |rows|
    ensures var t := Total(AuditIncrements(rows, supplied)[..k]);
      && t.defect == t.projection + t.temporal && t.defect == t.cfd - t.structure
      && t.balance == t.structure - (StoredOf(rows, k - 1) - InitialStored(rows, supplied)) - t.damping
  {
    hide Step, Total, Deltas, InitialStored, StoredOf, TimeStep, Applied, Sound;
    var incs := AuditIncrements(rows, supplied);
    forall i | 0 <= i < k
      ensures Sound(incs[..k][i])
    {
      var r := rows[i];
      StepIsSound(r.force, Applied(r), r.predicted, r.corrected, r.damping, StoredOf(rows, i),
                  BoundaryStored(rows, supplied, i), TimeStep(rows, i));
      assert incs[i] == AuditIncrement(rows, supplied, i);
    }
    TotalsAreSound(incs[..k]);
    DeltasTelescope(rows, supplied, k);
  }
}
