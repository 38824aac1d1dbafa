/**
 The energy ledger in the columns of its files: every total of the driver as the time step times a sum over the
 samples, and every step of the audit as products of the row's own columns.
 */
module LedgerColumns {
  import opened Wrappers
  import opened Vectors
  import opened EnergyLedger

  // ----- the driver

  /** The in-line load that reaches the structure: none in the cross-flow diagnostic. */
  function InLine(s: Sample, mode: LoadMode): real {
    if mode.TransverseOnly? then 0.0 else s.raw.x
  }

  function FluidPower(s: Sample): real {
    s.raw.x * s.predictedX + s.raw.y * s.predictedY
  }

  function StructurePower(s: Sample, mode: LoadMode): real {
    InLine(s, mode) * s.correctedX + s.raw.y * s.correctedY
  }

  function ProjectionPower(s: Sample, mode: LoadMode): real {
    (s.raw.x - InLine(s, mode)) * s.predictedX
  }

  function TemporalPower(s: Sample, mode: LoadMode): real {
    InLine(s, mode) * (s.predictedX - s.correctedX) + s.raw.y * (s.predictedY - s.correctedY)
  }

  function FluidSum(samples: seq<Sample>): real {
    SumOf(samples, (s: Sample) => FluidPower(s))
  }

  function StructureSum(samples: seq<Sample>, mode: LoadMode): real {
    SumOf(samples, (s: Sample) => StructurePower(s, mode))
  }

  function ProjectionSum(samples: seq<Sample>, mode: LoadMode): real {
    SumOf(samples, (s: Sample) => ProjectionPower(s, mode))
  }

  function TemporalSum(samples: seq<Sample>, mode: LoadMode): real {
    SumOf(samples, (s: Sample) => TemporalPower(s, mode))
  }

  function DampingSum(samples: seq<Sample>): real {
    SumOf(samples, (s: Sample) => s.damping)
  }

  function Last(samples: seq<Sample>, initial: real): real {
    if samples == [] then initial else samples[|samples| - 1].stored
  }

  lemma SumsNext(samples: seq<Sample>, k: nat, mode: LoadMode)
    requires k < |samples|
    ensures var s, a, b := samples[k], samples[..k], samples[..k + 1];
      && FluidSum(b) == FluidSum(a) + FluidPower(s)
      && StructureSum(b, mode) == StructureSum(a, mode) + StructurePower(s, mode)
      && ProjectionSum(b, mode) == ProjectionSum(a, mode) + ProjectionPower(s, mode)
      && TemporalSum(b, mode) == TemporalSum(a, mode) + TemporalPower(s, mode)
      && DampingSum(b) == DampingSum(a) + s.damping
  {
    hide FluidPower, StructurePower, ProjectionPower, TemporalPower;
    assert samples[..k + 1][..k] == samples[..k];
  }

  lemma NoSums(mode: LoadMode)
    ensures FluidSum([]) == StructureSum([], mode) == ProjectionSum([], mode) == TemporalSum([], mode)
      == DampingSum([]) == 0.0
  {
  }

  function Times(dt: real, x: real): real {
    dt * x
  }

  /** The increment of a step in the columns of its sample. */
  lemma IncrementInColumns(s: Sample, branch: Branch, mode: LoadMode, before: real, dt: real)
    ensures var i := DriverIncrement(s, branch, mode, before, dt);
      && i.cfd == Times(dt, FluidPower(s)) && i.structure == Times(dt, StructurePower(s, mode))
      && i.defect == i.cfd - i.structure && i.projection == Times(dt, ProjectionPower(s, mode))
      && i.temporal == Times(dt, TemporalPower(s, mode)) && i.damping == Times(dt, s.damping)
      && i.delta == s.stored - before && i.balance == i.structure - (s.stored - before) - i.damping
  {
    var a := Project(s.raw, branch, mode);
    assert a.x == InLine(s, mode) && a.y == s.raw.y;
    PlanarPowers(s.raw.x, s.raw.y, s.raw.z, a.x, a.z, s.predictedX, s.predictedY, s.correctedX, s.correctedY, dt);
  }

  lemma PlanarPowers(fx: real, fy: real, fz: real, ax: real, az: real, px: real, py: real, cx: real, cy: real, dt: real)
    ensures (fx * px + fy * py + fz * 0.0) * dt == dt * (fx * px + fy * py)
    ensures (ax * cx + fy * cy + az * 0.0) * dt == dt * (ax * cx + fy * cy)
    ensures ((fx * px + fy * py + fz * 0.0) - (ax * cx + fy * cy + az * 0.0)) * dt
      == dt * (fx * px + fy * py) - dt * (ax * cx + fy * cy)
    ensures ((fx - ax) * px + (fy - fy) * py + (fz - az) * 0.0) * dt == dt * ((fx - ax) * px)
    ensures (ax * (px - cx) + fy * (py - cy) + az * (0.0 - 0.0)) * dt == dt * (ax * (px - cx) + fy * (py - cy))
  {
  }

  /** The totals after the given samples, a time step apart, from the energy before them. */
  ghost predicate InColumns(t: Totals, samples: seq<Sample>, mode: LoadMode, initial: real, dt: real) {
    && t.cfd == Times(dt, FluidSum(samples)) && t.structure == Times(dt, StructureSum(samples, mode))
    && t.defect == t.cfd - t.structure && t.projection == Times(dt, ProjectionSum(samples, mode))
    && t.temporal == Times(dt, TemporalSum(samples, mode)) && t.damping == Times(dt, DampingSum(samples))
    && t.balance == t.structure - (Last(samples, initial) - initial) - t.damping
  }

  lemma TimesGrown(dt: real, a: real, b: real, sum: real)
    requires sum == a + b
    ensures Times(dt, sum) == Times(dt, a) + Times(dt, b)
  {
  }

  lemma TimesNone(dt: real)
    ensures Times(dt, 0.0) == 0.0
  {
  }

  lemma {:induction false} TotalsTrack(samples: seq<Sample>, branch: Branch, mode: LoadMode, initial: real, dt: real,
                                       k: nat)
    requires k <= |samples|
    ensures InColumns(Total(DriverIncrements(samples, branch, mode, initial, dt)[..k]), samples[..k], mode, initial, dt)
    decreases k
  {
    hide DriverIncrement, Total, Plus, FluidSum, StructureSum, ProjectionSum, TemporalSum, DampingSum, FluidPower,
         StructurePower, ProjectionPower, TemporalPower, InLine, Times;
    var incs := DriverIncrements(samples, branch, mode, initial, dt);
    if k == 0 {
      NoSums(mode);
      NoTotal();
      TimesNone(dt);
    } else {
      var s, n := samples[k - 1], k - 1;
      TotalsTrack(samples, branch, mode, initial, dt, n);
      TotalNext(incs, n);
      SumsNext(samples, n, mode);
      IncrementInColumns(s, branch, mode, StoredBefore(samples, initial, n), dt);
      assert StoredBefore(samples, initial, n) == Last(samples[..n], initial);
      GrownTotals(Total(incs[..n]), incs[n], Total(incs[..k]));
      TimesGrown(dt, FluidSum(samples[..n]), FluidPower(s), FluidSum(samples[..k]));
      TimesGrown(dt, StructureSum(samples[..n], mode), StructurePower(s, mode), StructureSum(samples[..k], mode));
      TimesGrown(dt, ProjectionSum(samples[..n], mode), ProjectionPower(s, mode), ProjectionSum(samples[..k], mode));
      TimesGrown(dt, TemporalSum(samples[..n], mode), TemporalPower(s, mode), TemporalSum(samples[..k], mode));
      TimesGrown(dt, DampingSum(samples[..n]), s.damping, DampingSum(samples[..k]));
    }
  }

  /** After any number of steps every total of the driver is the time step times a sum over the samples' columns. */
  lemma TotalsInColumns(samples: seq<Sample>, branch: Branch, mode: LoadMode, initial: real, dt: real, k: nat)
    requires k <= |samples|
    ensures var t, past := Total(DriverIncrements(samples, branch, mode, initial, dt)[..k]), samples[..k];
      && t.cfd == dt * FluidSum(past) && t.structure == dt * StructureSum(past, mode)
      && t.defect == dt * FluidSum(past) - dt * StructureSum(past, mode)
      && t.projection == dt * ProjectionSum(past, mode) && t.temporal == dt * TemporalSum(past, mode)
      && t.damping == dt * DampingSum(past)
      && t.balance == dt * StructureSum(past, mode) - (Last(past, initial) - initial) - dt * DampingSum(past)
  {
    hide Total, DriverIncrements, FluidSum, StructureSum, ProjectionSum, TemporalSum, DampingSum;
    TotalsTrack(samples, branch, mode, initial, dt, k);
  }

  lemma GrownTotals(t: Totals, i: Increment, u: Totals)
    requires u == Plus(t, i)
    ensures u == Totals(t.cfd + i.cfd, t.structure + i.structure, t.defect + i.defect, t.projection + i.projection,
                        t.temporal + i.temporal, t.damping + i.damping, t.balance + i.balance)
  {
  }

  /** The row of a step: its number and time, the raw load, the load the structure received (none along the axis of a
      beam, and the transverse component alone in the cross-flow diagnostic), and the energies at its ends. */
  lemma RowInColumns(samples: seq<Sample>, branch: Branch, mode: LoadMode, initial: real, dt: real, start: int, i: nat)
    requires i < |samples|
    ensures var s, row := samples[i], DriverRow(samples, branch, mode, initial, dt, start, i);
      && row.step == start + 1 + i && row.time == (start + 1 + i) as real * dt && row.dt == None
      && row.force == s.raw && row.appliedY == Some(s.raw.y)
      && row.appliedX == Some(if mode == TransverseOnly then 0.0 else s.raw.x)
      && row.appliedZ == Some(if mode == TransverseOnly || branch == EulerBernoulli then 0.0 else s.raw.z)
      && row.predicted.x == s.predictedX && row.predicted.y == s.predictedY && row.predicted.z == 0.0
      && row.corrected.x == s.correctedX && row.corrected.y == s.correctedY && row.corrected.z == 0.0
      && row.damping == s.damping && row.stored == Some(s.stored) && row.representation == s.representation
      && row.previousStored == Some(if i == 0 then initial else samples[i - 1].stored)
      && row.deltaStored == Some(s.stored - if i == 0 then initial else samples[i - 1].stored)
  {
  }

  // ----- the audit

  /** A column, or what stands for it when the file has none. */
  function Column(value: Option<real>, otherwise: real): real {
    if value.Some? then value.value else otherwise
  }

  /** The time step of a row: the gap to the row before; the file's own first step, or its time shared by its steps. */
  function Gap(rows: seq<Row>, i: nat): real
    requires i < |rows|
  {
    if i > 0 then rows[i].time - rows[i - 1].time
    else Column(rows[0].dt, rows[0].time / (if rows[0].step > 1 then rows[0].step else 1) as real)
  }

  /** The energy at the end of a row: the stored one if the file has that column, else the mechanical one. */
  function EnergyAt(rows: seq<Row>, i: nat): real
    requires i < |rows|
  {
    Column(if rows[0].stored.Some? then rows[i].stored else rows[i].mechanical, 0.0)
  }

  /** The energy before a row: that of the row before, or what the caller, the first row or its change says. */
  function EnergyBefore(rows: seq<Row>, supplied: Option<real>, i: nat): real
    requires i < |rows|
  {
    if i > 0 then EnergyAt(rows, i - 1)
    else
      Column(supplied, Column(rows[0].previousStored,
                              if rows[0].deltaStored.Some? then EnergyAt(rows, 0) - rows[0].deltaStored.value else 0.0))
  }

  /** Every audited step adds to the totals what its own columns say. */
  lemma AuditInColumns(rows: seq<Row>, supplied: Option<real>, i: nat)
    requires i < |rows|
    ensures var r, dt, x := rows[i], Gap(rows, i), AuditedRow(rows, supplied, i);
      var ax, ay, az := Column(r.appliedX, r.force.x), Column(r.appliedY, r.force.y), Column(r.appliedZ, r.force.z);
      var p, c, t := r.predicted, r.corrected, x.totals;
      var fluid := dt * (r.force.x * p.x + r.force.y * p.y + r.force.z * p.z);
      var structure := dt * (ax * c.x + ay * c.y + az * c.z);
      var u := if i == 0 then NOTHING else AuditedRow(rows, supplied, i - 1).totals;
      && x.dt == dt && x.stored == EnergyAt(rows, i) && x.storedBefore == EnergyBefore(rows, supplied, i)
      && t.cfd == u.cfd + fluid && t.structure == u.structure + structure && t.defect == u.defect + fluid - structure
      && t.projection == u.projection
         + dt * ((r.force.x - ax) * p.x + (r.force.y - ay) * p.y + (r.force.z - az) * p.z)
      && t.temporal == u.temporal + dt * (ax * (p.x - c.x) + ay * (p.y - c.y) + az * (p.z - c.z))
      && t.damping == u.damping + dt * r.damping
      && t.balance == u.balance + structure - (x.stored - x.storedBefore) - dt * r.damping
  {
    hide TimeStep, StoredOf, BoundaryStored, Total, Plus, AuditIncrement, Gap, EnergyAt, EnergyBefore, Column;
    var incs := AuditIncrements(rows, supplied);
    TotalNext(incs, i);
    if i == 0 {
      NoTotal();
    }
    assert incs[..0] == [];
    StepInColumns(rows, supplied, i);
    EnergiesAgree(rows, supplied, i);
    GrownTotals(Total(incs[..i]), incs[i], Total(incs[..i + 1]));
  }

  lemma EnergiesAgree(rows: seq<Row>, supplied: Option<real>, i: nat)
    requires i < |rows|
    ensures TimeStep(rows, i) == Gap(rows, i) && StoredOf(rows, i) == EnergyAt(rows, i)
    ensures BoundaryStored(rows, supplied, i) == EnergyBefore(rows, supplied, i)
  {
  }

  lemma StepInColumns(rows: seq<Row>, supplied: Option<real>, i: nat)
    requires i < |rows|
    ensures var r, dt, x := rows[i], Gap(rows, i), AuditIncrement(rows, supplied, i);
      var ax, ay, az := Column(r.appliedX, r.force.x), Column(r.appliedY, r.force.y), Column(r.appliedZ, r.force.z);
      var p, c := r.predicted, r.corrected;
      && x.cfd == dt * (r.force.x * p.x + r.force.y * p.y + r.force.z * p.z)
      && x.structure == dt * (ax * c.x + ay * c.y + az * c.z)
      && x.defect == x.cfd - x.structure
      && x.projection == dt * ((r.force.x - ax) * p.x + (r.force.y - ay) * p.y + (r.force.z - az) * p.z)
      && x.temporal == dt * (ax * (p.x - c.x) + ay * (p.y - c.y) + az * (p.z - c.z))
      && x.damping == dt * r.damping
      && x.balance == x.structure - (EnergyAt(rows, i) - EnergyBefore(rows, supplied, i)) - x.damping
  {
    hide TimeStep, StoredOf, BoundaryStored, Gap, EnergyAt, EnergyBefore;
    EnergiesAgree(rows, supplied, i);
    var r, dt := rows[i], TimeStep(rows, i);
    var a, f, p, c := Applied(r), r.force, r.predicted, r.corrected;
    TimesDifference(dt, f.x * p.x + f.y * p.y + f.z * p.z, a.x * c.x + a.y * c.y + a.z * c.z);
  }

  lemma TimesDifference(dt: real, a: real, b: real)
    ensures (a - b) * dt == a * dt - b * dt
  {
  }

  /** A file is accepted exactly when it has rows, every load is integrated or unmarked, time moves forward and no
      damping is negative beyond one part in ten to the twelve. */
  lemma AuditableInColumns(rows: seq<Row>)
    ensures Auditable(rows)
      <==> rows != [] && forall i :: 0 <= i < |rows| ==>
             && rows[i].representation in {"", "integrated_N"} && Gap(rows, i) > 0.0 && 0.0 <= rows[i].damping + 1.0e-12
  {
    if rows != [] {
      forall i | 0 <= i < |rows|
        ensures TimeStep(rows, i) == Gap(rows, i)
      {
        EnergiesAgree(rows, None, i);
      }
    }
    assert forall i :: 0 <= i < |rows| ==>
      (Dissipates(rows, i) <==> Gap(rows, i) > 0.0 && 0.0 <= rows[i].damping + 1.0e-12);
  }
}
