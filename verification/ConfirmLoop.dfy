/**
 The confirm loop: predict with the previous applied load, move the slices, filter their raw load,
 correct with the same previous load, commit. It composes the kernel adapter, the slice barrier
 and the load stabilizer, and refines one simple recurrence.
 */
module ConfirmLoop {
  import opened Wrappers
  import Adapter
  import Barrier
  import Stabilizer
  import Gather

  type Rows = Stabilizer.Rows

  /**
   A segment: the structure's source, the filter's settings and clock, the first applied load, the
   translation of a predicted state into slice motions, the slices behind the barrier, and how each
   step's slice calls complete and its commit fails.
   */
  datatype Setup = Setup(
    source: Adapter.Source, settings: Stabilizer.Settings, tick: int, tickStep: int, applied: Rows,
    translate: Adapter.Kinematics -> Option<Barrier.Motions>, slices: Barrier.Slices, schedule: int -> Barrier.Schedule,
    fault: int -> Barrier.Fault)
  {
    ghost predicate Valid() {
      settings.Valid() && tick >= 0 && tickStep > 0 && Stabilizer.ThreeByThree(applied)
    }

    function TimeOf(k: int): real {
      source.time + k as real * source.dt
    }

    function TickOf(k: int): int {
      tick + k * tickStep
    }
  }

  // ----- the recurrence

  /** After `k` steps: the structure, the applied load and the motions the slices have received. */
  datatype Point = Point(state: Adapter.Kinematics, applied: Rows, sent: seq<Barrier.Motions>)

  function FilterAt(c: Setup, applied: Rows, k: int): Stabilizer.Filter {
    Stabilizer.Filter(applied, c.source.step + k, c.TickOf(k), None)
  }

  /** The filtered load of step `k + 1`, unless the filter refuses the raw load. */
  ghost function FilteredLoad(c: Setup, applied: Rows, raw: Rows, k: int): Option<Rows>
    requires c.Valid() && Stabilizer.ThreeByThree(applied)
  {
    if Stabilizer.ApplyError(c.settings, FilterAt(c, applied, k), c.source.step + k + 1, c.TimeOf(k + 1),
                             c.TickOf(k + 1), raw).Some? then None
    else Some(Stabilizer.Blended(applied, raw, Stabilizer.Alpha(c.settings, c.TickOf(k + 1) - c.TickOf(k))))
  }

  datatype Observation = Observation(state: Adapter.Kinematics, sent: seq<Barrier.Motions>, raw: Rows)

  /** The predicted state, the motions sent with it, and the raw load the slices answer. */
  function Observed(c: Setup, p: Point, k: int): Option<Observation> {
    var step := c.source.step + k + 1;
    match c.source.kernel(p.state, p.applied, step)
    case None => None
    case Some(state) =>
      match c.translate(state)
      case None => None
      case Some(motions) =>
        if !Barrier.OnePerSlice(motions) || !c.slices.identified(step, c.TimeOf(k + 1)) then None
        else
          match Barrier.Answers(c.slices, p.sent + [motions])
          case None => None
          case Some(raw) => Some(Observation(state, p.sent + [motions], raw))
  }

  ghost function Next(c: Setup, p: Point, k: int): (next: Option<Point>)
    requires c.Valid() && Stabilizer.ThreeByThree(p.applied)
    ensures next.Some? ==> Stabilizer.ThreeByThree(next.value.applied)
  {
    match Observed(c, p, k)
    case None => None
    case Some(x) =>
      match FilteredLoad(c, p.applied, x.raw, k)
      case None => None
      case Some(applied) => Some(Point(x.state, applied, x.sent))
  }

  ghost function Reference(c: Setup, k: nat): (p: Option<Point>)
    requires c.Valid()
    ensures p.Some? ==> Stabilizer.ThreeByThree(p.value.applied) && |p.value.sent| == k
  {
    if k == 0 then Some(Point(c.source.initial, c.applied, []))
    else
      match Reference(c, k - 1)
      case None => None
      case Some(p) => Next(c, p, k - 1)
  }

  lemma ReferenceStep(c: Setup, k: nat)
    requires c.Valid() && Reference(c, k).Some?
    ensures Reference(c, k + 1) == Next(c, Reference(c, k).value, k)
  {
  }

  lemma StepIsIdentified(c: Setup, k: nat)
    ensures Adapter.Identified(c.source, c.source.step + k + 1, c.TimeOf(k + 1))
  {
  }

  // ----- the loop

  function Steps(c: Setup, k: nat): seq<int> {
    seq(k, (i: int) => c.source.step + i + 1)
  }

  /** The committed side of the three components after `k` steps. */
  ghost predicate Committed(
    c: Setup, adapter: Adapter.KernelAdapter, stabilizer: Stabilizer.LoadStabilizer, barrier: Barrier.SliceBarrier,
    k: nat)
    requires c.Valid()
    reads adapter, stabilizer, barrier
  {
    && Reference(c, k).Some?
    && var p := Reference(c, k).value;
    && adapter.committed == p.state && stabilizer.View() == FilterAt(c, p.applied, k)
    && p.sent <= barrier.sent
    && barrier.records == Steps(c, k) && Barrier.Consistent(barrier.View())
  }

  /** Ready for the next step: nothing pending anywhere, and the worker has served two requests for each step. */
  ghost predicate Standing(
    c: Setup, adapter: Adapter.KernelAdapter, stabilizer: Stabilizer.LoadStabilizer, barrier: Barrier.SliceBarrier,
    k: nat)
    requires c.Valid()
    reads adapter, adapter.worker, stabilizer, barrier
  {
    && adapter.source == c.source && stabilizer.settings == c.settings
    && Adapter.Between(adapter.View(), 2 * k)
    && barrier.slices == c.slices && barrier.started && !barrier.failed && barrier.prepared == None
    && Committed(c, adapter, stabilizer, barrier, k) && |barrier.sent| == k
  }

  /** Prediction with the previous applied load, translation, and the slices' answer. */
  method Observe(
    c: Setup, adapter: Adapter.KernelAdapter, barrier: Barrier.SliceBarrier, k: nat, ghost p: Point, previous: Rows)
    returns (raw: Option<Rows>)
    requires c.Valid() && adapter.source == c.source && Adapter.Between(adapter.View(), 2 * k)
    requires Adapter.ForceShape(previous)
    requires adapter.committed == p.state && p.applied == previous && barrier.sent == p.sent
    requires barrier.slices == c.slices && barrier.started && !barrier.failed && barrier.prepared == None
    requires Barrier.Consistent(barrier.View())
    modifies adapter, adapter.worker, barrier
    ensures barrier.started && barrier.records == old(barrier.records) && p.sent <= barrier.sent
    ensures barrier.published == old(barrier.published) && Barrier.Consistent(barrier.View())
    ensures adapter.committed == p.state
    ensures match Observed(c, p, k)
      case None => raw == None
      case Some(x) =>
        && raw == Some(x.raw) && barrier.sent == x.sent && !barrier.failed
        && barrier.prepared.Some? && barrier.prepared.value.step == c.source.step + k + 1
        && AwaitsCorrection(c, adapter.View(), p, k)
  {
    hide Adapter.Identified, Adapter.ForceShape, Barrier.Answers, Barrier.Consistent;
    StepIsIdentified(c, k);
    var prediction := adapter.PredictMotion(c.source.step + k + 1, c.TimeOf(k + 1), previous);
    if prediction.Err? {
      return None;
    }
    var motions := c.translate(prediction.value);
    if motions.None? {
      return None;
    }
    raw := barrier.PrepareStep(c.source.step + k + 1, c.TimeOf(k + 1), motions.value, c.schedule(k + 1));
  }

  /** The prediction of step `k + 1` is pending and its request has been served. */
  ghost predicate AwaitsCorrection(c: Setup, s: Adapter.Session, p: Point, k: nat) {
    && s.started && !s.terminal && s.alive && |s.log| == 2 * k + 1 && s.committed == p.state
    && s.pending.Some? && s.pending.value.phase.Prediction?
    && s.pending.value.step == c.source.step + k + 1 && s.pending.value.time == c.TimeOf(k + 1)
    && Adapter.Consistent(c.source, s)
  }

  /** Correction with the same previous load; the kernel, asked again, gives the predicted state again. */
  method CorrectAgain(c: Setup, adapter: Adapter.KernelAdapter, k: nat, ghost p: Point, previous: Rows)
    requires adapter.source == c.source && AwaitsCorrection(c, adapter.View(), p, k) && Adapter.ForceShape(previous)
    requires p.applied == previous && c.source.kernel(p.state, previous, c.source.step + k + 1).Some?
    modifies adapter, adapter.worker
    ensures adapter.committed == p.state
    ensures Adapter.Between(adapter.View().(pending := None), 2 * k + 2) && Adapter.AwaitsCommit(adapter.View())
    ensures Some(adapter.state) == c.source.kernel(p.state, previous, c.source.step + k + 1)
  {
    hide Adapter.Identified, Adapter.ForceShape;
    StepIsIdentified(c, k);
    var correction := adapter.CorrectState(c.source.step + k + 1, c.TimeOf(k + 1), previous);
  }

  /** What a step that does not go through leaves behind: the recurrence stops or the commit fails, and a checkpoint
      stands on disk beyond the records exactly when it was a slice's finalizer that failed. */
  ghost predicate Stopped(c: Setup, barrier: Barrier.SliceBarrier, k: nat)
    requires c.Valid()
    reads barrier
  {
    && (Reference(c, k + 1).None? || !c.fault(k + 1).NoFault?)
    && barrier.published == Steps(c, if Reference(c, k + 1).Some? && c.fault(k + 1).FinalizerFails? then k + 1 else k)
  }

  /** The step prepared in all three components: the slices have answered, the filtered load is staged and the
      structure is corrected; nothing is committed. */
  ghost predicate Proposed(
    c: Setup, adapter: Adapter.KernelAdapter, stabilizer: Stabilizer.LoadStabilizer, barrier: Barrier.SliceBarrier,
    k: nat,
    p: Point, next: Point)
    requires c.Valid()
    reads adapter, adapter.worker, stabilizer, barrier
  {
    && adapter.source == c.source && Adapter.AwaitsCommit(adapter.View()) && adapter.state == next.state
    && Adapter.Between(adapter.View().(pending := None), 2 * k + 2)
    && stabilizer.settings == c.settings && Stabilizer.ValidFilter(c.settings, stabilizer.View())
    && Stabilizer.After(c.settings, stabilizer.View(), Stabilizer.Commit) == FilterAt(c, next.applied, k + 1)
    && barrier.started && !barrier.failed && barrier.sent == next.sent
    && barrier.prepared.Some? && barrier.prepared.value.step == c.source.step + k + 1
  }

  /** Nothing is committed: the committed side is where it was, whatever is pending. */
  ghost predicate Untouched(
    c: Setup, adapter: Adapter.KernelAdapter, stabilizer: Stabilizer.LoadStabilizer, barrier: Barrier.SliceBarrier,
    k: nat,
    p: Point)
    requires c.Valid()
    reads adapter, stabilizer, barrier
  {
    && adapter.committed == p.state && p.sent <= barrier.sent
    && stabilizer.View().(pending := None) == FilterAt(c, p.applied, k)
    && stabilizer.settings == c.settings && Stabilizer.ValidFilter(c.settings, stabilizer.View())
    && barrier.slices == c.slices && barrier.records == Steps(c, k) && barrier.published == Steps(c, k)
    && Barrier.Consistent(barrier.View())
  }

  /** Prediction, slices, filter and correction of one step. */
  method ProposeStep(
    c: Setup, adapter: Adapter.KernelAdapter, stabilizer: Stabilizer.LoadStabilizer, barrier: Barrier.SliceBarrier,
    k: nat,
    ghost p: Point, previous: Rows) returns (filtered: Option<Rows>)
    requires c.Valid() && Standing(c, adapter, stabilizer, barrier, k)
    requires Reference(c, k) == Some(p) && previous == p.applied
    modifies adapter, adapter.worker, stabilizer, barrier
    ensures Untouched(c, adapter, stabilizer, barrier, k, p)
    ensures filtered.Some? <==> Next(c, p, k).Some?
    ensures filtered.Some? ==>
      filtered.value == Next(c, p, k).value.applied
        && Proposed(c, adapter, stabilizer, barrier, k, p, Next(c, p, k).value)
  {
    hide Reference, Observed, Stabilizer.Blended, Stabilizer.ApplyError, Stabilizer.Alpha, AwaitsCorrection;
    hide Barrier.Consistent;
    PublishedWhereStanding(barrier.View());
    var raw := Observe(c, adapter, barrier, k, p, previous);
    if raw.None? {
      return None;
    }
    var step := c.source.step + k + 1;
    var applied := stabilizer.ApplyLoad(step, c.TimeOf(k + 1), c.TickOf(k + 1), raw.value);
    if applied.Err? {
      return None;
    }
    ObservedState(c, p, k);
    CorrectAgain(c, adapter, k, p, previous);
    return Some(applied.value);
  }

  /** One step of the loop; it stops only because the recurrence stops or the barrier cannot commit. */
  method ConfirmStep(
    c: Setup, adapter: Adapter.KernelAdapter, stabilizer: Stabilizer.LoadStabilizer, barrier: Barrier.SliceBarrier,
    k: nat,
    previous: Rows) returns (ok: bool, next: Rows)
    requires c.Valid() && Standing(c, adapter, stabilizer, barrier, k) && previous == Reference(c, k).value.applied
    modifies adapter, adapter.worker, stabilizer, barrier
    ensures ok ==> Standing(c, adapter, stabilizer, barrier, k + 1) && next == Reference(c, k + 1).value.applied
    ensures !ok ==> Committed(c, adapter, stabilizer, barrier, k) && Stopped(c, barrier, k)
  {
    hide Reference, Next, Barrier.Consistent, Stabilizer.ValidFilter, Stabilizer.ThreeByThree;
    ReferenceStep(c, k);
    ghost var p := Reference(c, k).value;
    var filtered := ProposeStep(c, adapter, stabilizer, barrier, k, p, previous);
    if filtered.None? {
      stabilizer.RollbackLoad();
      return false, previous;
    }
    assert Steps(c, k + 1) == Steps(c, k) + [c.source.step + k + 1];
    var committed := barrier.CommitPrepared(c.fault(k + 1));
    if !committed {
      stabilizer.RollbackLoad();
      return false, previous;
    }
    var finalized := adapter.FinalizeCommitted();
    var settled := stabilizer.CommitLoad();
    NextSent(c, p, k);
    return true, filtered.value;
  }

  lemma NextSent(c: Setup, p: Point, k: nat)
    requires c.Valid() && Stabilizer.ThreeByThree(p.applied)
    ensures Next(c, p, k).Some? ==> |Next(c, p, k).value.sent| == |p.sent| + 1
  {
    hide FilteredLoad;
  }

  lemma PublishedWhereStanding(b: Barrier.State)
    requires Barrier.Consistent(b) && !b.failed
    ensures b.published == b.records
  {
  }

  lemma ObservedState(c: Setup, p: Point, k: nat)
    requires Observed(c, p, k).Some?
    ensures c.source.kernel(p.state, p.applied, c.source.step + k + 1) == Some(Observed(c, p, k).value.state)
    ensures |Observed(c, p, k).value.sent| == |p.sent| + 1
  {
  }

  /** The whole loop over at most `steps` steps, from fresh components. */
  method RunConfirm(
    c: Setup, adapter: Adapter.KernelAdapter, stabilizer: Stabilizer.LoadStabilizer, barrier: Barrier.SliceBarrier,
    steps: nat) returns (completed: nat, previous: Rows)
    requires c.Valid() && Standing(c, adapter, stabilizer, barrier, 0)
    modifies adapter, adapter.worker, stabilizer, barrier
    ensures completed <= steps && Committed(c, adapter, stabilizer, barrier, completed)
    ensures completed < steps ==> Stopped(c, barrier, completed)
    ensures completed == steps ==>
      Standing(c, adapter, stabilizer, barrier, steps) && previous == Reference(c, steps).value.applied
  {
    hide Reference, Stopped, Barrier.Consistent;
    assert Reference(c, 0) == Some(Point(c.source.initial, c.applied, [])) by {
      ReferenceStart(c);
    }
    previous := c.applied;
    for k: nat := 0 to steps
      invariant Standing(c, adapter, stabilizer, barrier, k) && previous == Reference(c, k).value.applied
    {
      var ok;
      ok, previous := ConfirmStep(c, adapter, stabilizer, barrier, k, previous);
      if !ok {
        return k, previous;
      }
    }
    return steps, previous;
  }

  lemma ReferenceStart(c: Setup)
    requires c.Valid()
    ensures Reference(c, 0) == Some(Point(c.source.initial, c.applied, []))
  {
  }

  // ----- what the recurrence says

  lemma StepSent(c: Setup, k: nat)
    requires c.Valid() && Reference(c, k).Some?
    ensures k > 0 ==>
      && Reference(c, k - 1).Some? && |Reference(c, k).value.sent| == k
      && var p, sent := Reference(c, k - 1).value, Reference(c, k).value.sent;
      c.translate(Reference(c, k).value.state) == Some(sent[k - 1]) && sent == p.sent + [sent[k - 1]]
  {
    hide FilteredLoad, Barrier.Answers;
  }

  lemma {:induction false} EarlierPoints(c: Setup, j: nat, k: nat)
    requires c.Valid() && Reference(c, k).Some?
    ensures |Reference(c, k).value.sent| == k
    ensures j <= k ==> Reference(c, j).Some? && Reference(c, j).value.sent == Reference(c, k).value.sent[..j]
    decreases k
  {
    hide Reference;
    SentLength(c, k);
    if j < k {
      StepSent(c, k);
      EarlierPoints(c, j, k - 1);
      SentLength(c, k - 1);
    }
  }

  lemma SentLength(c: Setup, k: nat)
    requires c.Valid() && Reference(c, k).Some?
    ensures |Reference(c, k).value.sent| == k
  {
    hide Next;
  }

  /** The motion sent to the slices at step `j` is the translation of the structural state committed at step `j`. */
  lemma SentIsCommitted(c: Setup, k: nat)
    requires c.Valid() && Reference(c, k).Some?
    ensures |Reference(c, k).value.sent| == k
    ensures forall j: nat :: 0 < j <= k ==>
      Reference(c, j).Some? && c.translate(Reference(c, j).value.state) == Some(Reference(c, k).value.sent[j - 1])
  {
    hide Reference;
    SentLength(c, k);
    forall j: nat | 0 < j <= k
      ensures Reference(c, j).Some?
      ensures c.translate(Reference(c, j).value.state) == Some(Reference(c, k).value.sent[j - 1])
    {
      EarlierPoints(c, j, k);
      StepSent(c, j);
    }
  }

  /** The applied loads `A_0 .. A_{k-1}`, each at the step it acts on. */
  ghost function AppliedLoads(c: Setup, k: nat): (loads: seq<Adapter.StepLoad>)
    requires c.Valid() && Reference(c, k).Some?
    ensures |loads| == k
  {
    if k == 0 then []
    else
      var p := Reference(c, k - 1).value;
      AppliedLoads(c, k - 1) + [Adapter.StepLoad(c.source.step + k, p.applied)]
  }

  lemma {:induction false} FoldSnoc(source: Adapter.Source, state: Adapter.Kinematics, loads: seq<Adapter.StepLoad>,
                                    last: Adapter.StepLoad)
    requires Adapter.Fold(source, state, loads).Some?
    ensures Adapter.Fold(source, state, loads + [last])
      == source.kernel(Adapter.Fold(source, state, loads).value, last.force, last.step)
    decreases |loads|
  {
    if loads == [] {
      assert ([] + [last])[1..] == [];
    } else {
      assert (loads + [last])[0] == loads[0] && (loads + [last])[1..] == loads[1..] + [last];
      FoldSnoc(source, source.kernel(state, loads[0].force, loads[0].step).value, loads[1..], last);
    }
  }

  lemma StepState(c: Setup, k: nat)
    requires c.Valid() && Reference(c, k).Some?
    ensures k > 0 ==>
      && Reference(c, k - 1).Some?
      && var p := Reference(c, k - 1).value;
      c.source.kernel(p.state, p.applied, c.source.step + k) == Some(Reference(c, k).value.state)
  {
    hide FilteredLoad, Observed;
    if k > 0 {
      ObservedState(c, Reference(c, k - 1).value, k - 1);
    }
  }

  /** The structure after `k` steps is the fold of the kernel over the loads applied before the step each acts on. */
  lemma {:induction false} StateIsFold(c: Setup, k: nat)
    requires c.Valid() && Reference(c, k).Some?
    ensures Adapter.Fold(c.source, c.source.initial, AppliedLoads(c, k)) == Some(Reference(c, k).value.state)
  {
    hide Reference;
    if k > 0 {
      StepState(c, k);
      StateIsFold(c, k - 1);
      var last := Adapter.StepLoad(c.source.step + k, Reference(c, k - 1).value.applied);
      FoldSnoc(c.source, c.source.initial, AppliedLoads(c, k - 1), last);
    } else {
      ReferenceStart(c);
    }
  }

  /** The raw load of step `k`, as long as the recurrence gets that far. */
  ghost function RawOf(c: Setup, k: nat): Rows
    requires c.Valid() && k > 0
  {
    match Reference(c, k - 1)
    case None => []
    case Some(p) =>
      match Observed(c, p, k - 1)
      case None => []
      case Some(x) => x.raw
  }

  /** The raw loads of the first `k` steps, as events of the filter. */
  ghost function RawLoads(c: Setup, k: nat): (events: seq<Stabilizer.Event>)
    requires c.Valid()
    ensures |events| == k
  {
    if k == 0 then [] else RawLoads(c, k - 1) + [Stabilizer.Event(c.tickStep, RawOf(c, k))]
  }

  ghost predicate Shaped(events: seq<Stabilizer.Event>) {
    forall i :: 0 <= i < |events| ==> Stabilizer.ThreeByThree(events[i].raw)
  }

  lemma AcceptedShape(c: Setup, applied: Rows, raw: Rows, k: int)
    requires c.Valid() && Stabilizer.ThreeByThree(applied)
    ensures FilteredLoad(c, applied, raw, k).Some? ==>
      && Stabilizer.ThreeByThree(raw)
      && FilteredLoad(c, applied, raw, k).value
         == Stabilizer.Blended(applied, raw, Stabilizer.Alpha(c.settings, c.tickStep))
  {
    hide Stabilizer.GateError, Stabilizer.Blended;
    assert c.TickOf(k + 1) - c.TickOf(k) == c.tickStep;
  }

  lemma {:induction false} FilteredSnoc(settings: Stabilizer.Settings, start: Rows, events: seq<Stabilizer.Event>,
                                        last: Stabilizer.Event)
    requires Stabilizer.ThreeByThree(start) && Stabilizer.ThreeByThree(last.raw)
    requires forall i :: 0 <= i < |events| ==> Stabilizer.ThreeByThree(events[i].raw)
    ensures Stabilizer.Filtered(settings, start, events + [last])
      == Stabilizer.Blended(Stabilizer.Filtered(settings, start, events), last.raw,
                            Stabilizer.Alpha(settings, last.ticks))
    decreases |events|
  {
    hide Stabilizer.BlendRow, Stabilizer.Alpha;
    if events == [] {
      assert ([] + [last])[1..] == [];
    } else {
      assert (events + [last])[0] == events[0] && (events + [last])[1..] == events[1..] + [last];
      FilteredSnoc(settings, Stabilizer.Blended(start, events[0].raw, Stabilizer.Alpha(settings, events[0].ticks)),
                   events[1..], last);
    }
  }

  /** The applied load of a step is the filter of its raw load. */
  lemma StepApplied(c: Setup, k: nat)
    requires c.Valid() && Reference(c, k).Some?
    ensures k > 0 ==>
      && Reference(c, k - 1).Some? && Stabilizer.ThreeByThree(RawOf(c, k))
      && Reference(c, k).value.applied
         == Stabilizer.Blended(Reference(c, k - 1).value.applied, RawOf(c, k), Stabilizer.Alpha(c.settings, c.tickStep))
  {
    hide FilteredLoad, Observed, Stabilizer.Blended;
    if k > 0 {
      AcceptedShape(c, Reference(c, k - 1).value.applied, RawOf(c, k), k - 1);
    }
  }

  /** The load applied after `k` steps is the reference filter of the raw loads of those steps. */
  lemma {:induction false} AppliedIsFiltered(c: Setup, k: nat)
    requires c.Valid() && Reference(c, k).Some?
    ensures Shaped(RawLoads(c, k))
    ensures Reference(c, k).value.applied == Stabilizer.Filtered(c.settings, c.applied, RawLoads(c, k))
  {
    hide Stabilizer.Blended, Stabilizer.Alpha, Reference, RawOf;
    if k > 0 {
      StepApplied(c, k);
      AppliedIsFiltered(c, k - 1);
      FilteredSnoc(c.settings, c.applied, RawLoads(c, k - 1), Stabilizer.Event(c.tickStep, RawOf(c, k)));
    } else {
      ReferenceStart(c);
    }
  }

  /** The slices answer alike as long as they have received fewer than `k` motions. */
  ghost predicate AgreeBefore(c: Setup, d: Setup, k: nat) {
    && d == c.(slices := d.slices) && d.slices.identified == c.slices.identified
    && forall sid, heard :: |heard| < k ==> c.slices.advance(sid, heard) == d.slices.advance(sid, heard)
  }

  /** No load acts on the step that produced it: what the slices answer from step `k` on cannot change the state or
      the motion of step `k`. */
  lemma {:induction false} NoLoadActsOnItsOwnStep(c: Setup, d: Setup, k: nat)
    requires c.Valid() && d.Valid() && AgreeBefore(c, d, k)
    requires Reference(c, k).Some? && Reference(d, k).Some?
    ensures Reference(c, k).value.state == Reference(d, k).value.state
    ensures Reference(c, k).value.sent == Reference(d, k).value.sent
  {
    hide Next, Reference, AgreeBefore;
    if k == 0 {
      ReferenceStart(c);
      ReferenceStart(d);
      SameInitial(c, d, k);
      return;
    }
    SameBefore(c, d, k, k - 1);
    NothingAfter(c, k);
    if Reference(c, k - 1).Some? {
      ReferenceStep(c, k - 1);
      ReferenceStep(d, k - 1);
      SameStateSent(c, d, Reference(c, k - 1).value, k);
    }
  }

  lemma NothingAfter(c: Setup, k: nat)
    requires c.Valid()
    ensures k > 0 && Reference(c, k - 1).None? ==> Reference(c, k).None?
  {
  }

  lemma SameStateSent(c: Setup, d: Setup, p: Point, k: nat)
    requires c.Valid() && d.Valid() && k > 0 && AgreeBefore(c, d, k) && Stabilizer.ThreeByThree(p.applied)
    ensures Next(c, p, k - 1).Some? && Next(d, p, k - 1).Some? ==>
      && Next(c, p, k - 1).value.state == Next(d, p, k - 1).value.state
      && Next(c, p, k - 1).value.sent == Next(d, p, k - 1).value.sent
  {
    hide FilteredLoad;
  }

  lemma {:induction false} SameBefore(c: Setup, d: Setup, k: nat, j: nat)
    requires c.Valid() && d.Valid() && AgreeBefore(c, d, k) && j < k
    ensures Reference(c, j) == Reference(d, j)
    decreases j
  {
    hide Next, Reference, AgreeBefore;
    if j == 0 {
      ReferenceStart(c);
      ReferenceStart(d);
      SameInitial(c, d, k);
    } else {
      SameBefore(c, d, k, j - 1);
      if Reference(c, j - 1).Some? {
        ReferenceStep(c, j - 1);
        ReferenceStep(d, j - 1);
        SameNext(c, d, k, Reference(c, j - 1).value, j - 1);
      } else {
        NothingAfter(c, j);
        NothingAfter(d, j);
      }
    }
  }

  lemma SameInitial(c: Setup, d: Setup, k: nat)
    requires AgreeBefore(c, d, k)
    ensures c.source == d.source && c.applied == d.applied
  {
  }

  lemma SameNext(c: Setup, d: Setup, k: nat, p: Point, j: nat)
    requires c.Valid() && d.Valid() && AgreeBefore(c, d, k) && |p.sent| == j && j + 1 < k
    requires Stabilizer.ThreeByThree(p.applied)
    ensures Next(c, p, j) == Next(d, p, j)
  {
    hide FilteredLoad, Observed;
    SameFilter(c, d, p.applied, j);
    SameObserved(c, d, k, p, j);
  }

  lemma SameObserved(c: Setup, d: Setup, k: nat, p: Point, j: nat)
    requires AgreeBefore(c, d, k) && |p.sent| == j && j + 1 < k
    ensures Observed(c, p, j) == Observed(d, p, j)
  {
    hide Barrier.Answers;
    assert c.TimeOf(j + 1) == d.TimeOf(j + 1);
    forall motions: Barrier.Motions
      ensures Barrier.Answers(c.slices, p.sent + [motions]) == Barrier.Answers(d.slices, p.sent + [motions])
    {
      Barrier.AnswersAlike(c.slices, d.slices, p.sent + [motions]);
    }
  }

  lemma SameFilter(c: Setup, d: Setup, applied: Rows, k: int)
    requires c.Valid() && d.Valid() && d == c.(slices := d.slices) && Stabilizer.ThreeByThree(applied)
    ensures forall raw :: FilteredLoad(c, applied, raw, k) == FilteredLoad(d, applied, raw, k)
  {
    hide Stabilizer.ApplyError, Stabilizer.Blended;
  }

  // ----- a step of the recurrence in the calls it makes

  /** The time at the end of step `k + 1`. */
  function EndTime(c: Setup, k: nat): real {
    c.source.time + (k + 1) as real * c.source.dt
  }

  lemma EndTimeIs(c: Setup, k: nat)
    ensures c.TimeOf(k + 1) == EndTime(c, k)
  {
  }

  /** What the kernel, the translation, the slices and the filter must do in step `k + 1`. */
  ghost predicate StepHolds(c: Setup, p: Point, k: nat, motions: Barrier.Motions, heard: seq<seq<Barrier.Motion>>,
                            raw: Rows, next: Point)
    requires |heard| == 3 && Stabilizer.ThreeByThree(p.applied)
  {
    var step, time := c.source.step + k + 1, EndTime(c, k);
    && c.source.kernel(p.state, p.applied, step) == Some(next.state)
    && c.translate(next.state) == Some(motions) && motions.Keys == {0, 1, 2} && next.sent == p.sent + [motions]
    && c.slices.identified(step, time)
    && |raw| == 3 && (forall sid: nat :: sid < 3 ==> c.slices.advance(sid, heard[sid]) == Some(raw[sid]))
    && IsFiltered(c, p.applied, k, time, raw, next.applied)
  }

  /** The share `alpha` of the way from the old value to the new one. */
  function Approached(old_: real, raw: real, alpha: real): real {
    old_ + alpha * (raw - old_)
  }

  ghost predicate RowApproaches(old_: seq<real>, raw: seq<real>, alpha: real, row: seq<real>)
    requires |old_| == |raw| == 3
  {
    |row| == 3 && forall j :: 0 <= j < 3 ==> row[j] == Approached(old_[j], raw[j], alpha)
  }

  ghost predicate Approaches(old_: Rows, raw: Rows, alpha: real, applied: Rows)
    requires Stabilizer.ThreeByThree(old_) && Stabilizer.ThreeByThree(raw)
  {
    |applied| == 3 && forall i :: 0 <= i < 3 ==> RowApproaches(old_[i], raw[i], alpha, applied[i])
  }

  /** The applied load of the next step: the approach over the ticks of a step, inside both gates, at a time on the tick
      grid. */
  ghost predicate IsFiltered(c: Setup, old_: Rows, k: nat, time: real, raw: Rows, applied: Rows)
    requires Stabilizer.ThreeByThree(old_)
  {
    var alpha := 1.0 - c.settings.decay(c.tickStep);
    && Stabilizer.ThreeByThree(raw) && |c.settings.scales| == 3
    && -5.0e-13 <= time - (c.tick + (k + 1) * c.tickStep) as real / 1.0e9 <= 5.0e-13
    && Stabilizer.InGates(c.settings, old_, raw, alpha, 0) && Stabilizer.InGates(c.settings, old_, raw, alpha, 1)
    && Stabilizer.InGates(c.settings, old_, raw, alpha, 2)
    && Approaches(old_, raw, alpha, applied)
  }

  lemma FilteredInFull(c: Setup, old_: Rows, k: nat, raw: Rows, applied: Rows)
    requires c.Valid() && Stabilizer.ThreeByThree(old_)
    ensures FilteredLoad(c, old_, raw, k) == Some(applied)
      <==> IsFiltered(c, old_, k, EndTime(c, k), raw, applied)
  {
    hide Stabilizer.InGates, Stabilizer.ApplyError, Stabilizer.Blended, Stabilizer.IsDecay, Approaches,
         Stabilizer.ThreeByThree, Setup.TickOf, Setup.TimeOf, EndTime;
    TicksOfStep(c, k);
    EndTimeIs(c, k);
    Stabilizer.AppliesInNumbers(c.settings, FilterAt(c, old_, k), c.source.step + k + 1, c.TimeOf(k + 1),
                                c.TickOf(k + 1), raw);
    if Stabilizer.ThreeByThree(raw) {
      BlendedIs(old_, raw, 1.0 - c.settings.decay(c.tickStep), applied);
    }
  }

  lemma TicksOfStep(c: Setup, k: nat)
    requires c.tickStep > 0
    ensures c.TickOf(k + 1) == c.tick + (k + 1) * c.tickStep && c.TickOf(k + 1) - c.TickOf(k) == c.tickStep
  {
  }

  lemma RowIs(old_: seq<real>, raw: seq<real>, alpha: real, row: seq<real>)
    requires |old_| == |raw| == 3
    ensures row == Stabilizer.BlendRow(old_, raw, alpha) <==> RowApproaches(old_, raw, alpha, row)
  {
    forall j | 0 <= j < 3
      ensures Stabilizer.Blend(old_[j], raw[j], alpha) == Approached(old_[j], raw[j], alpha)
    {
      BlendIs(old_[j], raw[j], alpha);
    }
    hide Approached, Stabilizer.Blend;
    assert |row| == 3 ==> row == [row[0], row[1], row[2]];
  }

  lemma BlendIs(old_: real, raw: real, alpha: real)
    ensures Stabilizer.Blend(old_, raw, alpha) == Approached(old_, raw, alpha)
  {
  }

  lemma BlendedIs(old_: Rows, raw: Rows, alpha: real, applied: Rows)
    requires Stabilizer.ThreeByThree(old_) && Stabilizer.ThreeByThree(raw)
    ensures applied == Stabilizer.Blended(old_, raw, alpha) <==> Approaches(old_, raw, alpha, applied)
  {
    hide Stabilizer.BlendRow, RowApproaches;
    if |applied| == 3 {
      assert applied == [applied[0], applied[1], applied[2]];
      RowIs(old_[0], raw[0], alpha, applied[0]);
      RowIs(old_[1], raw[1], alpha, applied[1]);
      RowIs(old_[2], raw[2], alpha, applied[2]);
    }
  }

  lemma AnswersInFull(c: Barrier.Slices, sent: seq<Barrier.Motions>, heard: seq<seq<Barrier.Motion>>, raw: Rows)
    requires |heard| == 3 && forall sid: nat :: sid < 3 ==> Barrier.Hears(heard[sid], sent, sid)
    ensures Barrier.Answers(c, sent) == Some(raw)
      <==> |raw| == 3 && forall sid: nat :: sid < 3 ==> c.advance(sid, heard[sid]) == Some(raw[sid])
  {
    hide Barrier.Hears, Barrier.Heard;
    var call := Barrier.Call(c, sent);
    forall sid: nat | sid < 3
      ensures call(sid) == c.advance(sid, heard[sid])
    {
      Barrier.HearsIs(heard[sid], sent, sid);
    }
    if |raw| == 3 && forall sid: nat :: sid < 3 ==> c.advance(sid, heard[sid]) == Some(raw[sid]) {
      Gather.SameResults(3, call, raw);
    }
  }

  /** The recurrence takes its step exactly when all of them do, with the values they give. */
  lemma NextInFull(c: Setup, p: Point, k: nat, motions: Barrier.Motions, heard: seq<seq<Barrier.Motion>>, next: Point)
    requires c.Valid() && Stabilizer.ThreeByThree(p.applied) && |heard| == 3
    requires var state := c.source.kernel(p.state, p.applied, c.source.step + k + 1);
      state.Some? && c.translate(state.value).Some? ==> c.translate(state.value) == Some(motions)
    requires forall sid: nat :: sid < 3 ==> Barrier.Hears(heard[sid], p.sent + [motions], sid)
    ensures Next(c, p, k) == Some(next) <==> exists raw :: StepHolds(c, p, k, motions, heard, raw, next)
  {
    hide FilteredLoad, IsFiltered, Stabilizer.IsDecay, Stabilizer.ThreeByThree, Barrier.Answers, Barrier.Hears,
         Setup.TimeOf, EndTime;
    EndTimeIs(c, k);
    if Next(c, p, k) == Some(next) {
      var raw := Observed(c, p, k).value.raw;
      AnswersInFull(c.slices, p.sent + [motions], heard, raw);
      FilteredInFull(c, p.applied, k, raw, next.applied);
      assert StepHolds(c, p, k, motions, heard, raw, next);
    }
    if exists raw :: StepHolds(c, p, k, motions, heard, raw, next) {
      var raw :| StepHolds(c, p, k, motions, heard, raw, next);
      AnswersInFull(c.slices, p.sent + [motions], heard, raw);
      FilteredInFull(c, p.applied, k, raw, next.applied);
    }
  }
}
