/**
 The predict/correct adapter of a resident worker. The worker serves sequence numbers one after
 another and dies on any other; the adapter asks for prediction 2b-1 and correction 2b of step b,
 both from the committed state.
 */
module Adapter {
  import opened Wrappers
  import opened Vectors

  datatype Kinematics = Kinematics(q: seq<real>, qdot: seq<real>, qddot: seq<real>)

  type Forces = seq<seq<real>>

  const SLICES := 3
  const TIME_TOLERANCE := 1.0e-12

  /** The source of a segment, and the kernel as the function of state, slice forces and step that it is. */
  datatype Source = Source(
    step: int, time: real, dt: real, initial: Kinematics, kernel: (Kinematics, Forces, int) -> Option<Kinematics>)

  datatype Phase = Prediction | Correction

  datatype Served = Served(sequence: int, phase: Phase)

  datatype AdapterError = Unavailable | WrongIdentity | WrongPhase | BadForces | WorkerFailed | DuplicateStart

  datatype Pending = Pending(phase: Phase, step: int, time: real, bridge: Option<int>, motion: Option<Kinematics>)

  /** The adapter's fields and the log of the worker behind it. */
  datatype Session = Session(
    started: bool, terminal: bool, state: Kinematics, committed: Kinematics, pending: Option<Pending>,
    alive: bool, log: seq<Served>)

  predicate Identified(c: Source, step: int, time: real) {
    var bridge := step - c.step;
    bridge > 0 && Abs(time - (c.time + bridge as real * c.dt)) <= TIME_TOLERANCE
  }

  predicate ForceShape(f: Forces) {
    |f| == SLICES && forall i :: 0 <= i < SLICES ==> |f[i]| == 3
  }

  // ----- the worker

  /** A request is served when it carries the next sequence number and the kernel succeeds; otherwise the worker
      exits. */
  class ResidentWorker {
    var alive: bool
    var log: seq<Served>

    constructor ()
      ensures alive && log == []
    {
      alive, log := true, [];
    }

    method Serve(c: Source, sequence: int, phase: Phase, state: Kinematics, force: Forces, step: int)
        returns (r: Option<Kinematics>)
      modifies this
      ensures (alive, log, r) == ServedBy(c, old(alive), old(log), sequence, phase, state, force, step)
    {
      if !alive {
        return None;
      }
      if sequence != |log| + 1 {
        alive := false;
        return None;
      }
      r := c.kernel(state, force, step);
      if r.None? {
        alive := false;
      } else {
        log := log + [Served(sequence, phase)];
      }
    }
  }

  function ServedBy(c: Source, alive: bool, log: seq<Served>, sequence: int, phase: Phase, state: Kinematics,
      force: Forces, step: int):
    (bool, seq<Served>, Option<Kinematics>)
  {
    if !alive then (false, log, None)
    else if sequence != |log| + 1 then (false, log, None)
    else
      match c.kernel(state, force, step)
      case None => (false, log, None)
      case Some(next) => (true, log + [Served(sequence, phase)], Some(next))
  }

  // ----- the operations on sessions

  datatype Op =
    | Start
    | Predict(step: int, time: real, force: Forces)
    | Correct(step: int, time: real, force: Forces)
    | Finalize
    | Discard
    | Load(state: Kinematics)
    | Shutdown

  function Predicted(c: Source, s: Session, step: int, time: real, force: Forces):
      (Session, Result<Kinematics, AdapterError>) {
    if s.terminal || !s.started then (s, Err(Unavailable))
    else if !Identified(c, step, time) then (s, Err(WrongIdentity))
    else if s.pending.Some? then (s, Err(WrongPhase))
    else if !ForceShape(force) then (s, Err(BadForces))
    else
      var bridge := step - c.step;
      var (alive, log, r) := ServedBy(c, s.alive, s.log, 2 * bridge - 1, Prediction, s.committed, force, step);
      match r
      case None => (s.(alive := alive, log := log, terminal := true), Err(WorkerFailed))
      case Some(motion) =>
        (s.(alive := alive, log := log,
            pending := Some(Pending(Prediction, step, time, Some(bridge), Some(motion)))), Ok(motion))
  }

  /** The prediction of this step awaits its correction. */
  predicate Predicting(s: Session, step: int, time: real) {
    && s.pending.Some? && s.pending.value.phase.Prediction? && s.pending.value.step == step
    && Abs(s.pending.value.time - time) <= TIME_TOLERANCE
  }

  function Corrected(c: Source, s: Session, step: int, time: real, force: Forces): (Session, Result<(), AdapterError>) {
    if s.terminal || !s.started then (s, Err(Unavailable))
    else if !Identified(c, step, time) then (s, Err(WrongIdentity))
    else if !Predicting(s, step, time) then (s, Err(WrongPhase))
    else if !ForceShape(force) then (s, Err(BadForces))
    else
      var (alive, log, r) := ServedBy(c, s.alive, s.log, 2 * (step - c.step), Correction, s.committed, force, step);
      match r
      case None => (s.(alive := alive, log := log, terminal := true), Err(WorkerFailed))
      case Some(next) =>
        (s.(alive := alive, log := log, state := next,
            pending := Some(s.pending.value.(phase := Correction, bridge := None, motion := None))), Ok(()))
  }

  function After(c: Source, s: Session, op: Op): Session {
    match op
    case Start => if s.started || s.terminal then s else s.(started := true)
    case Predict(step, time, force) => Predicted(c, s, step, time, force).0
    case Correct(step, time, force) => Corrected(c, s, step, time, force).0
    case Finalize =>
      if s.pending.Some? && s.pending.value.phase.Correction? then s.(committed := s.state, pending := None) else s
    case Discard => s.(state := s.committed, pending := None)
    case Load(state) => s.(state := state, committed := state, pending := None)
    case Shutdown => s.(started := false, terminal := true)
  }

  /** A pending prediction always carries its bridge and its motion. */
  ghost predicate Consistent(c: Source, s: Session) {
    s.pending.Some? && s.pending.value.phase.Prediction? ==>
      s.pending.value.bridge == Some(s.pending.value.step - c.step) && s.pending.value.motion.Some?
  }

  // ----- the adapter

  class KernelAdapter {
    const source: Source
    const worker: ResidentWorker
    var started: bool
    var terminal: bool
    var state: Kinematics
    var committed: Kinematics
    var pending: Option<Pending>

    ghost function View(): Session
      reads this, worker
    {
      Session(started, terminal, state, committed, pending, worker.alive, worker.log)
    }

    constructor (source: Source, worker: ResidentWorker)
      ensures this.source == source && this.worker == worker
      ensures View() == Session(false, false, source.initial, source.initial, None, worker.alive, worker.log)
    {
      this.source, this.worker := source, worker;
      started, terminal, state, committed, pending := false, false, source.initial, source.initial, None;
    }

    method StartWorker() returns (r: Result<(), AdapterError>)
      modifies this`started
      ensures View() == After(source, old(View()), Start)
      ensures r.Ok? <==> !old(started) && !old(terminal)
    {
      if started || terminal {
        return Err(DuplicateStart);
      }
      started := true;
      return Ok(());
    }

    method PredictMotion(step: int, time: real, force: Forces) returns (r: Result<Kinematics, AdapterError>)
      requires Consistent(source, View())
      modifies this, worker
      ensures (View(), r) == Predicted(source, old(View()), step, time, force) && Consistent(source, View())
    {
      if terminal || !started {
        return Err(Unavailable);
      }
      if !Identified(source, step, time) {
        return Err(WrongIdentity);
      }
      if pending.Some? {
        return Err(WrongPhase);
      }
      if !ForceShape(force) {
        return Err(BadForces);
      }
      var bridge := step - source.step;
      var motion := worker.Serve(source, 2 * bridge - 1, Prediction, committed, force, step);
      if motion.None? {
        terminal := true;
        return Err(WorkerFailed);
      }
      pending := Some(Pending(Prediction, step, time, Some(bridge), motion));
      return Ok(motion.value);
    }

    /** The correction of the pending prediction; the check that its motion is present never fails. */
    method CorrectState(step: int, time: real, force: Forces) returns (r: Result<(), AdapterError>)
      requires Consistent(source, View())
      modifies this, worker
      ensures (View(), r) == Corrected(source, old(View()), step, time, force) && Consistent(source, View())
    {
      if terminal || !started {
        return Err(Unavailable);
      }
      if !Identified(source, step, time) {
        return Err(WrongIdentity);
      }
      if pending.None? || !pending.value.phase.Prediction? || pending.value.step != step
        || Abs(pending.value.time - time) > TIME_TOLERANCE {
        return Err(WrongPhase);
      }
      if pending.value.bridge != Some(step - source.step) || pending.value.motion.None? {
        assert false;
      }
      if !ForceShape(force) {
        return Err(BadForces);
      }
      var next := worker.Serve(source, 2 * (step - source.step), Correction, committed, force, step);
      if next.None? {
        terminal := true;
        return Err(WorkerFailed);
      }
      state := next.value;
      pending := Some(pending.value.(phase := Correction, bridge := None, motion := None));
      return Ok(());
    }

    method FinalizeCommitted() returns (r: Result<(), AdapterError>)
      modifies this
      ensures View() == After(source, old(View()), Finalize)
      ensures r.Ok? <==> old(pending).Some? && old(pending).value.phase.Correction?
    {
      if pending.None? || !pending.value.phase.Correction? {
        return Err(WrongPhase);
      }
      committed := state;
      pending := None;
      return Ok(());
    }

    method DiscardStaged()
      modifies this
      ensures View() == After(source, old(View()), Discard)
    {
      state := committed;
      pending := None;
    }

    method LoadCheckpoint(loaded: Kinematics)
      modifies this
      ensures View() == After(source, old(View()), Load(loaded))
    {
      state, committed, pending := loaded, loaded, None;
    }

    method Stop()
      modifies this
      ensures View() == After(source, old(View()), Shutdown)
    {
      started, terminal := false, true;
    }
  }

  // ----- runs

  function Run(c: Source, s: Session, ops: seq<Op>): Session
    decreases |ops|
  {
    if ops == [] then s else Run(c, After(c, s, ops[0]), ops[1..])
  }

  function Fresh(c: Source): Session {
    Session(false, false, c.initial, c.initial, None, true, [])
  }

  datatype StepLoad = StepLoad(step: int, force: Forces)

  /** The last correction that succeeded; it counts only while the session awaits its commit. */
  function Staged(c: Source, s: Session, staged: Option<StepLoad>, op: Op): Option<StepLoad> {
    match op
    case Correct(step, time, force) =>
      if Corrected(c, s, step, time, force).1.Ok? then Some(StepLoad(step, force)) else staged
    case _ => staged
  }

  /** The corrections that a run finalizes, in order. */
  function Finalized(c: Source, s: Session, staged: Option<StepLoad>, ops: seq<Op>): seq<StepLoad>
    decreases |ops|
  {
    if ops == [] then []
    else
      var rest := Finalized(c, After(c, s, ops[0]), Staged(c, s, staged, ops[0]), ops[1..]);
      if ops[0].Finalize? && staged.Some? && s.pending.Some? && s.pending.value.phase.Correction?
        then [staged.value] + rest else rest
  }

  /** The kernel applied to one force after another. */
  function Fold(c: Source, state: Kinematics, loads: seq<StepLoad>): Option<Kinematics>
    decreases |loads|
  {
    if loads == [] then Some(state)
    else
      match c.kernel(state, loads[0].force, loads[0].step)
      case None => None
      case Some(next) => Fold(c, next, loads[1..])
  }

  ghost predicate Tracks(c: Source, s: Session, staged: Option<StepLoad>) {
    s.pending.Some? && s.pending.value.phase.Correction? ==>
      && staged.Some? && staged.value.step == s.pending.value.step
      && c.kernel(s.committed, staged.value.force, staged.value.step) == Some(s.state)
  }

  lemma {:induction false} FoldWithoutLoads(c: Source, s: Session, staged: Option<StepLoad>, ops: seq<Op>)
    requires Tracks(c, s, staged) && forall i :: 0 <= i < |ops| ==> !ops[i].Load?
    ensures Fold(c, s.committed, Finalized(c, s, staged, ops)) == Some(Run(c, s, ops).committed)
    decreases |ops|
  {
    hide Identified, ForceShape;
    if ops != [] {
      var t, next := After(c, s, ops[0]), Staged(c, s, staged, ops[0]);
      assert !ops[0].Load?;
      FoldWithoutLoads(c, t, next, ops[1..]);
      var rest := Finalized(c, t, next, ops[1..]);
      if ops[0].Finalize? && staged.Some? && s.pending.Some? && s.pending.value.phase.Correction? {
        assert ([staged.value] + rest)[1..] == rest;
      }
    }
  }

  /** How many operations lie behind the last loaded checkpoint; zero when none was loaded. */
  function LastLoad(ops: seq<Op>): (n: nat)
    ensures n <= |ops| && (n > 0 ==> ops[n - 1].Load?) && forall i :: n <= i < |ops| ==> !ops[i].Load?
  {
    if ops == [] then 0
    else if ops[|ops| - 1].Load? then |ops|
    else LastLoad(ops[..|ops| - 1])
  }

  lemma {:induction false} RunSplits(c: Source, s: Session, ops: seq<Op>, n: nat)
    requires n <= |ops|
    ensures Run(c, s, ops) == Run(c, Run(c, s, ops[..n]), ops[n..])
    decreases |ops|
  {
    hide After;
    if n == 0 {
      assert ops[0..] == ops && ops[..0] == [];
    } else {
      RunSplits(c, After(c, s, ops[0]), ops[1..], n - 1);
      assert ops[..n][1..] == ops[1..][..n - 1] && ops[1..][n - 1..] == ops[n..];
    }
  }

  /** Over any run the committed state is the fold of the kernel over the forces of the corrections finalized since the
      last loaded checkpoint, from the state that was loaded, or from the first state when none was; predictions leave
      no trace. */
  lemma CommittedIsFold(c: Source, s: Session, staged: Option<StepLoad>, ops: seq<Op>)
    requires Tracks(c, s, staged)
    ensures var n := LastLoad(ops);
      var t := Run(c, s, ops[..n]);
      && t.committed == (if n == 0 then s.committed else ops[n - 1].state)
      && Fold(c, t.committed, Finalized(c, t, if n == 0 then staged else None, ops[n..]))
         == Some(Run(c, s, ops).committed)
  {
    hide Finalized, Fold;
    var n := LastLoad(ops);
    RunSplits(c, s, ops, n);
    if n == 0 {
      assert ops[0..] == ops && ops[..0] == [];
      FoldWithoutLoads(c, s, staged, ops);
    } else {
      var before, load := ops[..n], ops[n - 1];
      RunSplits(c, s, before, n - 1);
      assert before[..n - 1] == ops[..n - 1] && before[n - 1..] == [load] && [load][1..] == [];
      var t := Run(c, s, before);
      assert t == After(c, Run(c, s, ops[..n - 1]), load);
      FoldWithoutLoads(c, t, None, ops[n..]);
    }
  }

  /** The served sequence numbers are 1, 2, 3, ... with predictions odd and corrections even. */
  ghost predicate Alternates(log: seq<Served>) {
    forall i :: 0 <= i < |log| ==> log[i] == Served(i + 1, if i % 2 == 0 then Prediction else Correction)
  }

  lemma {:induction false} ServedInOrder(c: Source, s: Session, ops: seq<Op>)
    requires Alternates(s.log)
    ensures Alternates(Run(c, s, ops).log) && s.log <= Run(c, s, ops).log
    decreases |ops|
  {
    hide Identified, ForceShape;
    if ops != [] {
      var t := After(c, s, ops[0]);
      assert Alternates(t.log) && s.log <= t.log;
      ServedInOrder(c, t, ops[1..]);
    }
  }

  // ----- which steps are committed

  predicate AwaitsCommit(s: Session) {
    s.pending.Some? && s.pending.value.phase.Correction?
  }

  /** An operation that clears the pending state without committing it. */
  predicate Drops(op: Op) {
    op.Discard? || op.Load?
  }

  predicate Commits(s: Session, op: Op) {
    op.Finalize? && AwaitsCommit(s)
  }

  /** Once a staged correction has been dropped, no correction is finalized any more. */
  ghost predicate SkipsNothing(c: Source, s: Session, ops: seq<Op>, dropped: bool)
    decreases |ops|
  {
    ops == []
    || (!(dropped && Commits(s, ops[0]))
        && SkipsNothing(c, After(c, s, ops[0]), ops[1..], dropped || (Drops(ops[0]) && AwaitsCommit(s))))
  }

  /**
   With `taken` corrections behind it, committed or dropped, the log stands where the pending phase
   of the next step leaves it. A dropped prediction leaves it odd, and the worker will then refuse
   every further request.
   */
  ghost predicate InStep(c: Source, s: Session, staged: Option<StepLoad>, taken: nat) {
    match s.pending
    case None => |s.log| == 2 * taken || |s.log| == 2 * taken + 1
    case Some(p) =>
      && p.step == c.step + taken + 1
      && |s.log| == (if p.phase.Prediction? then 2 * taken + 1 else 2 * taken + 2)
      && (p.phase.Correction? ==> staged.Some? && staged.value.step == p.step)
  }

  ghost predicate Consecutive(loads: seq<StepLoad>, first: int) {
    forall i :: 0 <= i < |loads| ==> loads[i].step == first + i
  }

  lemma ConsecutiveFrom(load: StepLoad, rest: seq<StepLoad>, first: int)
    ensures Consecutive([load] + rest, first) <==> load.step == first && Consecutive(rest, first + 1)
  {
    var loads := [load] + rest;
    if load.step == first && Consecutive(rest, first + 1) {
      forall i | 0 <= i < |loads|
        ensures loads[i].step == first + i
      {
        assert i > 0 ==> loads[i] == rest[i - 1];
      }
    }
    if Consecutive(loads, first) {
      assert loads[0] == load;
      forall i | 0 <= i < |rest|
        ensures rest[i].step == first + 1 + i
      {
        assert loads[i + 1] == rest[i];
      }
    }
  }

  /** One operation moves the invariant on: it takes a correction, or leaves the count alone. */
  lemma StaysInStep(c: Source, s: Session, staged: Option<StepLoad>, taken: nat, op: Op)
    requires InStep(c, s, staged, taken)
    ensures InStep(c, After(c, s, op), Staged(c, s, staged, op),
                   if AwaitsCommit(s) && (op.Finalize? || Drops(op)) then taken + 1 else taken)
  {
    hide Identified, ForceShape;
  }

  /**
   For any run, with `done` corrections committed and `lost` ones dropped before it: the steps it
   commits continue the committed ones exactly when it skips nothing.
   */
  lemma {:induction false} CommitsContinue(c: Source, s: Session, staged: Option<StepLoad>, done: nat, lost: nat,
                                           ops: seq<Op>)
    requires InStep(c, s, staged, done + lost)
    ensures Consecutive(Finalized(c, s, staged, ops), c.step + done + 1) <==> SkipsNothing(c, s, ops, lost > 0)
    decreases |ops|
  {
    hide Identified, ForceShape, Consecutive, InStep, After, Staged;
    if ops == [] {
      assert Consecutive([], c.step + done + 1) by {
        NoneConsecutive(c.step + done + 1);
      }
    } else {
      var t, next := After(c, s, ops[0]), Staged(c, s, staged, ops[0]);
      StaysInStep(c, s, staged, done + lost, ops[0]);
      if Commits(s, ops[0]) {
        StagedStep(c, s, staged, done + lost);
        CommitsContinue(c, t, next, done + 1, lost, ops[1..]);
        ConsecutiveFrom(staged.value, Finalized(c, t, next, ops[1..]), c.step + done + 1);
      } else if Drops(ops[0]) && AwaitsCommit(s) {
        CommitsContinue(c, t, next, done, lost + 1, ops[1..]);
      } else {
        CommitsContinue(c, t, next, done, lost, ops[1..]);
      }
    }
  }

  lemma NoneConsecutive(first: int)
    ensures Consecutive([], first)
  {
  }

  lemma StagedStep(c: Source, s: Session, staged: Option<StepLoad>, taken: nat)
    requires InStep(c, s, staged, taken) && AwaitsCommit(s)
    ensures staged.Some? && staged.value.step == c.step + taken + 1
  {
  }

  /**
   The steps a session commits are the consecutive ones from its source on if and only if no
   correction is finalized after a staged one was dropped.
   */
  lemma CommittedStepsAreConsecutive(c: Source, ops: seq<Op>)
    ensures Consecutive(Finalized(c, Fresh(c), None, ops), c.step + 1) <==> SkipsNothing(c, Fresh(c), ops, false)
  {
    CommitsContinue(c, Fresh(c), None, 0, 0, ops);
  }

  /** A session between steps, with `served` requests behind it. */
  ghost predicate Between(s: Session, served: nat) {
    s.started && !s.terminal && s.alive && s.pending.None? && |s.log| == served
  }

  lemma PredictThenCorrect(c: Source, s: Session, k: nat, time: real, force: Forces, staged: Option<StepLoad>)
    requires ForceShape(force) && k > 0 && Identified(c, c.step + k, time) && Between(s, 2 * k - 2)
    requires forall x, step :: c.kernel(x, force, step).Some?
    ensures var u := After(c, s, Predict(c.step + k, time, force));
      var v := After(c, u, Correct(c.step + k, time, force));
      && Between(v.(pending := None), 2 * k) && v.pending.Some? && v.pending.value.phase.Correction?
      && Staged(c, u, staged, Correct(c.step + k, time, force)) == Some(StepLoad(c.step + k, force))
  {
    hide Identified, ForceShape;
  }

  function SkippingRun(c: Source, t1: real, t2: real, force: Forces): seq<Op> {
    [Start, Predict(c.step + 1, t1, force), Correct(c.step + 1, t1, force), Discard,
     Predict(c.step + 2, t2, force), Correct(c.step + 2, t2, force), Finalize]
  }

  /** A discard after a correction lets a step be skipped: step 2 is committed although step 1 never was. */
  lemma DiscardCanSkip(c: Source, force: Forces, t1: real, t2: real)
    requires ForceShape(force) && Identified(c, c.step + 1, t1) && Identified(c, c.step + 2, t2)
    requires forall x, step :: c.kernel(x, force, step).Some?
    ensures Finalized(c, Fresh(c), None, SkippingRun(c, t1, t2, force)) == [StepLoad(c.step + 2, force)]
    ensures !SkipsNothing(c, Fresh(c), SkippingRun(c, t1, t2, force), false)
  {
    hide Identified, ForceShape, Predicted, Corrected, Finalized;
    var run := SkippingRun(c, t1, t2, force);
    var s1 := After(c, Fresh(c), Start);
    PredictThenCorrect(c, s1, 1, t1, force, None);
    var s2 := After(c, s1, run[1]);
    var s3 := After(c, s2, run[2]);
    var s4 := After(c, s3, Discard);
    var first, second := Some(StepLoad(c.step + 1, force)), Some(StepLoad(c.step + 2, force));
    PredictThenCorrect(c, s4, 2, t2, force, first);
    var s5 := After(c, s4, run[4]);
    var s6 := After(c, s5, run[5]);
    assert run[0..] == run;
    FinalizedAt(c, Fresh(c), None, run, 0);
    FinalizedAt(c, s1, None, run, 1);
    FinalizedAt(c, s2, None, run, 2);
    FinalizedAt(c, s3, first, run, 3);
    FinalizedAt(c, s4, first, run, 4);
    FinalizedAt(c, s5, first, run, 5);
    FinalizedLast(c, s6, second, run, 6);
    CommittedStepsAreConsecutive(c, run);
    assert Finalized(c, Fresh(c), None, run)[0].step == c.step + 2;
  }

  lemma FinalizedAt(c: Source, s: Session, staged: Option<StepLoad>, ops: seq<Op>, k: nat)
    requires k < |ops| && !ops[k].Finalize?
    ensures Finalized(c, s, staged, ops[k..])
      == Finalized(c, After(c, s, ops[k]), Staged(c, s, staged, ops[k]), ops[k + 1..])
  {
    assert ops[k..][0] == ops[k] && ops[k..][1..] == ops[k + 1..];
  }

  lemma FinalizedLast(c: Source, s: Session, staged: Option<StepLoad>, ops: seq<Op>, k: nat)
    requires k + 1 == |ops| && ops[k].Finalize? && staged.Some? && s.pending.Some? && s.pending.value.phase.Correction?
    ensures Finalized(c, s, staged, ops[k..]) == [staged.value]
  {
    assert ops[k..][0] == ops[k] && ops[k..][1..] == [];
  }
}
