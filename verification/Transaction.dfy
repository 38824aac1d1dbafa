/**
 The vocabulary of the multi-slice transaction: phases, manifests, the deterministic physics of
 structure, slices and stabilization hook, the faults of the environment, and the abstract
 world that the scheduler, the structure, the hook and the checkpoint store make up together.
 */
module Transaction {
  import opened Wrappers
  import opened Vectors
  import Gather

  type Vec = seq<real>

  datatype Phase =
    | Initialized | Predicted | MotionPublished | MotionConsumed | CfdAdvanced | LoadsReady
    | LoadsConsumed | StructureCorrected | CheckpointPrepared | Committed | RecoveryRequired | Failed

  function NextPhase(p: Phase): Option<Phase> {
    match p
    case Initialized => Some(Predicted)
    case Predicted => Some(MotionPublished)
    case MotionPublished => Some(MotionConsumed)
    case MotionConsumed => Some(CfdAdvanced)
    case CfdAdvanced => Some(LoadsReady)
    case LoadsReady => Some(LoadsConsumed)
    case LoadsConsumed => Some(StructureCorrected)
    case StructureCorrected => Some(CheckpointPrepared)
    case CheckpointPrepared => Some(Committed)
    case _ => None
  }

  /** Schema names a stabilizer state may carry: 0.2.1, its two stabilizer extensions, anything else. */
  datatype Schema = Base | Stabilized | TimeConsistent | Foreign

  datatype StabilizerState = StabilizerState(schema: Schema, memory: Vec)

  datatype StructureState = StructureState(step: int, time: real, q: Vec)

  datatype Extension = Extension(
    runId: string, tick: int, raw: seq<Vec>, applied: seq<Vec>, state: StabilizerState, parent: Option<nat>)

  /** A durable manifest; checkpoint ids are never reused, so a manifest is named by its place in the store. */
  datatype Manifest = Manifest(
    step: int, time: real, slices: seq<Vec>, structure: StructureState, previous: seq<Vec>, generalized: Vec,
    extension: Option<Extension>)

  datatype Config = Config(slices: nat, dt: real, startTime: real, runId: string, hooked: bool, snapshots: bool) {
    predicate Valid() {
      slices > 0 && dt > 0.0 && (hooked ==> runId != "")
    }
  }

  /** Every call into structure, slices and hook as a function; `None` where the call raises. */
  datatype Physics = Physics(
    predict: (StructureState, int, real, seq<Vec>) -> Option<seq<Vec>>,
    advance: (nat, Vec, int, real, Vec) -> Option<Vec>,
    load: (nat, Vec) -> Option<Vec>,
    stabilize: (Option<StabilizerState>, int, int, seq<Vec>) -> Option<(seq<Vec>, StabilizerState)>,
    correct: (StructureState, int, real, seq<Vec>) -> Option<(Vec, Vec)>)

  /**
   What the environment does to a step. `Before(p)`: some call on the way into phase `p` raises
   before it has an effect. `CorrectionRejected`: the staged correction is refused by validation.
   `PublishError`: the atomic publication raises, after or before the file became durable.
   */
  datatype Fault =
    | NoFault | Before(phase: Phase) | CorrectionRejected | PublishError(published: bool)
    | FinalizeFails | HookCommitFails

  datatype Env = Env(fault: Fault, discardFails: bool)

  /** How loading a checkpoint can fail; `SlicesFail(k)`: after `k` slices have been restored. */
  datatype LoadFault = NoLoadFault | ManifestUnreadable | SlicesFail(restored: nat) | StructureFails | RefinalizeFails

  datatype World = World(
    phase: Phase, last: int, lastTime: real,
    previous: seq<Vec>, previousRaw: seq<Vec>, generalized: Vec, stabilizer: Option<StabilizerState>,
    active: bool, parent: Option<nat>, slices: seq<Vec>,
    structure: StructureState, staged: Option<StructureState>,
    hookCommitted: Option<StabilizerState>, hookPending: Option<StabilizerState>,
    store: seq<Manifest>)

  const TICK_HZ := 1000000000.0
  const TICK_TOLERANCE := 5.0e-13

  /** The nearest whole number; halves go to the even one. */
  function Rounded(x: real): int {
    var low := x.Floor;
    var rest := x - low as real;
    if rest < 0.5 || (rest == 0.5 && low % 2 == 0) then low else low + 1
  }

  function Tick(time: real): int {
    Rounded(time * TICK_HZ)
  }

  function TickMismatch(time: real): bool {
    Abs(time - Tick(time) as real / TICK_HZ) > TICK_TOLERANCE
  }

  function NoForces(n: nat): (rows: seq<Vec>)
    ensures |rows| == n
  {
    seq(n, _ => [0.0, 0.0, 0.0])
  }

  // ----- the phases of a step

  predicate Ready(w: World, step: int, time: real) {
    (w.phase.Initialized? || w.phase.Committed?) && step == w.last + 1 && time >= 0.0
  }

  function MotionOf(c: Config, p: Physics, w: World, step: int, time: real, f: Fault): Option<seq<Vec>> {
    if f == Before(Predicted) then None
    else
      match p.predict(w.structure, step, time, w.previous)
      case None => None
      case Some(motion) => if |motion| == c.slices then Some(motion) else None
  }

  function AdvanceCall(p: Physics, slices: seq<Vec>, step: int, time: real, motion: seq<Vec>): nat -> Option<Vec> {
    (sid: nat) => if sid < |slices| && sid < |motion| then p.advance(sid, slices[sid], step, time, motion[sid])
      else None
  }

  function LoadCall(p: Physics, slices: seq<Vec>): nat -> Option<Vec> {
    (sid: nat) => if sid < |slices| then p.load(sid, slices[sid]) else None
  }

  /** The slices after all advance calls have completed: those that raised are where they were. */
  function Advanced(slices: seq<Vec>, call: nat -> Option<Vec>): (next: seq<Vec>)
    ensures |next| == |slices|
  {
    seq(|slices|, (sid: nat) => match call(sid) case Some(v) => v case None => if sid < |slices| then slices[sid]
        else [])
  }

  predicate AdvanceReached(f: Fault) {
    f != Before(MotionPublished) && f != Before(MotionConsumed) && f != Before(CfdAdvanced)
  }

  /** Motion publication and the CFD advance; the flag tells whether every slice advanced. */
  function Exchanged(c: Config, p: Physics, w: World, step: int, time: real, motion: seq<Vec>, f: Fault):
      (World, bool) {
    if !AdvanceReached(f) then (w, false)
    else
      var call := AdvanceCall(p, w.slices, step, time, motion);
      var v := w.(slices := Advanced(w.slices, call));
      if Gather.Gathered(c.slices, call).None? then (v, false) else (v.(phase := CfdAdvanced), true)
  }

  function LoadsOf(c: Config, p: Physics, w: World, f: Fault): Option<seq<Vec>> {
    if f == Before(LoadsReady) || f == Before(LoadsConsumed) then None
    else Gather.Gathered(c.slices, LoadCall(p, w.slices))
  }

  /** The loads the structure receives, and the stabilizer state to come. */
  function AppliedOf(c: Config, p: Physics, w: World, step: int, time: real, raw: seq<Vec>):
      Option<(seq<Vec>, Option<StabilizerState>)> {
    if !c.hooked then Some((raw, None))
    else
      match p.stabilize(w.stabilizer, step, Tick(time), raw)
      case None => None
      case Some((applied, state)) => if |applied| == c.slices then Some((applied, Some(state))) else None
  }

  datatype Correction = Correction(applied: seq<Vec>, state: Option<StabilizerState>, generalized: Vec)

  /** The structure stages a correction by the applied loads, or refuses them. */
  function StagedBy(p: Physics, w: World, step: int, time: real, applied: seq<Vec>): (World, Option<Vec>) {
    match p.correct(w.structure, step, time, applied)
    case None => (w, None)
    case Some((q, generalized)) => (w.(staged := Some(StructureState(step, time, q))), Some(generalized))
  }

  /** Stabilization and correction; the world records what is staged even when the phase fails. */
  function Corrected(c: Config, p: Physics, w: World, step: int, time: real, raw: seq<Vec>, f: Fault):
    (World, Option<Correction>)
  {
    if f == Before(StructureCorrected) then (w, None)
    else
      match AppliedOf(c, p, w, step, time, raw)
      case None => (w, None)
      case Some((applied, state)) =>
        var hooked := if c.hooked then w.(hookPending := state) else w;
        var (staged, generalized) := StagedBy(p, hooked, step, time, applied);
        if generalized.None? || f == CorrectionRejected then (staged, None)
        else (staged.(active := true, phase := StructureCorrected), Some(Correction(applied, state, generalized.value)))
  }

  /** Preparation refuses a run id without a hook, and a time that is not a whole tick. */
  predicate PrepareRefused(c: Config, time: real) {
    if c.hooked then TickMismatch(time) else c.runId != ""
  }

  function ManifestOf(c: Config, w: World, step: int, time: real, raw: seq<Vec>, x: Correction): Manifest
    requires w.staged.Some? && (c.hooked ==> x.state.Some?)
  {
    Manifest(step, time, w.slices, w.staged.value, raw, x.generalized,
             if c.hooked then Some(Extension(c.runId, Tick(time), raw, x.applied, x.state.value, w.parent)) else None)
  }

  /** Validation refuses an unknown schema, missing snapshots, and a stabilized step without a parent. */
  predicate ManifestRefused(c: Config, m: Manifest) {
    m.extension.Some? &&
    (var x := m.extension.value;
     || x.state.schema.Foreign?
     || (x.state.schema.TimeConsistent? && !c.snapshots)
     || (!x.state.schema.Base? && m.step > 0 && x.parent.None?))
  }

  datatype Conclusion = Refused | NotPublished | NeedsRecovery | HookRaised | Done

  function Published(w: World, m: Manifest): World {
    w.(store := w.store + [m], parent := Some(|w.store|))
  }

  /** Finalization and the bookkeeping of a committed step, up to the hook's commit. */
  function Finalized(c: Config, w: World, step: int, time: real, raw: seq<Vec>, x: Correction): World
    requires w.staged.Some?
  {
    var v := w.(phase := Committed, structure := w.staged.value, staged := None, last := step, lastTime := time,
                previous := raw);
    if c.hooked then v.(previousRaw := raw, previous := x.applied, stabilizer := x.state) else v
  }

  function Settled(c: Config, w: World, x: Correction): World {
    var v := w.(generalized := x.generalized, active := false);
    if c.hooked then v.(hookCommitted := x.state, hookPending := None) else v
  }

  /** What follows the durable commit point: finalization, bookkeeping, and the hook's commit. */
  function Concluded(c: Config, w: World, step: int, time: real, raw: seq<Vec>, x: Correction, f: Fault):
      (World, Conclusion)
    requires w.staged.Some?
  {
    if f.FinalizeFails? then (w.(phase := RecoveryRequired), NeedsRecovery)
    else
      var u := Finalized(c, w, step, time, raw, x);
      if c.hooked && f.HookCommitFails? then (u, HookRaised) else (Settled(c, u, x), Done)
  }

  /** The failure of a step before its commit point: hook rolled back, staged state discarded when one is recorded. */
  function Abort(c: Config, w: World, discardFails: bool): World {
    var v := if c.hooked then w.(hookPending := None) else w;
    v.(phase := Failed, active := false,
       staged := if w.active && !(w.staged.Some? && discardFails) then None else w.staged)
  }

  /** From the corrected structure to the end of the step. */
  function FromCorrection(c: Config, w: World, step: int, time: real, raw: seq<Vec>, x: Correction, e: Env):
      (World, Conclusion)
    requires w.staged.Some? && (c.hooked ==> x.state.Some?)
  {
    var m := ManifestOf(c, w, step, time, raw, x);
    var f := e.fault;
    if f == Before(CheckpointPrepared) || PrepareRefused(c, time) || f == Before(Committed)
      || ManifestRefused(c, m) then
      (Abort(c, w, e.discardFails), NotPublished)
    else if f.PublishError? then
      (Abort(c, if f.published then w.(store := w.store + [m]) else w, e.discardFails), NotPublished)
    else Concluded(c, Published(w, m), step, time, raw, x, f)
  }

  /** From the consumed loads to the end of the step. */
  function FromLoads(c: Config, p: Physics, w: World, step: int, time: real, raw: seq<Vec>, e: Env):
      (World, Conclusion) {
    var (v, x) := Corrected(c, p, w, step, time, raw, e.fault);
    if x.None? then (Abort(c, v, e.discardFails), NotPublished)
    else FromCorrection(c, v, step, time, raw, x.value, e)
  }

  /** From the predicted motion to the end of the step. */
  function FromMotion(c: Config, p: Physics, w: World, step: int, time: real, motion: seq<Vec>, e: Env):
      (World, Conclusion) {
    var (v, advanced) := Exchanged(c, p, w, step, time, motion, e.fault);
    if !advanced then (Abort(c, v, e.discardFails), NotPublished)
    else
      match LoadsOf(c, p, v, e.fault)
      case None => (Abort(c, v, e.discardFails), NotPublished)
      case Some(raw) => FromLoads(c, p, v.(phase := LoadsConsumed), step, time, raw, e)
  }

  /** One call of run_step. */
  function Step(c: Config, p: Physics, w: World, step: int, time: real, e: Env): (World, Conclusion) {
    if !Ready(w, step, time) then (w, Refused)
    else
      match MotionOf(c, p, w, step, time, e.fault)
      case None => (Abort(c, w, e.discardFails), NotPublished)
      case Some(motion) => FromMotion(c, p, w.(phase := Predicted), step, time, motion, e)
  }

  // ----- restart and recovery

  /** Restoring slices and structure from a manifest; the flag tells whether the load succeeded. */
  function Loaded(w: World, m: Manifest, f: LoadFault): (World, bool) {
    if f.ManifestUnreadable? || |m.slices| != |w.slices| then (w, false)
    else
      match f
      case SlicesFail(k) => (w.(slices := if k <= |m.slices| then m.slices[..k] + w.slices[k..] else m.slices), false)
      case StructureFails => (w.(slices := m.slices), false)
      case _ => (w.(slices := m.slices, structure := m.structure, staged := None), true)
  }

  /** Only the first stabilizer extension hands its extra fields back to a restart. */
  predicate Extended(m: Manifest) {
    m.extension.Some? && m.extension.value.state.schema.Stabilized?
  }

  /** The scheduler's bookkeeping taken from a manifest; a hook without extended fields is an error. */
  function Adopted(c: Config, w: World, m: Manifest): (World, bool) {
    var v := w.(last := m.step, lastTime := m.time, previous := m.previous, generalized := m.generalized);
    if !c.hooked then (v, true)
    else if !Extended(m) then (v, false)
    else
      var x := m.extension.value;
      (v.(previousRaw := x.raw, previous := x.applied, stabilizer := Some(x.state), hookCommitted := Some(x.state),
          hookPending := None), true)
  }

  function Recovered(c: Config, w: World, i: nat, f: LoadFault): (World, bool)
    requires i < |w.store|
  {
    if !w.phase.RecoveryRequired? then (w, false)
    else
      var (v, loaded) := Loaded(w, w.store[i], f);
      if !loaded || f.RefinalizeFails? then (v, false)
      else
        var (u, adopted) := Adopted(c, v, w.store[i]);
        if adopted then (u.(active := false, phase := Initialized), true) else (u, false)
  }

  function Restored(c: Config, w: World, i: nat, f: LoadFault): (World, bool)
    requires i < |w.store|
  {
    if !(w.phase.Initialized? && w.last == -1) then (w, false)
    else
      var (v, loaded) := Loaded(w, w.store[i], f);
      if !loaded then (v, false) else Adopted(c, v, w.store[i])
  }

  /** Binding the manifest that parents a restart. */
  function Bound(c: Config, w: World, i: nat, runId: string, nextStep: int, nextTime: real): (World, bool)
    requires i < |w.store|
  {
    var m := w.store[i];
    if !Extended(m) then (w, false)
    else
      var x := m.extension.value;
      if x.runId != runId || m.step + 1 != nextStep || x.tick + Tick(c.dt) != Tick(nextTime) then (w, false)
      else (w.(parent := Some(i), last := m.step, lastTime := m.time), true)
  }

  /** A new scheduler over a new structure and new slices, with the manifests that survive on disk. */
  function Fresh(c: Config, store: seq<Manifest>, slices: seq<Vec>, structure: StructureState): World {
    World(Initialized, -1, c.startTime, NoForces(c.slices), NoForces(c.slices), [], None, false, None, slices,
          structure, None, None, None, store)
  }

  /** The restart sequence: a fresh scheduler restored from manifest `i`, and bound to it when a hook is in use. */
  function Restarted(c: Config, store: seq<Manifest>, i: nat, f: LoadFault, slices: seq<Vec>,
      structure: StructureState, nextTime: real): (World, bool)
    requires i < |store|
  {
    var (w, restored) := Restored(c, Fresh(c, store, slices, structure), i, f);
    if !restored then (w, false)
    else if !c.hooked then (w, true)
    else Bound(c, w, i, c.runId, store[i].step + 1, nextTime)
  }
}
