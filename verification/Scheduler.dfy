/**
 The multi-slice scheduler as objects that change in place: the staged structure, the
 stabilization hook, the checkpoint manager and the scheduler itself. Every operation is tied to
 the corresponding function on worlds.
 */
module Scheduler {
  import opened Wrappers
  import opened Transaction
  import Gather

  /** Staged state adapter: a correction is pending until it is finalized or discarded. */
  class StructureAdapter {
    var committed: StructureState
    var pending: Option<StructureState>

    constructor (initial: StructureState)
      ensures committed == initial && pending == None
    {
      committed, pending := initial, None;
    }

    method CorrectAll(p: Physics, step: int, time: real, forces: seq<Vec>) returns (generalized: Option<Vec>)
      modifies this`pending
      ensures match p.correct(committed, step, time, forces)
        case None => generalized == None && pending == old(pending)
        case Some((q, g)) => generalized == Some(g) && pending == Some(StructureState(step, time, q))
    {
      match p.correct(committed, step, time, forces)
      case None => return None;
      case Some((q, g)) =>
        pending := Some(StructureState(step, time, q));
        return Some(g);
    }

    method ExportStaged() returns (state: StructureState)
      ensures state == if pending.Some? then pending.value else committed
    {
      if pending.Some? {
        return pending.value;
      }
      return committed;
    }

    /** Finalizing without a pending state is allowed: recovery relies on it. */
    method FinalizeCommitted(token: Option<int>, fails: bool) returns (ok: bool)
      modifies this
      ensures ok <==> !fails && (old(pending).None? || token.None? || token.value == old(pending).value.step)
      ensures committed == if ok && old(pending).Some? then old(pending).value else old(committed)
      ensures pending == if ok then None else old(pending)
    {
      if fails {
        return false;
      }
      if pending.None? {
        return true;
      }
      if token.Some? && token.value != pending.value.step {
        return false;
      }
      committed := pending.value;
      pending := None;
      return true;
    }

    method DiscardStaged(fails: bool) returns (ok: bool)
      modifies this`pending
      ensures ok <==> !(old(pending).Some? && fails)
      ensures pending == if ok then None else old(pending)
    {
      if pending.Some? && fails {
        return false;
      }
      pending := None;
      return true;
    }

    method LoadCheckpoint(state: StructureState)
      modifies this
      ensures committed == state && pending == None
    {
      committed, pending := state, None;
    }
  }

  class StabilizationHook {
    var committed: Option<StabilizerState>
    var pending: Option<StabilizerState>

    constructor ()
      ensures committed == None && pending == None
    {
      committed, pending := None, None;
    }

    method Apply(p: Physics, step: int, tick: int, raw: seq<Vec>, previous: Option<StabilizerState>, slices: nat)
      returns (r: Option<(seq<Vec>, StabilizerState)>)
      modifies this`pending
      ensures r == match p.stabilize(previous, step, tick, raw)
        case Some((applied, state)) => if |applied| == slices then Some((applied, state)) else None
        case None => None
      ensures pending == if r.Some? then Some(r.value.1) else old(pending)
    {
      match p.stabilize(previous, step, tick, raw)
      case None => return None;
      case Some((applied, state)) =>
        if |applied| != slices {
          return None;
        }
        pending := Some(state);
        return Some((applied, state));
    }

    method Commit(state: Option<StabilizerState>)
      modifies this
      ensures committed == state && pending == None
    {
      committed, pending := state, None;
    }

    method Rollback()
      modifies this`pending
      ensures pending == None
    {
      pending := None;
    }
  }

  datatype Prepared = Prepared(manifest: Manifest, token: int)

  datatype CommitResult = Committed(checkpoint: nat) | Raised

  /** The checkpoint store: manifests become durable one at a time and are never changed. */
  class CheckpointManager {
    var store: seq<Manifest>

    constructor (store: seq<Manifest>)
      ensures this.store == store
    {
      this.store := store;
    }

    /** The one durable commit point; a publication that raises may still have become durable. */
    method Commit(c: Config, prepared: Prepared, f: Fault) returns (r: CommitResult)
      modifies this
      ensures var m := prepared.manifest;
        if f == Before(Phase.Committed) || ManifestRefused(c, m) then r == Raised && store == old(store)
        else if f.PublishError? then r == Raised && store == (if f.published then old(store) + [m] else old(store))
        else r == CommitResult.Committed(|old(store)|) && store == old(store) + [m]
    {
      if f == Before(Phase.Committed) || ManifestRefused(c, prepared.manifest) {
        return Raised;
      }
      if f.PublishError? {
        if f.published {
          store := store + [prepared.manifest];
        }
        return Raised;
      }
      store := store + [prepared.manifest];
      return CommitResult.Committed(|store| - 1);
    }
  }

  /** The phase in which a step fails leaves no trace in the failed world. */
  lemma AbortFrom(c: Config, w: World, from: Phase, discardFails: bool)
    ensures Abort(c, w.(phase := from), discardFails) == Abort(c, w, discardFails)
  {
  }

  lemma ConcludedFrom(c: Config, w: World, from: Phase, step: int, time: real, raw: seq<Vec>, x: Correction, f: Fault)
    requires w.staged.Some?
    ensures Concluded(c, w.(phase := from), step, time, raw, x, f) == Concluded(c, w, step, time, raw, x, f)
  {
  }

  lemma StagesItsStep(p: Physics, w: World, step: int, time: real, applied: seq<Vec>)
    ensures var (v, force) := StagedBy(p, w, step, time, applied);
      && v == w.(staged := v.staged)
      && (force.Some? ==> v.staged.Some? && v.staged.value.step == step)
  {
  }

  /** Restoring one more slice moves the boundary between manifest and old slices. */
  lemma OneMoreRestored(restored: seq<Vec>, before: seq<Vec>, sid: nat)
    requires sid < |restored| == |before|
    ensures (restored[..sid] + before[sid..])[sid := restored[sid]] == restored[..sid + 1] + before[sid + 1..]
  {
  }

  class MultiSliceScheduler {
    const config: Config
    const physics: Physics
    const structure: StructureAdapter
    const hook: StabilizationHook
    const checkpoints: CheckpointManager
    var slices: seq<Vec>
    var phase: Phase
    var last: int
    var lastTime: real
    var previous: seq<Vec>
    var previousRaw: seq<Vec>
    var generalized: Vec
    var stabilizer: Option<StabilizerState>
    var active: bool
    var parent: Option<nat>

    ghost predicate Valid()
      reads this
    {
      config.Valid() && |slices| == config.slices
    }

    ghost function View(): World
      reads this, structure, hook, checkpoints
    {
      World(phase, last, lastTime, previous, previousRaw, generalized, stabilizer, active, parent, slices,
            structure.committed, structure.pending, hook.committed, hook.pending, checkpoints.store)
    }

    constructor (config: Config, physics: Physics, structure: StructureAdapter, hook: StabilizationHook,
                 checkpoints: CheckpointManager, slices: seq<Vec>)
      requires config.Valid() && |slices| == config.slices
      requires structure.pending == None && hook.committed == None && hook.pending == None
      ensures Valid() && this.config == config && this.physics == physics
      ensures this.structure == structure && this.hook == hook && this.checkpoints == checkpoints
      ensures View() == Fresh(config, checkpoints.store, slices, structure.committed)
    {
      this.config, this.physics := config, physics;
      this.structure, this.hook, this.checkpoints := structure, hook, checkpoints;
      this.slices := slices;
      phase, last, lastTime := Initialized, -1, config.startTime;
      previous, previousRaw, generalized := NoForces(config.slices), NoForces(config.slices), [];
      stabilizer, active, parent := None, false, None;
    }

    method Enter(next: Phase) returns (legal: bool)
      modifies this`phase
      ensures legal <==> NextPhase(old(phase)) == Some(next)
      ensures phase == if legal then next else old(phase)
    {
      legal := NextPhase(phase) == Some(next);
      if legal {
        phase := next;
      }
    }

    /** One step of the transaction; `order` is the order in which the concurrent slice calls complete. */
    method RunStep(step: int, time: real, e: Env, order: seq<nat>) returns (conclusion: Conclusion)
      requires Valid() && Gather.Completion(order, config.slices)
      modifies this, structure, hook, checkpoints
      ensures Valid()
      ensures (View(), conclusion) == Step(config, physics, old(View()), step, time, e)
    {
      hide FromMotion, Abort;
      if !((phase.Initialized? || phase.Committed?) && step == last + 1 && time >= 0.0) {
        return Refused;
      }
      ghost var before := View();
      phase := Initialized;
      var motion := Predict(step, time, e.fault);
      assert motion == MotionOf(config, physics, before, step, time, e.fault);
      if motion.None? {
        AbortFrom(config, before, Initialized, e.discardFails);
        FailPrecommit(e.discardFails);
        return NotPublished;
      }
      assert View() == before.(phase := Predicted);
      conclusion := Exchange(step, time, motion.value, e, order);
    }

    /** Prediction and the motion transaction. */
    method Predict(step: int, time: real, f: Fault) returns (motion: Option<seq<Vec>>)
      requires Valid() && phase == Initialized
      modifies this`phase
      ensures motion == MotionOf(config, physics, old(View()), step, time, f)
      ensures if motion.Some? then phase == Predicted && |motion.value| == config.slices else phase == Initialized
    {
      if f == Before(Predicted) {
        return None;
      }
      motion := physics.predict(structure.committed, step, time, previous);
      if motion.None? || |motion.value| != config.slices {
        return None;
      }
      var legal := Enter(Predicted);
      assert legal;
    }

    /** Motion barriers, CFD advance and load barriers, then the rest of the step. */
    method Exchange(step: int, time: real, motion: seq<Vec>, e: Env, order: seq<nat>) returns (conclusion: Conclusion)
      requires Valid() && phase == Predicted && |motion| == config.slices && Gather.Completion(order, config.slices)
      modifies this, structure, hook, checkpoints
      ensures Valid()
      ensures (View(), conclusion) == FromMotion(config, physics, old(View()), step, time, motion, e)
    {
      hide FromLoads, Abort, LoadCall, Advanced, AdvanceCall;
      ghost var (v, advances) := Exchanged(config, physics, View(), step, time, motion, e.fault);
      var advanced := Advance(step, time, motion, e.fault, order);
      if !advanced {
        AbortFrom(config, v, phase, e.discardFails);
        FailPrecommit(e.discardFails);
        return NotPublished;
      }
      assert View() == v;
      var raw := ReadLoads(e.fault, order);
      if raw.None? {
        AbortFrom(config, v, phase, e.discardFails);
        FailPrecommit(e.discardFails);
        return NotPublished;
      }
      assert View() == v.(phase := LoadsConsumed);
      conclusion := CorrectAndCommit(step, time, raw.value, e);
    }

    method PublishMotion(f: Fault) returns (consumed: bool)
      requires Valid() && phase == Predicted
      modifies this`phase
      ensures consumed <==> AdvanceReached(f)
      ensures consumed ==> phase == MotionConsumed
    {
      if f == Before(MotionPublished) {
        return false;
      }
      var legal := Enter(MotionPublished);
      assert legal;
      if f == Before(MotionConsumed) {
        return false;
      }
      legal := Enter(MotionConsumed);
      assert legal;
      return f != Before(CfdAdvanced);
    }

    /** Motion is published and consumed at every slice before any slice may advance. */
    method Advance(step: int, time: real, motion: seq<Vec>, f: Fault, order: seq<nat>) returns (advanced: bool)
      requires Valid() && phase == Predicted && |motion| == config.slices && Gather.Completion(order, config.slices)
      modifies this`phase, this`slices
      ensures Valid()
      ensures var (w, all) := Exchanged(config, physics, old(View()), step, time, motion, f);
        advanced == all && View() == if all then w else w.(phase := phase)
    {
      hide AdvanceCall, Advanced;
      var consumed := PublishMotion(f);
      if !consumed {
        return false;
      }
      var call := AdvanceCall(physics, slices, step, time, motion);
      var gathered := Gather.ParallelMap(config.slices, call, order);
      slices := Advanced(slices, call);
      if gathered.None? {
        return false;
      }
      var legal := Enter(CfdAdvanced);
      assert legal;
      return true;
    }

    method ReadLoads(f: Fault, order: seq<nat>) returns (loads: Option<seq<Vec>>)
      requires Valid() && phase == CfdAdvanced && Gather.Completion(order, config.slices)
      modifies this`phase
      ensures loads == LoadsOf(config, physics, old(View()), f)
      ensures loads.Some? ==> phase == LoadsConsumed
    {
      if f == Before(LoadsReady) {
        return None;
      }
      loads := Gather.ParallelMap(config.slices, LoadCall(physics, slices), order);
      if loads.None? || f == Before(LoadsConsumed) {
        return None;
      }
      var legal := Enter(LoadsReady);
      assert legal;
      legal := Enter(LoadsConsumed);
      assert legal;
    }

    method CorrectAndCommit(step: int, time: real, raw: seq<Vec>, e: Env) returns (conclusion: Conclusion)
      requires Valid() && phase == LoadsConsumed
      modifies this, structure, hook, checkpoints
      ensures Valid()
      ensures (View(), conclusion) == FromLoads(config, physics, old(View()), step, time, raw, e)
    {
      hide FromCorrection, Abort;
      var correction := Correct(step, time, raw, e.fault);
      if correction.None? {
        FailPrecommit(e.discardFails);
        return NotPublished;
      }
      conclusion := Commit(step, time, raw, correction.value, e);
    }

    /** The applied loads of the step: those of the hook where there is one, and the raw ones otherwise. */
    method Stabilize(step: int, time: real, raw: seq<Vec>) returns (r: Option<(seq<Vec>, Option<StabilizerState>)>)
      requires Valid()
      modifies hook`pending
      ensures r == AppliedOf(config, physics, old(View()), step, time, raw)
      ensures View() == if config.hooked && r.Some? then old(View()).(hookPending := r.value.1) else old(View())
      ensures r.Some? && config.hooked ==> r.value.1.Some?
    {
      if !config.hooked {
        return Some((raw, None));
      }
      var outcome := hook.Apply(physics, step, Tick(time), raw, stabilizer, config.slices);
      match outcome {
        case None => return None;
        case Some(x) => return Some((x.0, Some(x.1)));
      }
    }

    method Stage(step: int, time: real, applied: seq<Vec>) returns (force: Option<Vec>)
      requires Valid()
      modifies structure`pending
      ensures (View(), force) == StagedBy(physics, old(View()), step, time, applied)
    {
      force := structure.CorrectAll(physics, step, time, applied);
    }

    /** The hook turns raw into applied loads; the structure stages its correction. */
    method Correct(step: int, time: real, raw: seq<Vec>, f: Fault) returns (correction: Option<Correction>)
      requires Valid() && phase == LoadsConsumed
      modifies this`phase, this`active, structure`pending, hook`pending
      ensures (View(), correction) == Corrected(config, physics, old(View()), step, time, raw, f)
      ensures correction.Some? ==>
        && phase == StructureCorrected && structure.pending.Some? && structure.pending.value.step == step
        && (config.hooked ==> correction.value.state.Some?)
    {
      hide AppliedOf, StagedBy;
      if f == Before(StructureCorrected) {
        return None;
      }
      var stabilized := Stabilize(step, time, raw);
      if stabilized.None? {
        return None;
      }
      var applied, state := stabilized.value.0, stabilized.value.1;
      ghost var stabilizedWorld := View();
      var force := Stage(step, time, applied);
      StagesItsStep(physics, stabilizedWorld, step, time, applied);
      if force.None? || f == CorrectionRejected {
        return None;
      }
      active := true;
      var legal := Enter(StructureCorrected);
      assert legal;
      return Some(Correction(applied, state, force.value));
    }

    /** Preparation and publication; everything after the durable commit point is left to Conclude. */
    method Commit(step: int, time: real, raw: seq<Vec>, x: Correction, e: Env) returns (conclusion: Conclusion)
      requires Valid() && phase == StructureCorrected && structure.pending.Some? && structure.pending.value.step == step
      requires config.hooked ==> x.state.Some?
      modifies this, structure, hook, checkpoints
      ensures Valid()
      ensures (View(), conclusion) == FromCorrection(config, old(View()), step, time, raw, x, e)
    {
      hide Concluded, Abort, ManifestOf, ManifestRefused, PrepareRefused;
      ghost var before := View();
      var prepared := Prepare(step, time, raw, x, e.fault);
      if prepared.None? {
        AbortFrom(config, before, phase, e.discardFails);
        FailPrecommit(e.discardFails);
        return NotPublished;
      }
      var published := checkpoints.Commit(config, prepared.value, e.fault);
      if published.Raised? {
        AbortFrom(config, before.(store := checkpoints.store), phase, e.discardFails);
        FailPrecommit(e.discardFails);
        return NotPublished;
      }
      parent := Some(published.checkpoint);
      assert View() == Published(before, prepared.value.manifest).(phase := CheckpointPrepared);
      ConcludedFrom(config, Published(before, prepared.value.manifest), CheckpointPrepared, step, time, raw, x,
                    e.fault);
      conclusion := Conclude(prepared.value.token, step, time, raw, x, e.fault);
    }

    /** Captures slices and staged structure in a prepared manifest. */
    method Prepare(step: int, time: real, raw: seq<Vec>, x: Correction, f: Fault) returns (prepared: Option<Prepared>)
      requires Valid() && phase == StructureCorrected && structure.pending.Some? && (config.hooked ==> x.state.Some?)
      modifies this`phase
      ensures prepared.None? <==> f == Before(CheckpointPrepared) || PrepareRefused(config, time)
      ensures prepared.Some? ==>
        && phase == CheckpointPrepared && prepared.value.token == structure.pending.value.step
        && prepared.value.manifest == ManifestOf(config, old(View()), step, time, raw, x)
    {
      if f == Before(CheckpointPrepared) || PrepareRefused(config, time) {
        return None;
      }
      var state := structure.ExportStaged();
      var extension := None;
      if config.hooked {
        extension := Some(Extension(config.runId, Tick(time), raw, x.applied, x.state.value, parent));
      }
      var legal := Enter(CheckpointPrepared);
      assert legal;
      return Some(Prepared(Manifest(step, time, slices, state, raw, x.generalized, extension), state.step));
    }

    /** Finalization of the structure and the scheduler's own bookkeeping, after the manifest is durable. */
    method Conclude(token: int, step: int, time: real, raw: seq<Vec>, x: Correction, f: Fault)
        returns (conclusion: Conclusion)
      requires Valid() && phase == CheckpointPrepared && structure.pending.Some?
        && structure.pending.value.step == token
      modifies this, structure, hook
      ensures Valid()
      ensures (View(), conclusion) == Concluded(config, old(View()), step, time, raw, x, f)
    {
      var finalized := structure.FinalizeCommitted(Some(token), f.FinalizeFails?);
      if !finalized {
        phase := RecoveryRequired;
        return NeedsRecovery;
      }
      var legal := Enter(Phase.Committed);
      assert legal;
      Record(step, time, raw, x);
      if config.hooked {
        if f.HookCommitFails? {
          return HookRaised;
        }
        hook.Commit(stabilizer);
      }
      generalized := x.generalized;
      active := false;
      return Done;
    }

    method Record(step: int, time: real, raw: seq<Vec>, x: Correction)
      modifies this`last, this`lastTime, this`previous, this`previousRaw, this`stabilizer
      ensures last == step && lastTime == time && previous == if config.hooked then x.applied else raw
      ensures previousRaw == if config.hooked then raw else old(previousRaw)
      ensures stabilizer == if config.hooked then x.state else old(stabilizer)
    {
      last, lastTime, previous := step, time, raw;
      if config.hooked {
        previousRaw, previous, stabilizer := raw, x.applied, x.state;
      }
    }

    method FailPrecommit(discardFails: bool)
      requires Valid()
      modifies this`phase, this`active, structure`pending, hook`pending
      ensures View() == Abort(config, old(View()), discardFails)
    {
      if config.hooked {
        hook.Rollback();
      }
      if active {
        var discarded := structure.DiscardStaged(discardFails);
      }
      active := false;
      phase := Failed;
    }

    /** Restores slices in id order, then the structure. */
    method LoadRestart(i: nat, f: LoadFault) returns (ok: bool)
      requires Valid() && i < |checkpoints.store|
      modifies this`slices, structure
      ensures Valid()
      ensures (View(), ok) == Loaded(old(View()), checkpoints.store[i], f)
    {
      var m := checkpoints.store[i];
      if f.ManifestUnreadable? || |m.slices| != config.slices {
        return false;
      }
      var sid: nat := 0;
      while sid < config.slices && f != SlicesFail(sid)
        invariant sid <= config.slices
        invariant f.SlicesFail? && f.restored <= config.slices ==> sid <= f.restored
        invariant slices == m.slices[..sid] + old(slices)[sid..]
        invariant unchanged(structure)
      {
        OneMoreRestored(m.slices, old(slices), sid);
        slices := slices[sid := m.slices[sid]];
        sid := sid + 1;
      }
      assert sid == config.slices ==> slices == m.slices;
      if f.SlicesFail? || f.StructureFails? {
        return false;
      }
      structure.LoadCheckpoint(m.structure);
      return true;
    }

    method Adopt(m: Manifest) returns (ok: bool)
      requires Valid()
      modifies this`last, this`lastTime, this`previous, this`previousRaw, this`generalized, this`stabilizer, hook
      ensures (View(), ok) == Adopted(config, old(View()), m)
    {
      last, lastTime, previous, generalized := m.step, m.time, m.previous, m.generalized;
      if !config.hooked {
        return true;
      }
      if !Extended(m) {
        return false;
      }
      var x := m.extension.value;
      previousRaw, previous, stabilizer := x.raw, x.applied, Some(x.state);
      hook.Commit(stabilizer);
      return true;
    }

    method RecoverFromCheckpoint(i: nat, f: LoadFault) returns (ok: bool)
      requires Valid() && i < |checkpoints.store|
      modifies this, structure, hook
      ensures Valid()
      ensures (View(), ok) == Recovered(config, old(View()), i, f)
    {
      if !phase.RecoveryRequired? {
        return false;
      }
      var loaded := LoadRestart(i, f);
      if !loaded {
        return false;
      }
      var finalized := structure.FinalizeCommitted(Some(i), f.RefinalizeFails?);
      if !finalized {
        return false;
      }
      ok := Adopt(checkpoints.store[i]);
      if ok {
        active := false;
        phase := Initialized;
      }
    }

    method RestoreFromCheckpoint(i: nat, f: LoadFault) returns (ok: bool)
      requires Valid() && i < |checkpoints.store|
      modifies this, structure, hook
      ensures Valid()
      ensures (View(), ok) == Restored(config, old(View()), i, f)
    {
      if !(phase.Initialized? && last == -1) {
        return false;
      }
      var loaded := LoadRestart(i, f);
      if !loaded {
        return false;
      }
      ok := Adopt(checkpoints.store[i]);
    }

    method BindRestartSource(i: nat, runId: string, nextStep: int, nextTime: real) returns (ok: bool)
      requires Valid() && i < |checkpoints.store|
      modifies this`parent, this`last, this`lastTime
      ensures (View(), ok) == Bound(config, old(View()), i, runId, nextStep, nextTime)
    {
      var m := checkpoints.store[i];
      if !Extended(m) {
        return false;
      }
      var x := m.extension.value;
      if x.runId != runId || m.step + 1 != nextStep || x.tick + Tick(config.dt) != Tick(nextTime) {
        return false;
      }
      parent, last, lastTime := Some(i), m.step, m.time;
      return true;
    }
  }
}
