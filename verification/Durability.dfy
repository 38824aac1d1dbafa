/**
 What every run of the scheduler keeps: which manifests are durable, when the structure may be
 finalized, how manifests name their parents, and what a failed step leaves untouched.
 */
module Durability {
  import opened Wrappers
  import opened Transaction

  // ----- what one step can do

  /** The scheduler, structure and hook state that only a committed step may change. */
  ghost predicate SameCommitted(v: World, w: World) {
    && v.structure == w.structure && v.last == w.last && v.lastTime == w.lastTime
    && v.previous == w.previous && v.previousRaw == w.previousRaw && v.generalized == w.generalized
    && v.stabilizer == w.stabilizer && v.hookCommitted == w.hookCommitted
  }

  /** `m` describes step `step`, carries its structure state, and names `parent` when a hook is in use. */
  ghost predicate Describes(c: Config, m: Manifest, step: int, time: real, parent: Option<nat>) {
    && m.step == step && m.time == time && m.structure.step == step && m.structure.time == time
    && (c.hooked <==> m.extension.Some?)
    && (c.hooked ==> m.extension.value.parent == parent)
  }

  /** `store` is `before` with one more manifest, for `step`. */
  ghost predicate Appended(c: Config, store: seq<Manifest>, before: seq<Manifest>, step: int, time: real,
      parent: Option<nat>) {
    && |store| == |before| + 1 && store[..|before|] == before
    && Describes(c, store[|before|], step, time, parent)
  }

  /** A step that fails before its commit point leaves all committed state alone and rolls the hook back. */
  ghost predicate FailedCleanly(c: Config, v: World, w: World, step: int, time: real, f: Fault) {
    && v.phase.Failed? && SameCommitted(v, w) && v.parent == w.parent
    && !v.active && (c.hooked ==> v.hookPending == None)
    && if v.store == w.store then true
       else f == PublishError(true) && Appended(c, v.store, w.store, step, time, w.parent)
  }

  /** Once the manifest is durable, a failing finalization leaves the committed state alone and asks for recovery. */
  ghost predicate AwaitsRecovery(c: Config, v: World, w: World, step: int, time: real) {
    && v.phase.RecoveryRequired? && SameCommitted(v, w)
    && Appended(c, v.store, w.store, step, time, w.parent) && v.parent == Some(|w.store|)
  }

  /** The structure of a committed step is the one its durable manifest records. */
  ghost predicate Commits(c: Config, v: World, w: World, step: int, time: real) {
    && v.phase.Committed? && v.last == step && v.lastTime == time
    && Appended(c, v.store, w.store, step, time, w.parent) && v.parent == Some(|w.store|)
    && v.structure == v.store[|w.store|].structure && v.staged == None
  }

  ghost predicate Follows(c: Config, v: World, k: Conclusion, w: World, step: int, time: real, f: Fault) {
    match k
    case Refused => v == w
    case NotPublished => FailedCleanly(c, v, w, step, time, f)
    case NeedsRecovery => AwaitsRecovery(c, v, w, step, time)
    case _ => Commits(c, v, w, step, time)
  }

  lemma AbortFailsCleanly(c: Config, v: World, w: World, step: int, time: real, f: Fault, discardFails: bool)
    requires SameCommitted(v, w) && v.parent == w.parent && v.store == w.store
    ensures FailedCleanly(c, Abort(c, v, discardFails), w, step, time, f)
  {
  }

  lemma ConcludedOutcome(
    c: Config, w: World, v: World, m: Manifest, step: int, time: real, raw: seq<Vec>, x: Correction, f: Fault)
    requires SameCommitted(v, w) && v.parent == w.parent && v.store == w.store && v.staged.Some?
    requires Describes(c, m, step, time, w.parent) && m.structure == v.staged.value
    ensures var (u, k) := Concluded(c, Published(v, m), step, time, raw, x, f);
      !k.Refused? && Follows(c, u, k, w, step, time, f)
  {
    hide Describes;
  }

  lemma CorrectionOutcome(
    c: Config, w: World, v: World, step: int, time: real, raw: seq<Vec>, x: Correction, e: Env)
    requires v.staged.Some? && v.staged.value.step == step && v.staged.value.time == time
      && (c.hooked ==> x.state.Some?)
    requires SameCommitted(v, w) && v.parent == w.parent && v.store == w.store
    ensures var (u, k) := FromCorrection(c, v, step, time, raw, x, e);
      !k.Refused? && Follows(c, u, k, w, step, time, e.fault)
  {
    hide ManifestRefused, PrepareRefused, Tick, Abort, FailedCleanly, Concluded, AwaitsRecovery, Commits, SameCommitted;
    AbortFailsCleanly(c, v, w, step, time, e.fault, e.discardFails);
    var m := ManifestOf(c, v, step, time, raw, x);
    AbortAfterPublish(c, v, w, m, step, time, e.discardFails);
    ConcludedOutcome(c, w, v, m, step, time, raw, x, e.fault);
  }

  lemma AbortAfterPublish(c: Config, v: World, w: World, m: Manifest, step: int, time: real, discardFails: bool)
    requires SameCommitted(v, w) && v.parent == w.parent && v.store == w.store && Describes(c, m, step, time, w.parent)
    ensures FailedCleanly(c, Abort(c, v.(store := v.store + [m]), discardFails), w, step, time, PublishError(true))
  {
  }

  /** A correction only stages. */
  lemma CorrectedKeeps(c: Config, p: Physics, w: World, v: World, step: int, time: real, raw: seq<Vec>, f: Fault)
    requires SameCommitted(v, w)
    ensures var (u, x) := Corrected(c, p, v, step, time, raw, f);
      && SameCommitted(u, w) && u.parent == v.parent && u.store == v.store
      && (x.Some? ==>
            && u.staged.Some? && u.staged.value.step == step && u.staged.value.time == time
            && (c.hooked ==> x.value.state.Some?))
  {
    hide Tick;
  }

  lemma LoadsOutcome(c: Config, p: Physics, w: World, v: World, step: int, time: real, raw: seq<Vec>, e: Env)
    requires SameCommitted(v, w) && v.parent == w.parent && v.store == w.store
    ensures var (u, k) := FromLoads(c, p, v, step, time, raw, e);
      !k.Refused? && Follows(c, u, k, w, step, time, e.fault)
  {
    hide FromCorrection, Abort, FailedCleanly, AwaitsRecovery, Commits, Tick, Corrected, SameCommitted;
    var (u, x) := Corrected(c, p, v, step, time, raw, e.fault);
    CorrectedKeeps(c, p, w, v, step, time, raw, e.fault);
    AbortFailsCleanly(c, u, w, step, time, e.fault, e.discardFails);
    if x.Some? {
      CorrectionOutcome(c, w, u, step, time, raw, x.value, e);
    }
  }

  /** Every outcome of a step, whatever the environment does at any phase. */
  lemma StepOutcome(c: Config, p: Physics, w: World, step: int, time: real, e: Env)
    ensures var (v, k) := Step(c, p, w, step, time, e);
      && (k.Refused? <==> !Ready(w, step, time))
      && Follows(c, v, k, w, step, time, e.fault)
  {
    hide FromLoads, AdvanceReached, AdvanceCall, LoadCall, Advanced, Abort, FailedCleanly, AwaitsRecovery, Commits,
         Tick;
    if Ready(w, step, time) {
      AbortFailsCleanly(c, w, w, step, time, e.fault, e.discardFails);
      match MotionOf(c, p, w, step, time, e.fault) {
        case None =>
        case Some(motion) =>
          var (v, advanced) := Exchanged(c, p, w.(phase := Predicted), step, time, motion, e.fault);
          AbortFailsCleanly(c, v, w, step, time, e.fault, e.discardFails);
          if advanced && LoadsOf(c, p, v, e.fault).Some? {
            LoadsOutcome(c, p, w, v.(phase := LoadsConsumed), step, time, LoadsOf(c, p, v, e.fault).value, e);
          }
      }
    }
  }

  // ----- runs

  datatype Op =
    | RunStep(step: int, time: real, env: Env)
    | Recover(manifest: nat, fault: LoadFault)
    | Restart(manifest: nat, fault: LoadFault, slices: seq<Vec>, structure: StructureState, nextTime: real)

  /** The world after one operation; a restart that is refused leaves the old world in place. */
  function After(c: Config, p: Physics, w: World, op: Op): World {
    match op
    case RunStep(step, time, env) => Step(c, p, w, step, time, env).0
    case Recover(i, f) => if i < |w.store| then Recovered(c, w, i, f).0 else w
    case Restart(i, f, slices, structure, nextTime) =>
      if i < |w.store| then
        var (v, ok) := Restarted(c, w.store, i, f, slices, structure, nextTime);
        if ok then v else w
      else w
  }

  function Run(c: Config, p: Physics, w: World, ops: seq<Op>): World
    decreases |ops|
  {
    if ops == [] then w else Run(c, p, After(c, p, w, ops[0]), ops[1..])
  }

  /** Recovery and restart are given the newest durable manifest. */
  predicate NamesNewest(w: World, op: Op) {
    op.RunStep? || op.manifest + 1 == |w.store|
  }

  ghost predicate Disciplined(c: Config, p: Physics, w: World, ops: seq<Op>)
    decreases |ops|
  {
    ops == [] || (NamesNewest(w, ops[0]) && Disciplined(c, p, After(c, p, w, ops[0]), ops[1..]))
  }

  // ----- the durability invariant

  /** The structure state that step `k` committed; before any step, the initial one. */
  function Snapshot(store: seq<Manifest>, initial: StructureState, k: int): StructureState
    requires -1 <= k < |store|
  {
    if k == -1 then initial else store[k].structure
  }

  /** The manifest of step `i` stands at place `i` and names the manifest of step `i - 1` as its parent. */
  ghost predicate Linked(c: Config, store: seq<Manifest>, i: nat)
    requires i < |store|
  {
    Describes(c, store[i], i, store[i].time, if i == 0 then None else Some(i - 1))
  }

  ghost predicate Chained(c: Config, store: seq<Manifest>) {
    forall i :: 0 <= i < |store| ==> Linked(c, store, i)
  }

  ghost predicate Durable(c: Config, initial: StructureState, w: World) {
    && Chained(c, w.store)
    && -1 <= w.last < |w.store| <= w.last + 2
    && (|w.store| == w.last + 2 ==> w.phase.RecoveryRequired? || w.phase.Failed?)
    && (w.structure == Snapshot(w.store, initial, w.last)
        || (w.phase.RecoveryRequired? && w.structure == Snapshot(w.store, initial, |w.store| - 1)))
    && (c.hooked ==> match w.phase
          case Failed => true
          case RecoveryRequired => w.store != [] && w.parent == Some(|w.store| - 1)
          case _ => w.parent == if w.last == -1 then None else Some(w.last))
  }

  lemma FreshIsDurable(c: Config, slices: seq<Vec>, initial: StructureState)
    ensures Durable(c, initial, Fresh(c, [], slices, initial))
  {
  }

  lemma AppendedIsChained(c: Config, store: seq<Manifest>, before: seq<Manifest>, step: int, time: real,
      parent: Option<nat>)
    requires Chained(c, before) && Appended(c, store, before, step, time, parent)
    requires step == |before| && (c.hooked ==> parent == if step == 0 then None else Some(step - 1))
    ensures Chained(c, store) && |store| == |before| + 1
    ensures forall i :: 0 <= i < |before| ==> store[i] == before[i]
  {
    forall i | 0 <= i < |before|
      ensures store[i] == before[i]
    {
      assert store[i] == store[..|before|][i];
    }
    forall i | 0 <= i < |store|
      ensures Linked(c, store, i)
    {
      if i < |before| {
        assert Linked(c, before, i);
      }
    }
  }

  lemma StepKeepsDurable(c: Config, p: Physics, initial: StructureState, w: World, step: int, time: real, e: Env)
    requires Durable(c, initial, w)
    ensures Durable(c, initial, Step(c, p, w, step, time, e).0)
  {
    hide Step, Describes, Chained, Linked;
    StepOutcome(c, p, w, step, time, e);
    var v := Step(c, p, w, step, time, e).0;
    if v.store != w.store {
      AppendedIsChained(c, v.store, w.store, step, time, w.parent);
      assert w.last >= 0 ==> Snapshot(v.store, initial, w.last) == Snapshot(w.store, initial, w.last);
    }
  }

  lemma RecoveryKeepsDurable(c: Config, initial: StructureState, w: World, f: LoadFault)
    requires Durable(c, initial, w) && w.store != []
    ensures Durable(c, initial, Recovered(c, w, |w.store| - 1, f).0)
  {
    hide Chained;
    NewestDescribed(c, w.store);
  }

  lemma RestartKeepsDurable(c: Config, initial: StructureState, w: World, f: LoadFault, slices: seq<Vec>,
      structure: StructureState, nextTime: real)
    requires Durable(c, initial, w) && w.store != []
    ensures var (v, ok) := Restarted(c, w.store, |w.store| - 1, f, slices, structure, nextTime);
      ok ==> Durable(c, initial, v)
  {
    hide Chained, Tick;
    NewestDescribed(c, w.store);
  }

  lemma NewestDescribed(c: Config, store: seq<Manifest>)
    requires Chained(c, store) && store != []
    ensures var m := store[|store| - 1]; m.step == |store| - 1 && m.structure.step == m.step
  {
    assert Linked(c, store, |store| - 1);
  }

  lemma OpKeepsDurable(c: Config, p: Physics, initial: StructureState, w: World, op: Op)
    requires Durable(c, initial, w) && NamesNewest(w, op)
    ensures Durable(c, initial, After(c, p, w, op))
  {
    hide Durable, Step, Recovered, Restarted;
    match op
    case RunStep(step, time, env) => StepKeepsDurable(c, p, initial, w, step, time, env);
    case Recover(_, f) => RecoveryKeepsDurable(c, initial, w, f);
    case Restart(_, f, slices, structure, nextTime) =>
      RestartKeepsDurable(c, initial, w, f, slices, structure, nextTime);
  }

  /** Any run from a fresh start, with faults at any phase, recoveries and restarts, keeps the invariant. */
  lemma {:induction false} RunKeepsDurable(c: Config, p: Physics, initial: StructureState, w: World, ops: seq<Op>)
    requires Durable(c, initial, w) && Disciplined(c, p, w, ops)
    ensures Durable(c, initial, Run(c, p, w, ops))
    decreases |ops|
  {
    hide Durable, After;
    if ops != [] {
      OpKeepsDurable(c, p, initial, w, ops[0]);
      RunKeepsDurable(c, p, initial, After(c, p, w, ops[0]), ops[1..]);
    }
  }

  /** The newest durable manifest is that of the last committed step, or of the next one while recovery is due or the
      run has failed. */
  lemma NewestManifest(c: Config, p: Physics, initial: StructureState, slices: seq<Vec>, ops: seq<Op>)
    requires Disciplined(c, p, Fresh(c, [], slices, initial), ops)
    ensures NewestKeepsUp(Run(c, p, Fresh(c, [], slices, initial), ops))
  {
    hide Run, Disciplined;
    FreshIsDurable(c, slices, initial);
    RunKeepsDurable(c, p, initial, Fresh(c, [], slices, initial), ops);
    var w := Run(c, p, Fresh(c, [], slices, initial), ops);
    assert w.store != [] ==> Linked(c, w.store, |w.store| - 1);
  }

  /** The structure is never finalized ahead of its manifest: its committed state is initial or durable. */
  lemma FinalizedIsDurable(c: Config, p: Physics, initial: StructureState, slices: seq<Vec>, ops: seq<Op>)
    requires Disciplined(c, p, Fresh(c, [], slices, initial), ops)
    ensures var w := Run(c, p, Fresh(c, [], slices, initial), ops);
      w.structure == initial || exists i :: 0 <= i < |w.store| && w.store[i].structure == w.structure
  {
    hide Run, Disciplined;
    FreshIsDurable(c, slices, initial);
    RunKeepsDurable(c, p, initial, Fresh(c, [], slices, initial), ops);
  }

  /** Stabilized manifests chain parent to parent by exactly one step. */
  lemma ParentsStepByOne(c: Config, p: Physics, initial: StructureState, slices: seq<Vec>, ops: seq<Op>, i: nat)
    requires c.hooked && Disciplined(c, p, Fresh(c, [], slices, initial), ops)
    requires i < |Run(c, p, Fresh(c, [], slices, initial), ops).store|
    ensures var store := Run(c, p, Fresh(c, [], slices, initial), ops).store;
      && store[i].extension.Some?
      && match store[i].extension.value.parent
         case None => store[i].step == 0
         case Some(j) => j < i && store[j].step + 1 == store[i].step
  {
    hide Run, Disciplined;
    FreshIsDurable(c, slices, initial);
    RunKeepsDurable(c, p, initial, Fresh(c, [], slices, initial), ops);
    var store := Run(c, p, Fresh(c, [], slices, initial), ops).store;
    assert Linked(c, store, i) && (i > 0 ==> Linked(c, store, i - 1));
  }

  /** Recovery accepts any manifest of the right shape, newest or not; a hook also needs the extended fields. */
  lemma RecoveryAccepts(c: Config, w: World, i: nat)
    requires i < |w.store|
    ensures Recovered(c, w, i, NoLoadFault).1
      <==> w.phase.RecoveryRequired? && |w.store[i].slices| == |w.slices| && (!c.hooked || Extended(w.store[i]))
  {
  }

  /** A successful recovery keeps the invariant if and only if it was given the newest manifest. */
  lemma RecoveryNeedsNewest(c: Config, initial: StructureState, w: World, i: nat, f: LoadFault)
    requires Durable(c, initial, w) && i < |w.store| && Recovered(c, w, i, f).1
    ensures Durable(c, initial, Recovered(c, w, i, f).0) <==> i + 1 == |w.store|
  {
    assert Linked(c, w.store, i);
  }

  /** What NewestManifest promises of a world. */
  predicate NewestKeepsUp(w: World) {
    if w.store == [] then w.last == -1
    else
      var newest := w.store[|w.store| - 1].step;
      newest == w.last || (newest == w.last + 1 && (w.phase.RecoveryRequired? || w.phase.Failed?))
  }

  /** Recovering from an older manifest always leaves the newest one ahead of an idle scheduler. */
  lemma OlderRecoveryFallsBehind(c: Config, initial: StructureState, w: World, i: nat, f: LoadFault)
    requires Durable(c, initial, w) && i + 1 < |w.store| && Recovered(c, w, i, f).1
    ensures !NewestKeepsUp(Recovered(c, w, i, f).0)
  {
    assert Linked(c, w.store, i) && Linked(c, w.store, |w.store| - 1);
  }

  // ----- failure is final

  /** No operation of the same scheduler leaves FAILED or touches what it had committed. */
  lemma FailedIsFinal(c: Config, p: Physics, w: World, step: int, time: real, e: Env, i: nat, f: LoadFault)
    requires w.phase.Failed?
    ensures Step(c, p, w, step, time, e) == (w, Refused)
    ensures i < |w.store| ==> Recovered(c, w, i, f) == (w, false) && Restored(c, w, i, f) == (w, false)
    ensures i < |w.store| ==> Bound(c, w, i, c.runId, step, time).0.phase.Failed?
  {
  }
}
