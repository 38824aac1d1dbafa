/**
 Restart and recovery refine the run that never stopped: what a committed manifest holds is
 enough to continue exactly as the scheduler that wrote it.
 */
module Restart {
  import opened Wrappers
  import opened Transaction

  // ----- worlds that continue alike

  /** Two worlds from which a scheduler continues in the same way. */
  ghost predicate Alike(c: Config, a: World, b: World) {
    && a.last == b.last && a.lastTime == b.lastTime && a.previous == b.previous && a.generalized == b.generalized
    && a.slices == b.slices && a.structure == b.structure && a.store == b.store
    && (c.hooked ==>
        a.previousRaw == b.previousRaw && a.stabilizer == b.stabilizer && a.hookCommitted == b.hookCommitted)
    && (a.phase.Failed? || (c.hooked ==> a.parent == b.parent))
    && (a.phase == b.phase || (Idle(a) && Idle(b)))
  }

  ghost predicate Idle(w: World) {
    w.phase.Initialized? || w.phase.Committed?
  }

  lemma AppliedAlike(c: Config, p: Physics, a: World, b: World, step: int, time: real, raw: seq<Vec>)
    requires Alike(c, a, b)
    ensures AppliedOf(c, p, a, step, time, raw) == AppliedOf(c, p, b, step, time, raw)
    ensures var r := AppliedOf(c, p, a, step, time, raw); r.Some? ==> (c.hooked <==> r.value.1.Some?)
  {
    hide Tick;
  }

  lemma CorrectionsAlike(c: Config, p: Physics, a: World, b: World, step: int, time: real, raw: seq<Vec>, f: Fault)
    requires Alike(c, a, b) && !a.phase.Failed? && !Idle(a)
    ensures var (v, x), (w, y) := Corrected(c, p, a, step, time, raw, f), Corrected(c, p, b, step, time, raw, f);
      && x == y && Alike(c, v, w) && !v.phase.Failed?
      && (x.Some? ==> v.staged.Some? && v.staged == w.staged && (c.hooked ==> x.value.state.Some?))
  {
    hide Tick, AppliedOf;
    AppliedAlike(c, p, a, b, step, time, raw);
  }

  lemma AbortsAlike(c: Config, a: World, b: World, discardFails: bool)
    requires Alike(c, a, b)
    ensures Alike(c, Abort(c, a, discardFails), Abort(c, b, discardFails))
  {
  }

  lemma ManifestsAlike(c: Config, a: World, b: World, step: int, time: real, raw: seq<Vec>, x: Correction)
    requires Alike(c, a, b) && !a.phase.Failed? && a.staged.Some? && a.staged == b.staged
      && (c.hooked ==> x.state.Some?)
    ensures ManifestOf(c, a, step, time, raw, x) == ManifestOf(c, b, step, time, raw, x)
  {
    hide Tick;
  }

  lemma ConclusionsAlike(c: Config, a: World, b: World, step: int, time: real, raw: seq<Vec>, x: Correction, f: Fault)
    requires Alike(c, a, b) && !a.phase.Failed? && a.staged.Some? && a.staged == b.staged
    ensures var (v, k), (w, l) := Concluded(c, a, step, time, raw, x, f), Concluded(c, b, step, time, raw, x, f);
      k == l && Alike(c, v, w)
  {
  }

  lemma CommitsAlike(c: Config, a: World, b: World, step: int, time: real, raw: seq<Vec>, x: Correction, e: Env)
    requires Alike(c, a, b) && !a.phase.Failed? && a.staged.Some? && a.staged == b.staged
      && (c.hooked ==> x.state.Some?)
    ensures var (v, k), (w, l) := FromCorrection(c, a, step, time, raw, x, e),
      FromCorrection(c, b, step, time, raw, x, e);
      k == l && Alike(c, v, w)
  {
    hide TickMismatch, ManifestRefused, PrepareRefused, Abort, Concluded, ManifestOf;
    var m := ManifestOf(c, a, step, time, raw, x);
    ManifestsAlike(c, a, b, step, time, raw, x);
    ConclusionsAlike(c, Published(a, m), Published(b, m), step, time, raw, x, e.fault);
    AbortsAlike(c, a, b, e.discardFails);
    AbortsAlike(c, a.(store := a.store + [m]), b.(store := b.store + [m]), e.discardFails);
  }

  lemma LoadsAlike(c: Config, p: Physics, a: World, b: World, step: int, time: real, raw: seq<Vec>, e: Env)
    requires Alike(c, a, b) && !a.phase.Failed? && !Idle(a)
    ensures var (v, k), (w, l) := FromLoads(c, p, a, step, time, raw, e), FromLoads(c, p, b, step, time, raw, e);
      k == l && Alike(c, v, w)
  {
    hide Corrected, FromCorrection, Abort, Alike, Idle;
    CorrectionsAlike(c, p, a, b, step, time, raw, e.fault);
    var (v, x) := Corrected(c, p, a, step, time, raw, e.fault);
    var (w, y) := Corrected(c, p, b, step, time, raw, e.fault);
    AbortsAlike(c, v, w, e.discardFails);
    if x.Some? {
      CommitsAlike(c, v, w, step, time, raw, x.value, e);
    }
  }

  lemma MotionsAlike(c: Config, p: Physics, a: World, b: World, step: int, time: real, motion: seq<Vec>, e: Env)
    requires Alike(c, a, b) && a.phase == b.phase == Predicted
    ensures var (v, k), (w, l) := FromMotion(c, p, a, step, time, motion, e),
      FromMotion(c, p, b, step, time, motion, e);
      k == l && Alike(c, v, w)
  {
    hide FromLoads, Abort, AdvanceCall, LoadCall, Advanced;
    var (v, advanced) := Exchanged(c, p, a, step, time, motion, e.fault);
    var (w, advanced') := Exchanged(c, p, b, step, time, motion, e.fault);
    assert Alike(c, v, w) && advanced == advanced';
    AbortsAlike(c, v, w, e.discardFails);
    if advanced && LoadsOf(c, p, v, e.fault).Some? {
      LoadsAlike(c, p, v.(phase := LoadsConsumed), w.(phase := LoadsConsumed), step, time,
                 LoadsOf(c, p, v, e.fault).value, e);
    }
  }

  /** Alike worlds take the same step, under every fault, and stay alike. */
  lemma StepsAlike(c: Config, p: Physics, a: World, b: World, step: int, time: real, e: Env)
    requires Alike(c, a, b)
    ensures var (v, k), (w, l) := Step(c, p, a, step, time, e), Step(c, p, b, step, time, e);
      k == l && Alike(c, v, w)
  {
    hide FromMotion, Abort;
    assert Ready(a, step, time) <==> Ready(b, step, time);
    if Ready(a, step, time) {
      assert MotionOf(c, p, a, step, time, e.fault) == MotionOf(c, p, b, step, time, e.fault);
      AbortsAlike(c, a, b, e.discardFails);
      match MotionOf(c, p, a, step, time, e.fault)
      case None =>
      case Some(motion) => MotionsAlike(c, p, a.(phase := Predicted), b.(phase := Predicted), step, time, motion, e);
    }
  }

  datatype Call = Call(step: int, time: real, env: Env)

  function Steps(c: Config, p: Physics, w: World, calls: seq<Call>): World
    decreases |calls|
  {
    if calls == [] then w
    else Steps(c, p, Step(c, p, w, calls[0].step, calls[0].time, calls[0].env).0, calls[1..])
  }

  lemma {:induction false} RunsAlike(c: Config, p: Physics, a: World, b: World, calls: seq<Call>)
    requires Alike(c, a, b)
    ensures Alike(c, Steps(c, p, a, calls), Steps(c, p, b, calls))
    decreases |calls|
  {
    hide Step, Alike;
    if calls != [] {
      var x := calls[0];
      StepsAlike(c, p, a, b, x.step, x.time, x.env);
      RunsAlike(c, p, Step(c, p, a, x.step, x.time, x.env).0, Step(c, p, b, x.step, x.time, x.env).0, calls[1..]);
    }
  }

  // ----- what a committed step leaves in the store

  /** The newest manifest records everything from which the scheduler goes on. */
  ghost predicate Recorded(c: Config, w: World) {
    && w.store != []
    && var m := w.store[|w.store| - 1];
    && m.step == w.last && m.time == w.lastTime && m.slices == w.slices && m.structure == w.structure
    && m.generalized == w.generalized
    && (c.hooked <==> m.extension.Some?)
    && if c.hooked then
         var x := m.extension.value;
         && m.previous == x.raw == w.previousRaw && x.applied == w.previous
           && w.stabilizer == Some(x.state) == w.hookCommitted
         && x.runId == c.runId && x.tick == Tick(w.lastTime) && w.parent == Some(|w.store| - 1)
       else m.previous == w.previous
  }

  lemma CommitRecords(c: Config, w: World, step: int, time: real, raw: seq<Vec>, x: Correction, e: Env)
    requires w.staged.Some? && w.staged.value.step == step && w.staged.value.time == time
      && (c.hooked ==> x.state.Some?)
    ensures var (v, k) := FromCorrection(c, w, step, time, raw, x, e);
      (k.Done? ==> Recorded(c, v) && Idle(v)) && (k.Done? || k.HookRaised? || k.NeedsRecovery? || k.NotPublished?)
  {
    hide Tick, TickMismatch, ManifestRefused, Abort;
  }

  /** A step that completes leaves a manifest that records the world it ends in. */
  lemma CompletedStepRecords(c: Config, p: Physics, w: World, step: int, time: real, e: Env)
    ensures var (v, k) := Step(c, p, w, step, time, e);
      k.Done? ==> Recorded(c, v) && Idle(v) && |v.slices| == |w.slices|
  {
    hide FromCorrection, Abort, AdvanceCall, LoadCall, Advanced, AdvanceReached, Recorded, Tick;
    if Ready(w, step, time) {
      match MotionOf(c, p, w, step, time, e.fault) {
        case None =>
        case Some(motion) =>
          var (v, advanced) := Exchanged(c, p, w.(phase := Predicted), step, time, motion, e.fault);
          if advanced && LoadsOf(c, p, v, e.fault).Some? {
            var raw := LoadsOf(c, p, v, e.fault).value;
            var (u, x) := Corrected(c, p, v.(phase := LoadsConsumed), step, time, raw, e.fault);
            if x.Some? {
              CommitRecords(c, u, step, time, raw, x.value, e);
              KeepsSlices(c, u, step, time, raw, x.value, e);
            }
          }
      }
    }
  }

  lemma KeepsSlices(c: Config, w: World, step: int, time: real, raw: seq<Vec>, x: Correction, e: Env)
    requires w.staged.Some? && (c.hooked ==> x.state.Some?)
    ensures FromCorrection(c, w, step, time, raw, x, e).0.slices == w.slices
  {
    hide Tick, TickMismatch, ManifestRefused;
  }

  // ----- restart

  /** What restart asks of the newest manifest when a hook is in use: the first stabilizer schema and a contiguous
      tick. */
  predicate Restartable(c: Config, m: Manifest, nextTime: real) {
    !c.hooked || (Extended(m) && m.extension.value.tick + Tick(c.dt) == Tick(nextTime))
  }

  /** Restoring the newest manifest in a fresh scheduler is accepted, and yields a world alike the one that stopped,
      exactly when the manifest is restartable. */
  lemma RestartRestores(c: Config, w: World, slices: seq<Vec>, structure: StructureState, nextTime: real)
    requires Recorded(c, w) && Idle(w) && |slices| == |w.slices|
    ensures var (v, ok) := Restarted(c, w.store, |w.store| - 1, NoLoadFault, slices, structure, nextTime);
      && (ok <==> Restartable(c, w.store[|w.store| - 1], nextTime))
      && (ok ==> Alike(c, v, w))
  {
    hide Tick;
  }

  /** Restart refines the continuous run: committing a step, restoring its manifest and going on gives what never
      stopping gives. */
  lemma RestartRefines(c: Config, p: Physics, before: World, at: Call, slices: seq<Vec>, structure: StructureState,
      nextTime: real, calls: seq<Call>)
    requires |slices| == |before.slices|
    requires Step(c, p, before, at.step, at.time, at.env).1.Done?
    ensures var w := Step(c, p, before, at.step, at.time, at.env).0;
      && w.store != []
      && var (v, ok) := Restarted(c, w.store, |w.store| - 1, NoLoadFault, slices, structure, nextTime);
      && (ok <==> Restartable(c, w.store[|w.store| - 1], nextTime))
      && (ok ==> Alike(c, Steps(c, p, v, calls), Steps(c, p, w, calls)))
  {
    hide Step, Restarted, Alike, Idle, Restartable;
    CompletedStepRecords(c, p, before, at.step, at.time, at.env);
    var w := Step(c, p, before, at.step, at.time, at.env).0;
    RestartRestores(c, w, slices, structure, nextTime);
    var (v, ok) := Restarted(c, w.store, |w.store| - 1, NoLoadFault, slices, structure, nextTime);
    if ok {
      RunsAlike(c, p, v, w, calls);
    }
  }

  // ----- recovery

  /** The failed run waits for recovery exactly when the other is done, and recovery then leads to the same world. */
  ghost predicate Recovers(c: Config, failed: (World, Conclusion), done: (World, Conclusion)) {
    var (v, k) := failed;
    var (u, l) := done;
    && (k.NeedsRecovery? <==> l.Done?)
    && (l.Done? ==>
          && v.store == u.store && v.store != []
          && var (r, ok) := Recovered(c, v, |v.store| - 1, NoLoadFault);
          && (ok <==> !c.hooked || Extended(u.store[|u.store| - 1]))
          && (ok ==> Alike(c, r, u)))
  }

  lemma FinalizeOrRecover(c: Config, w: World, step: int, time: real, raw: seq<Vec>, x: Correction, discardFails: bool)
    requires w.staged.Some? && w.staged.value.step == step && w.staged.value.time == time
      && (c.hooked ==> x.state.Some?)
    ensures Recovers(c, FromCorrection(c, w, step, time, raw, x, Env(FinalizeFails, discardFails)),
                     FromCorrection(c, w, step, time, raw, x, Env(NoFault, discardFails)))
  {
    hide Tick, TickMismatch, ManifestRefused, Abort;
  }

  /** A failing finalization is not seen before the commit point. */
  lemma LoadsFinalizeOrRecover(c: Config, p: Physics, v: World, step: int, time: real, raw: seq<Vec>,
      discardFails: bool)
    ensures Recovers(c, FromLoads(c, p, v, step, time, raw, Env(FinalizeFails, discardFails)),
                     FromLoads(c, p, v, step, time, raw, Env(NoFault, discardFails)))
  {
    hide FromCorrection, Abort, Recovers, Tick;
    var (u, x) := Corrected(c, p, v, step, time, raw, NoFault);
    assert Corrected(c, p, v, step, time, raw, FinalizeFails) == (u, x);
    if x.Some? {
      FinalizeOrRecover(c, u, step, time, raw, x.value, discardFails);
    } else {
      NothingToRecover(c, Abort(c, u, discardFails));
    }
  }

  lemma NothingToRecover(c: Config, v: World)
    ensures Recovers(c, (v, NotPublished), (v, NotPublished))
  {
  }

  /** A failed finalization costs nothing: recovering from the published manifest gives the world the step would have
      reached. */
  lemma RecoveryCompletesTheStep(c: Config, p: Physics, w: World, step: int, time: real, discardFails: bool)
    ensures Recovers(c, Step(c, p, w, step, time, Env(FinalizeFails, discardFails)),
                     Step(c, p, w, step, time, Env(NoFault, discardFails)))
  {
    hide FromLoads, Abort, AdvanceCall, LoadCall, Advanced, Recovers, Tick;
    if Ready(w, step, time) {
      match MotionOf(c, p, w, step, time, NoFault) {
        case None =>
          NothingToRecover(c, Abort(c, w, discardFails));
        case Some(motion) =>
          var (v, advanced) := Exchanged(c, p, w.(phase := Predicted), step, time, motion, NoFault);
          assert Exchanged(c, p, w.(phase := Predicted), step, time, motion, FinalizeFails) == (v, advanced);
          assert LoadsOf(c, p, v, NoFault) == LoadsOf(c, p, v, FinalizeFails);
          if advanced && LoadsOf(c, p, v, NoFault).Some? {
            var raw := LoadsOf(c, p, v, NoFault).value;
            LoadsFinalizeOrRecover(c, p, v.(phase := LoadsConsumed), step, time, raw, discardFails);
          } else {
            NothingToRecover(c, Abort(c, v, discardFails));
          }
      }
    } else {
      RefusedRecovers(c, w);
    }
  }

  lemma RefusedRecovers(c: Config, w: World)
    ensures Recovers(c, (w, Refused), (w, Refused))
  {
  }
}
