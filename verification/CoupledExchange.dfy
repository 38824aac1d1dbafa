/**
 A step of the transaction in the calls it makes: which motion each slice is advanced by, which load each slice
 returns, what the structure is corrected by, and what of it the world and the durable manifest keep.
 */
module CoupledExchange {
  import opened Wrappers
  import opened Transaction
  import Refinement
  import Gather

  // ----- ticks

  /** `tick` is the whole number of nanoseconds a time stands for. */
  predicate OnGrid(time: real, tick: int) {
    -5.0e-13 <= time - tick as real / 1.0e9 <= 5.0e-13
  }

  /** Rounding is to the nearest whole number, and from the middle to the even one. */
  lemma RoundedIsNearest(x: real, k: int)
    ensures Rounded(x) == k <==>
      -0.5 < x - k as real < 0.5 || ((x - k as real == 0.5 || x - k as real == -0.5) && k % 2 == 0)
  {
  }

  /** A time lies on the grid exactly when its tick says so, and no other tick does. */
  lemma GridIsTick(time: real, tick: int)
    ensures OnGrid(time, tick) <==> !TickMismatch(time) && Tick(time) == tick
  {
    var x := time * 1.0e9;
    Quotient(tick as real);
    Quotient(Tick(time) as real);
    RoundedIsNearest(x, tick);
    RoundedIsNearest(x, Tick(time));
    hide Rounded;
  }

  lemma Quotient(k: real)
    ensures k / 1.0e9 * 1.0e9 == k
  {
  }

  // ----- a completed step

  /** Every slice is advanced by its own motion and returns its own load. */
  ghost predicate EachExchanges(p: Physics, step: int, time: real, motion: seq<Vec>, before: seq<Vec>, after: seq<Vec>,
                                raw: seq<Vec>) {
    && |motion| == |before| == |after| == |raw|
    && forall sid: nat :: sid < |before| ==>
      && p.advance(sid, before[sid], step, time, motion[sid]) == Some(after[sid])
      && p.load(sid, after[sid]) == Some(raw[sid])
  }

  lemma ExchangedEach(c: Config, p: Physics, w: World, step: int, time: real, motion: seq<Vec>, f: Fault)
    requires |w.slices| == |motion| == c.slices
    ensures var (v, all) := Exchanged(c, p, w, step, time, motion, f);
      all && LoadsOf(c, p, v, f).Some? ==>
        && EachExchanges(p, step, time, motion, w.slices, v.slices, LoadsOf(c, p, v, f).value)
        && v == w.(phase := CfdAdvanced, slices := v.slices)
  {
    var (v, all) := Exchanged(c, p, w, step, time, motion, f);
    if all && LoadsOf(c, p, v, f).Some? {
      var raw := LoadsOf(c, p, v, f).value;
      var advance, load := AdvanceCall(p, w.slices, step, time, motion), LoadCall(p, v.slices);
      Refinement.AdvancedIsGathered(c.slices, w.slices, advance);
      forall sid: nat | sid < c.slices
        ensures p.advance(sid, w.slices[sid], step, time, motion[sid]) == Some(v.slices[sid])
        ensures p.load(sid, v.slices[sid]) == Some(raw[sid])
      {
        assert advance(sid) == Some(v.slices[sid]);
        assert load(sid) == Some(raw[sid]);
      }
    }
  }

  /** What stands in the world after a completed step, and in its manifest, in terms of the calls made. */
  ghost predicate Completed(c: Config, p: Physics, w: World, v: World, step: int, time: real, raw: seq<Vec>) {
    && |v.store| == |w.store| + 1 && v.store[..|w.store|] == w.store && v.parent == Some(|w.store|)
    && p.correct(w.structure, step, time, v.previous) == Some((v.structure.q, v.generalized))
    && v.structure == StructureState(step, time, v.structure.q)
    && v.phase == Committed && v.last == step && v.lastTime == time && v.staged == None && !v.active
    && var m := v.store[|w.store|];
       && m.step == step && m.time == time && m.slices == v.slices && m.structure == v.structure && m.previous == raw
       && m.generalized == v.generalized
       && if c.hooked then m.extension.Some? && Stabilized(c, p, w, v, step, time, raw, m.extension.value)
          else m.extension == None && v.previous == raw && v.previousRaw == w.previousRaw && c.runId == ""
               && v.stabilizer == w.stabilizer && v.hookPending == w.hookPending && v.hookCommitted == w.hookCommitted
  }

  /** Under a hook: its applied loads and its state, at a time on the tick grid. */
  ghost predicate Stabilized(c: Config, p: Physics, w: World, v: World, step: int, time: real, raw: seq<Vec>,
                             x: Extension) {
    && v.stabilizer.Some? && OnGrid(time, x.tick) && |v.previous| == c.slices
    && p.stabilize(w.stabilizer, step, x.tick, raw) == Some((v.previous, v.stabilizer.value))
    && v.previousRaw == raw && v.hookCommitted == v.stabilizer && v.hookPending == None
    && x.runId == c.runId && x.raw == raw && x.applied == v.previous && x.state == v.stabilizer.value
    && x.parent == w.parent && !x.state.schema.Foreign? && (x.state.schema.TimeConsistent? ==> c.snapshots)
    && (x.state.schema.Base? || step <= 0 || x.parent.Some?)
  }

  lemma LoadsInFull(c: Config, p: Physics, w: World, step: int, time: real, raw: seq<Vec>, e: Env)
    requires |raw| == c.slices
    ensures var (v, k) := FromLoads(c, p, w, step, time, raw, e);
      k.Done? ==> Completed(c, p, w, v, step, time, raw) && v.slices == w.slices
  {
    GridIsTick(time, Tick(time));
    hide OnGrid, Tick, TickMismatch, Abort;
  }

  /**
   Every step that completes, whatever the faults: the motion is predicted from the committed structure and the loads
   it last received; slice by slice that motion advances the slice, and the advanced slice gives the raw load; the
   structure is corrected by the applied loads, which are the raw ones unless a hook turns them into others; and the
   world and the one new manifest hold these and nothing else.
   */
  lemma DoneInFull(c: Config, p: Physics, w: World, step: int, time: real, e: Env)
    requires |w.slices| == c.slices
    ensures var (v, k) := Step(c, p, w, step, time, e);
      k.Done? ==>
        var raw := if c.hooked then v.previousRaw else v.previous;
        && (w.phase == Initialized || w.phase == Transaction.Committed) && step == w.last + 1 && time >= 0.0
        && p.predict(w.structure, step, time, w.previous).Some?
        && EachExchanges(p, step, time, p.predict(w.structure, step, time, w.previous).value, w.slices, v.slices, raw)
        && Completed(c, p, w, v, step, time, raw)
  {
    hide FromLoads, Exchanged, LoadsOf, Abort, EachExchanges;
    match MotionOf(c, p, w, step, time, e.fault)
    case None =>
    case Some(motion) =>
      ExchangedEach(c, p, w.(phase := Predicted), step, time, motion, e.fault);
      var (v, all) := Exchanged(c, p, w.(phase := Predicted), step, time, motion, e.fault);
      if all && LoadsOf(c, p, v, e.fault).Some? {
        var raw := LoadsOf(c, p, v, e.fault).value;
        LoadsInFull(c, p, v.(phase := LoadsConsumed), step, time, raw, e);
      }
  }

  // ----- when a step completes

  lemma ExchangeSucceeds(c: Config, p: Physics, w: World, step: int, time: real, motion: seq<Vec>, after: seq<Vec>,
                         raw: seq<Vec>)
    requires |w.slices| == c.slices && EachExchanges(p, step, time, motion, w.slices, after, raw)
    ensures var v := w.(phase := CfdAdvanced, slices := after);
      Exchanged(c, p, w, step, time, motion, NoFault) == (v, true) && LoadsOf(c, p, v, NoFault) == Some(raw)
  {
    var advance, load := AdvanceCall(p, w.slices, step, time, motion), LoadCall(p, after);
    forall sid: nat | sid < c.slices
      ensures advance(sid) == Some(after[sid]) && load(sid) == Some(raw[sid])
    {
    }
    Gather.SameResults(c.slices, advance, after);
    Gather.SameResults(c.slices, load, raw);
    Refinement.AdvancedIsGathered(c.slices, w.slices, advance);
  }

  /** What the hook must return, and when: on the tick grid, for a manifest that validation accepts. */
  ghost predicate HookAnswers(c: Config, p: Physics, w: World, step: int, time: real, tick: int, raw: seq<Vec>,
                              applied: seq<Vec>, state: StabilizerState) {
    && OnGrid(time, tick) && |applied| == c.slices
    && p.stabilize(w.stabilizer, step, tick, raw) == Some((applied, state))
    && !state.schema.Foreign? && (state.schema.TimeConsistent? ==> c.snapshots)
    && (state.schema.Base? || step <= 0 || w.parent.Some?)
  }

  lemma LoadsComplete(c: Config, p: Physics, w: World, step: int, time: real, raw: seq<Vec>, applied: seq<Vec>,
                      state: StabilizerState, tick: int, q: Vec, generalized: Vec, discardFails: bool)
    requires if c.hooked then HookAnswers(c, p, w, step, time, tick, raw, applied, state)
             else applied == raw && c.runId == ""
    requires p.correct(w.structure, step, time, applied) == Some((q, generalized))
    ensures var (v, k) := FromLoads(c, p, w, step, time, raw, Env(NoFault, discardFails));
      && k.Done? && v.structure == StructureState(step, time, q) && v.previous == applied && v.slices == w.slices
      && v.generalized == generalized && (c.hooked ==> v.stabilizer == Some(state))
  {
    if c.hooked {
      GridIsTick(time, tick);
    }
    hide OnGrid, Tick, TickMismatch, Abort;
  }

  /** Without a fault, calls that all succeed, at an admissible time, make a completed step of just these values. */
  lemma CallsComplete(c: Config, p: Physics, w: World, step: int, time: real, motion: seq<Vec>, after: seq<Vec>,
                      raw: seq<Vec>, applied: seq<Vec>, state: StabilizerState, tick: int, q: Vec, generalized: Vec,
                      discardFails: bool)
    requires (w.phase == Initialized || w.phase == Transaction.Committed) && step == w.last + 1 && time >= 0.0
    requires |w.slices| == c.slices && p.predict(w.structure, step, time, w.previous) == Some(motion)
    requires EachExchanges(p, step, time, motion, w.slices, after, raw)
    requires if c.hooked then HookAnswers(c, p, w, step, time, tick, raw, applied, state)
             else applied == raw && c.runId == ""
    requires p.correct(w.structure, step, time, applied) == Some((q, generalized))
    ensures var (v, k) := Step(c, p, w, step, time, Env(NoFault, discardFails));
      && k.Done? && v.structure == StructureState(step, time, q) && v.previous == applied && v.slices == after
      && v.generalized == generalized && (c.hooked ==> v.stabilizer == Some(state))
  {
    hide FromLoads, Exchanged, LoadsOf, OnGrid, Abort;
    ExchangeSucceeds(c, p, w.(phase := Predicted), step, time, motion, after, raw);
    LoadsComplete(c, p, w.(phase := LoadsConsumed, slices := after), step, time, raw, applied, state, tick, q,
                  generalized, discardFails);
  }

  /** The first step of a fresh scheduler is predicted and carried out under zero forces. */
  lemma FirstStepSeesNoForces(c: Config, p: Physics, store: seq<Manifest>, slices: seq<Vec>, structure: StructureState,
                              rows: seq<Vec>, time: real, e: Env)
    requires |slices| == c.slices == |rows| && forall i :: 0 <= i < |rows| ==> rows[i] == [0.0, 0.0, 0.0]
    ensures var (v, k) := Step(c, p, Fresh(c, store, slices, structure), 0, time, e);
      k.Done? ==>
        && p.predict(structure, 0, time, rows).Some?
        && EachExchanges(p, 0, time, p.predict(structure, 0, time, rows).value, slices, v.slices,
                         if c.hooked then v.previousRaw else v.previous)
        && p.correct(structure, 0, time, v.previous) == Some((v.structure.q, v.generalized))
        && |v.store| == |store| + 1
        && (c.hooked ==> v.store[|store|].extension.Some? && v.store[|store|].extension.value.parent == None)
  {
    hide Step, EachExchanges;
    DoneInFull(c, p, Fresh(c, store, slices, structure), 0, time, e);
    assert NoForces(c.slices) == rows;
  }

  // ----- a failed step

  /** Before its commit point a step has moved no slice, or each one whose advance succeeded. */
  ghost predicate SlicesMoved(p: Physics, before: seq<Vec>, after: seq<Vec>, step: int, time: real, motion: seq<Vec>) {
    && |motion| == |before| == |after|
    && forall sid: nat :: sid < |before| ==>
      match p.advance(sid, before[sid], step, time, motion[sid])
      case Some(moved) => after[sid] == moved
      case None => after[sid] == before[sid]
  }

  lemma ExchangedMoves(c: Config, p: Physics, w: World, step: int, time: real, motion: seq<Vec>, f: Fault)
    requires |w.slices| == |motion| == c.slices
    ensures var v := Exchanged(c, p, w, step, time, motion, f).0;
      v.slices == w.slices || SlicesMoved(p, w.slices, v.slices, step, time, motion)
    ensures var v := Exchanged(c, p, w, step, time, motion, f).0; v == w.(phase := v.phase, slices := v.slices)
  {
  }

  lemma LoadsFail(c: Config, p: Physics, w: World, step: int, time: real, raw: seq<Vec>, e: Env)
    requires !w.active && w.staged == None
    ensures var (v, k) := FromLoads(c, p, w, step, time, raw, e);
      k.NotPublished? ==>
        && v.slices == w.slices
        && (v.staged.Some? ==> e.fault == CorrectionRejected || e.discardFails)
        && (v.store != w.store ==> (v.staged.Some? <==> e.discardFails))
  {
    hide Tick, TickMismatch, ManifestRefused;
  }

  /**
   Every step that fails before its commit point: the slices are where they were, or where their own motions have
   taken them; a staged structure is left behind only when validation refused the correction, which is recorded too
   late to be discarded, or when the discard itself failed.
   */
  lemma FailedInFull(c: Config, p: Physics, w: World, step: int, time: real, e: Env)
    requires |w.slices| == c.slices && !w.active && w.staged == None
    ensures var (v, k) := Step(c, p, w, step, time, e);
      k.NotPublished? ==>
        && (v.slices == w.slices
            || (var motion := p.predict(w.structure, step, time, w.previous);
                motion.Some? && SlicesMoved(p, w.slices, v.slices, step, time, motion.value)))
        && (v.staged.Some? ==> e.fault == CorrectionRejected || e.discardFails)
        && (v.store != w.store ==> (v.staged.Some? <==> e.discardFails))
  {
    hide FromLoads, Exchanged, LoadsOf, SlicesMoved;
    match MotionOf(c, p, w, step, time, e.fault)
    case None =>
    case Some(motion) =>
      ExchangedMoves(c, p, w.(phase := Predicted), step, time, motion, e.fault);
      var (v, all) := Exchanged(c, p, w.(phase := Predicted), step, time, motion, e.fault);
      if all && LoadsOf(c, p, v, e.fault).Some? {
        LoadsFail(c, p, v.(phase := LoadsConsumed), step, time, LoadsOf(c, p, v, e.fault).value, e);
      }
  }
}
