/**
 The ten-phase step refines the plain weak-coupling recurrence: predict, advance the slices, read
 their loads, stabilize, correct. Phases, staging, checkpoints and faults decide only whether the
 recurrence takes its step.
 */
module Refinement {
  import opened Wrappers
  import opened Transaction
  import Gather

  /** What the recurrence carries from step to step. */
  datatype Coupled = Coupled(
    structure: StructureState, previous: seq<Vec>, generalized: Vec, stabilizer: Option<StabilizerState>,
    slices: seq<Vec>)

  function CoupledOf(w: World): Coupled {
    Coupled(w.structure, w.previous, w.generalized, w.stabilizer, w.slices)
  }

  function Stabilized(c: Config, p: Physics, x: Coupled, step: int, time: real, raw: seq<Vec>):
      Option<(seq<Vec>, Option<StabilizerState>)> {
    if !c.hooked then Some((raw, x.stabilizer))
    else
      match p.stabilize(x.stabilizer, step, Tick(time), raw)
      case None => None
      case Some((applied, state)) => if |applied| == c.slices then Some((applied, Some(state))) else None
  }

  function Observed(c: Config, p: Physics, x: Coupled, step: int, time: real): Option<(seq<Vec>, seq<Vec>)> {
    match p.predict(x.structure, step, time, x.previous)
    case None => None
    case Some(motion) =>
      if |motion| != c.slices then None
      else
        match Gather.Gathered(c.slices, AdvanceCall(p, x.slices, step, time, motion))
        case None => None
        case Some(slices) =>
          match Gather.Gathered(c.slices, LoadCall(p, slices))
          case None => None
          case Some(raw) => Some((slices, raw))
  }

  /** One step of the recurrence. */
  function CoupledStep(c: Config, p: Physics, x: Coupled, step: int, time: real): Option<Coupled> {
    match Observed(c, p, x, step, time)
    case None => None
    case Some((slices, raw)) =>
      match Stabilized(c, p, x, step, time, raw)
      case None => None
      case Some((applied, state)) =>
        match p.correct(x.structure, step, time, applied)
        case None => None
        case Some((q, generalized)) => Some(Coupled(StructureState(step, time, q), applied, generalized, state, slices))
  }

  /** The checks a step must pass besides the recurrence: a time on the tick grid and an acceptable manifest. */
  predicate Admissible(c: Config, w: World, time: real, state: Option<StabilizerState>) {
    && !PrepareRefused(c, time)
    && (c.hooked && state.Some? ==>
          && !state.value.schema.Foreign? && (state.value.schema.TimeConsistent? ==> c.snapshots)
          && (state.value.schema.Base? || w.last == -1 || w.parent.Some?))
  }

  lemma AdvancedIsGathered(n: nat, slices: seq<Vec>, call: nat -> Option<Vec>)
    requires |slices| == n && Gather.Gathered(n, call).Some?
    ensures Advanced(slices, call) == Gather.Gathered(n, call).value
  {
    var gathered := Gather.Gathered(n, call).value;
    forall i | 0 <= i < n
      ensures Advanced(slices, call)[i] == gathered[i]
    {
      assert call(i) == Some(gathered[i]);
    }
  }

  lemma ExchangeObserves(c: Config, p: Physics, w: World, step: int, time: real, motion: seq<Vec>, f: Fault)
    requires |w.slices| == c.slices && AdvanceReached(f) && f != Before(LoadsReady) && f != Before(LoadsConsumed)
    requires MotionOf(c, p, w, step, time, f) == Some(motion)
    ensures var (v, advanced) := Exchanged(c, p, w.(phase := Predicted), step, time, motion, f);
      match Observed(c, p, CoupledOf(w), step, time)
      case None => !advanced || LoadsOf(c, p, v, f).None?
      case Some((slices, raw)) =>
        advanced && v == w.(phase := CfdAdvanced, slices := slices) && LoadsOf(c, p, v, f) == Some(raw)
  {
    hide AdvanceCall, LoadCall, Advanced;
    var call := AdvanceCall(p, w.slices, step, time, motion);
    if Gather.Gathered(c.slices, call).Some? {
      AdvancedIsGathered(c.slices, w.slices, call);
    }
  }

  /** From observed loads a fault-free step completes exactly when stabilization and correction do and the checks
      pass. */
  lemma LoadsComplete(c: Config, p: Physics, w: World, step: int, time: real, raw: seq<Vec>, discardFails: bool)
    requires !w.phase.Failed? && step == w.last + 1 && w.last >= -1 && (!c.hooked ==> w.stabilizer.None?)
    ensures var (v, k) := FromLoads(c, p, w, step, time, raw, Env(NoFault, discardFails));
      match Stabilized(c, p, CoupledOf(w), step, time, raw)
      case None => k.NotPublished?
      case Some((applied, state)) =>
        match p.correct(w.structure, step, time, applied)
        case None => k.NotPublished?
        case Some((q, generalized)) =>
          && (k.Done? <==> Admissible(c, w, time, state)) && (k.Done? || k.NotPublished?)
          && (k.Done? ==> CoupledOf(v) == Coupled(StructureState(step, time, q), applied, generalized, state, w.slices))
  {
    hide Tick, TickMismatch, Abort;
  }

  /** A fault-free step completes if and only if the recurrence takes its step and the checks pass, and then it is
      that step. */
  lemma StepIsCoupledStep(c: Config, p: Physics, w: World, step: int, time: real, discardFails: bool)
    requires Ready(w, step, time) && w.last >= -1 && |w.slices| == c.slices && (!c.hooked ==> w.stabilizer.None?)
    ensures var (v, k) := Step(c, p, w, step, time, Env(NoFault, discardFails));
      match CoupledStep(c, p, CoupledOf(w), step, time)
      case None => k.NotPublished?
      case Some(next) =>
        && (k.Done? <==> Admissible(c, w, time, next.stabilizer)) && (k.Done? || k.NotPublished?)
        && (k.Done? ==> CoupledOf(v) == next)
  {
    hide FromLoads, Exchanged, LoadsOf, Observed, Stabilized, Abort, Admissible;
    match MotionOf(c, p, w, step, time, NoFault) {
      case None =>
        NothingObserved(c, p, w, step, time);
      case Some(motion) =>
        ExchangeObserves(c, p, w, step, time, motion, NoFault);
        match Observed(c, p, CoupledOf(w), step, time) {
          case None =>
          case Some((slices, raw)) =>
            var v := w.(phase := LoadsConsumed, slices := slices);
            LoadsComplete(c, p, v, step, time, raw, discardFails);
            SameChecks(c, p, w, v, step, time, raw);
        }
    }
  }

  lemma NothingObserved(c: Config, p: Physics, w: World, step: int, time: real)
    requires MotionOf(c, p, w, step, time, NoFault).None?
    ensures Observed(c, p, CoupledOf(w), step, time).None?
  {
  }

  lemma SameChecks(c: Config, p: Physics, w: World, v: World, step: int, time: real, raw: seq<Vec>)
    requires v == w.(phase := v.phase, slices := v.slices)
    ensures Stabilized(c, p, CoupledOf(v), step, time, raw) == Stabilized(c, p, CoupledOf(w), step, time, raw)
    ensures forall state :: Admissible(c, v, time, state) == Admissible(c, w, time, state)
  {
    hide Tick, PrepareRefused;
  }

  /** Steps at consecutive numbers, one for each time. */
  function CoupledRun(c: Config, p: Physics, x: Coupled, step: int, times: seq<real>): Option<Coupled>
    decreases |times|
  {
    if times == [] then Some(x)
    else
      match CoupledStep(c, p, x, step, times[0])
      case None => None
      case Some(next) => CoupledRun(c, p, next, step + 1, times[1..])
  }

  function FaultFree(c: Config, p: Physics, w: World, step: int, times: seq<real>): (World, bool)
    decreases |times|
  {
    if times == [] then (w, true)
    else
      var (v, k) := Step(c, p, w, step, times[0], Env(NoFault, false));
      if k.Done? then FaultFree(c, p, v, step + 1, times[1..]) else (v, false)
  }

  lemma DoneIsReady(c: Config, p: Physics, w: World, step: int, time: real)
    requires Ready(w, step, time) && |w.slices| == c.slices && (!c.hooked ==> w.stabilizer.None?)
    ensures var (v, k) := Step(c, p, w, step, time, Env(NoFault, false));
      k.Done? ==> v.phase.Committed? && v.last == step && |v.slices| == c.slices && (!c.hooked ==> v.stabilizer.None?)
  {
    hide Tick, TickMismatch, ManifestRefused, Abort, AdvanceCall, LoadCall, Advanced;
  }

  /** Over any number of completed steps, the scheduler's world carries what the recurrence computes. */
  lemma {:induction false} RunIsCoupledRun(c: Config, p: Physics, w: World, step: int, times: seq<real>)
    requires (w.phase.Initialized? || w.phase.Committed?) && step == w.last + 1 && w.last >= -1
    requires |w.slices| == c.slices && (!c.hooked ==> w.stabilizer.None?)
    ensures var (v, completed) := FaultFree(c, p, w, step, times);
      completed ==> CoupledRun(c, p, CoupledOf(w), step, times) == Some(CoupledOf(v))
    decreases |times|
  {
    hide Step, CoupledStep, Admissible;
    if times != [] && times[0] >= 0.0 {
      StepIsCoupledStep(c, p, w, step, times[0], false);
      DoneIsReady(c, p, w, step, times[0]);
      var (v, k) := Step(c, p, w, step, times[0], Env(NoFault, false));
      if k.Done? {
        RunIsCoupledRun(c, p, v, step + 1, times[1..]);
      }
    } else if times != [] {
      NegativeTimeRefused(c, p, w, step, times[0]);
    }
  }

  lemma NegativeTimeRefused(c: Config, p: Physics, w: World, step: int, time: real)
    requires time < 0.0
    ensures Step(c, p, w, step, time, Env(NoFault, false)).1.Refused?
  {
  }
}
