/**
 Concrete runs of the scheduler that reach the corners of its guarantees: a recovery from an older
 manifest, and a completed step that no restart accepts.
 */
module Witness {
  import opened Wrappers
  import opened Transaction
  import opened Durability
  import Gather
  import Restart

  /** One slice, and a hook or none. */
  function QuietConfig(hooked: bool): Config {
    Config(1, 1.0, 0.0, if hooked then "run" else "", hooked, true)
  }

  /** Every call succeeds and nothing moves; the stabilizer writes states of the given schema. */
  function QuietPhysics(schema: Schema): Physics {
    Physics(
      (structure, step, time, previous) => Some([[]]),
      (sid, state, step, time, motion) => Some(state),
      (sid, state) => Some([0.0, 0.0, 0.0]),
      (state, step, tick, raw) => Some((raw, StabilizerState(schema, []))),
      (structure, step, time, forces) => Some(([], [])))
  }

  const START := StructureState(-1, 0.0, [])

  function QuietStart(hooked: bool): World {
    Fresh(QuietConfig(hooked), [], [[]], START)
  }

  lemma QuietExchange(hooked: bool, schema: Schema, w: World, step: int)
    requires |w.slices| == 1
    ensures var c, p := QuietConfig(hooked), QuietPhysics(schema);
      && MotionOf(c, p, w, step, 0.0, NoFault) == Some([[]])
      && MotionOf(c, p, w, step, 0.0, FinalizeFails) == Some([[]])
      && (forall f :: f == NoFault || f == FinalizeFails ==>
            && Exchanged(c, p, w.(phase := Predicted), step, 0.0, [[]], f) == (w.(phase := CfdAdvanced), true)
            && LoadsOf(c, p, w.(phase := CfdAdvanced), f) == Some([[0.0, 0.0, 0.0]]))
  {
    var c, p := QuietConfig(hooked), QuietPhysics(schema);
    var call := AdvanceCall(p, w.slices, step, 0.0, [[]]);
    assert call(0) == Some(w.slices[0]);
    assert Advanced(w.slices, call) == w.slices;
    Gather.SameResults(1, call, w.slices);
    var load := LoadCall(p, w.slices);
    assert load(0) == Some([0.0, 0.0, 0.0]);
    Gather.SameResults(1, load, [[0.0, 0.0, 0.0]]);
  }

  lemma ZeroOnGrid()
    ensures Tick(0.0) == 0 && !TickMismatch(0.0)
  {
  }

  lemma QuietCorrection(hooked: bool, schema: Schema, w: World, step: int, f: Fault)
    requires |w.slices| == 1 && w.last + 1 == step && (f == NoFault || f == FinalizeFails)
    requires !schema.Foreign? && (hooked ==> step <= 0)
    ensures var (v, k) := FromLoads(QuietConfig(hooked), QuietPhysics(schema), w, step, 0.0, [[0.0, 0.0, 0.0]],
                                    Env(f, false));
      && k == (if f == NoFault then Done else NeedsRecovery)
      && v.slices == w.slices && |v.store| == |w.store| + 1 && v.store[..|w.store|] == w.store
      && v.store[|w.store|].slices == w.slices && v.store[|w.store|].step == step
      && (hooked ==> v.store[|w.store|].extension.Some? && v.store[|w.store|].extension.value.state.schema == schema)
  {
    hide Tick, TickMismatch;
    ZeroOnGrid();
  }

  /** One step of the quiet run. */
  lemma QuietStep(hooked: bool, schema: Schema, w: World, step: int, f: Fault)
    requires Ready(w, step, 0.0) && |w.slices| == 1 && (f == NoFault || f == FinalizeFails)
    requires !schema.Foreign? && (hooked ==> step <= 0)
    ensures var (v, k) := Step(QuietConfig(hooked), QuietPhysics(schema), w, step, 0.0, Env(f, false));
      && k == (if f == NoFault then Done else NeedsRecovery)
      && v.slices == w.slices && |v.store| == |w.store| + 1 && v.store[..|w.store|] == w.store
      && v.store[|w.store|].slices == w.slices && v.store[|w.store|].step == step
      && (hooked ==> v.store[|w.store|].extension.Some? && v.store[|w.store|].extension.value.state.schema == schema)
  {
    hide FromLoads, Exchanged, LoadsOf;
    QuietExchange(hooked, schema, w, step);
    QuietCorrection(hooked, schema, w.(phase := LoadsConsumed), step, f);
  }

  // ----- an older manifest is accepted

  const TWO_STEPS_THEN_RECOVERY: seq<Op> := [
    RunStep(0, 0.0, Env(NoFault, false)), RunStep(1, 0.0, Env(NoFault, false)),
      RunStep(2, 0.0, Env(FinalizeFails, false))]

  /**
   Two committed steps and a failed finalization reach a world whose recovery accepts the manifest
   of step 0, and the scheduler then goes on from step 0 although steps 1 and 2 are durable.
   */
  lemma OlderManifestIsAccepted()
    ensures var c, p := QuietConfig(false), QuietPhysics(Base);
      var w := Run(c, p, QuietStart(false), TWO_STEPS_THEN_RECOVERY);
      && Disciplined(c, p, QuietStart(false), TWO_STEPS_THEN_RECOVERY)
      && w.phase.RecoveryRequired? && w.last == 1 && |w.store| == 3
      && Recovered(c, w, 0, NoLoadFault).1 && !NewestKeepsUp(Recovered(c, w, 0, NoLoadFault).0)
  {
    hide Step, Recovered, Durable, NewestKeepsUp;
    var c, p := QuietConfig(false), QuietPhysics(Base);
    var ops := TWO_STEPS_THEN_RECOVERY;
    var w0 := QuietStart(false);
    FreshIsDurable(c, [[]], START);
    StepFacts(w0, 0, NoFault);
    var w1 := Step(c, p, w0, 0, 0.0, Env(NoFault, false)).0;
    StepFacts(w1, 1, NoFault);
    var w2 := Step(c, p, w1, 1, 0.0, Env(NoFault, false)).0;
    StepFacts(w2, 2, FinalizeFails);
    var w3 := Step(c, p, w2, 2, 0.0, Env(FinalizeFails, false)).0;
    assert w3.store[0] == w3.store[..|w2.store|][0] == w2.store[0] == w2.store[..|w1.store|][0] == w1.store[0];
    RunThree(c, p, w0, ops[0], ops[1], ops[2]);
    assert ops == [ops[0], ops[1], ops[2]];
    RecoveryAccepts(c, w3, 0);
    OlderRecoveryFallsBehind(c, START, w3, 0, NoLoadFault);
  }

  lemma StepFacts(w: World, step: nat, f: Fault)
    requires Ready(w, step, 0.0) && |w.slices| == 1 && (f == NoFault || f == FinalizeFails)
    requires Durable(QuietConfig(false), START, w)
    ensures var v := Step(QuietConfig(false), QuietPhysics(Base), w, step, 0.0, Env(f, false)).0;
      && Durable(QuietConfig(false), START, v)
      && |v.slices| == 1 && |v.store| == |w.store| + 1 && v.store[..|w.store|] == w.store
        && |v.store[|w.store|].slices| == 1
      && (f == NoFault ==> v.phase.Committed? && v.last == step)
      && (f == FinalizeFails ==> v.phase.RecoveryRequired? && v.last == w.last)
  {
    hide Step, Durable;
    var c, p := QuietConfig(false), QuietPhysics(Base);
    QuietStep(false, Base, w, step, f);
    StepOutcome(c, p, w, step, 0.0, Env(f, false));
    StepKeepsDurable(c, p, START, w, step, 0.0, Env(f, false));
  }

  lemma RunThree(c: Config, p: Physics, w: World, a: Op, b: Op, d: Op)
    requires a.RunStep? && b.RunStep? && d.RunStep?
    ensures Run(c, p, w, [a, b, d]) == After(c, p, After(c, p, After(c, p, w, a), b), d)
    ensures Disciplined(c, p, w, [a, b, d])
  {
    hide After;
    var u := After(c, p, w, a);
    var v := After(c, p, u, b);
    assert [a, b, d][1..] == [b, d] && [b, d][1..] == [d] && [d][1..] == [];
    assert Run(c, p, v, [d]) == After(c, p, v, d);
    assert Run(c, p, u, [b, d]) == Run(c, p, v, [d]);
    assert Disciplined(c, p, v, [d]);
    assert Disciplined(c, p, u, [b, d]);
  }

  // ----- a completed step that cannot restart

  /** A step whose stabilizer writes the time-consistent schema completes, and no restart accepts its manifest. */
  lemma TimeConsistentStepCannotRestart(slices: seq<Vec>, structure: StructureState, nextTime: real)
    requires |slices| == 1
    ensures var (v, k) := Step(QuietConfig(true), QuietPhysics(TimeConsistent), QuietStart(true), 0, 0.0,
                               Env(NoFault, false));
      && k.Done? && |v.store| == 1
      && !Restarted(QuietConfig(true), v.store, 0, NoLoadFault, slices, structure, nextTime).1
  {
    hide Step, Restarted, Tick;
    var c, p := QuietConfig(true), QuietPhysics(TimeConsistent);
    QuietStep(true, TimeConsistent, QuietStart(true), 0, NoFault);
    Restart.RestartRefines(c, p, QuietStart(true), Restart.Call(0, 0.0, Env(NoFault, false)), slices, structure,
                           nextTime, []);
  }
}
