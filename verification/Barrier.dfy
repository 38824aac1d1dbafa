/**
 The three-slice barrier of the confirm path: every slice is handed its motion, the step is held until all have
 answered, and committing it publishes a checkpoint file, runs the slices' finalizers and only then records the step.
 */
module Barrier {
  import opened Wrappers
  import Gather

  type Row = seq<real>
  type Motion = seq<real>
  type Motions = map<nat, Motion>

  const SLICES := 3

  /** The slices, each a function of its number and of every motion it has received, and the check of a step's time. */
  datatype Slices = Slices(advance: (nat, seq<Motion>) -> Option<Row>, identified: (int, real) -> bool)

  type Place = n: nat | n < SLICES

  /** An order in which the three slices complete. */
  type Order = order: seq<nat> | Complete(order) ghost witness [0, 1, 2]

  ghost predicate Complete(order: seq<nat>) {
    && |order| == SLICES && order[0] < SLICES && order[1] < SLICES && order[2] < SLICES
    && order[0] != order[1] && order[0] != order[2] && order[1] != order[2]
  }

  lemma CompleteIsCompletion(order: Order)
    ensures Gather.Completion(order, SLICES)
  {
    assert order == [order[0], order[1], order[2]];
  }

  /** The three calls run one after another, or at once and complete in some order. */
  datatype Schedule = InTurn | AtOnce(order: Order)

  /** How a commit ends: the file cannot be written, or the finalizer at place `at` raises. */
  datatype Fault = NoFault | WriteFails | FinalizerFails(at: Place)

  datatype Prepared = Prepared(step: int, order: Order)

  /** Besides the barrier's own fields: the checkpoint files on disk and the steps each slice has finalized. */
  datatype State = State(
    started: bool, failed: bool, prepared: Option<Prepared>, sent: seq<Motions>, records: seq<int>,
    published: seq<int>, finalized: seq<seq<int>>)

  const FRESH := State(true, false, None, [], [], [], [[], [], []])

  predicate OnePerSlice(motions: Motions) {
    motions.Keys == {0, 1, 2}
  }

  /** The motions slice `sid` has received. */
  function Heard(sent: seq<Motions>, sid: nat): (heard: seq<Motion>)
    ensures |heard| == |sent|
  {
    seq(|sent|, i requires 0 <= i < |sent| => if sid in sent[i] then sent[i][sid] else [])
  }

  function Call(c: Slices, sent: seq<Motions>): nat -> Option<Row> {
    (sid: nat) => c.advance(sid, Heard(sent, sid))
  }

  /** The rows of all slices, or nothing when one of them fails. */
  function Answers(c: Slices, sent: seq<Motions>): Option<seq<Row>> {
    Gather.Gathered(SLICES, Call(c, sent))
  }

  lemma {:induction false} GatheredAlike<T>(n: nat, f: nat -> Option<T>, g: nat -> Option<T>)
    requires forall sid: nat :: sid < n ==> f(sid) == g(sid)
    ensures Gather.Gathered(n, f) == Gather.Gathered(n, g)
  {
    if n > 0 {
      GatheredAlike(n - 1, f, g);
    }
  }

  lemma AnswersAlike(c: Slices, d: Slices, sent: seq<Motions>)
    requires forall sid, heard :: |heard| == |sent| ==> c.advance(sid, heard) == d.advance(sid, heard)
    ensures Answers(c, sent) == Answers(d, sent)
  {
    forall sid: nat
      ensures Call(c, sent)(sid) == Call(d, sent)(sid)
    {
      assert |Heard(sent, sid)| == |sent|;
    }
    GatheredAlike(SLICES, Call(c, sent), Call(d, sent));
  }

  // ----- the operations on states

  predicate Available(b: State) {
    b.started && !b.failed && b.prepared.None?
  }

  function AfterPrepare(c: Slices, b: State, step: int, time: real, motions: Motions, s: Schedule):
      (State, Option<seq<Row>>) {
    if !Available(b) then (b, None)
    else if !OnePerSlice(motions) then (b.(failed := true), None)
    else if !c.identified(step, time) then (b, None)
    else
      var sent := b.sent + [motions];
      match Answers(c, sent)
      case None => (b.(sent := sent, failed := true), None)
      case Some(rows) => (b.(sent := sent, prepared := Some(Prepared(step, OrderOf(s)))), Some(rows))
  }

  function OrderOf(s: Schedule): Order {
    match s
    case InTurn => [0, 1, 2]
    case AtOnce(order) => order
  }

  /** The finalizers of the first `n` slices of `order` have run. */
  function FinalizedBy(finalized: seq<seq<int>>, order: Order, n: nat, step: int): (f: seq<seq<int>>)
    requires n <= SLICES
    ensures |f| == |finalized|
  {
    seq(|finalized|, i requires 0 <= i < |finalized| =>
      if i in order[..n] then finalized[i] + [step] else finalized[i])
  }

  function AfterCommit(b: State, fault: Fault): State {
    if !b.started || b.failed || b.prepared.None? then b
    else
      var step, order := b.prepared.value.step, b.prepared.value.order;
      match fault
      case WriteFails => b.(failed := true)
      case FinalizerFails(at) =>
        b.(failed := true, published := b.published + [step], finalized := FinalizedBy(b.finalized, order, at, step))
      case NoFault =>
        b.(prepared := None, published := b.published + [step], records := b.records + [step],
           finalized := FinalizedBy(b.finalized, order, SLICES, step))
  }

  // ----- the object

  class SliceBarrier {
    const slices: Slices
    var started: bool
    var failed: bool
    var prepared: Option<Prepared>
    var sent: seq<Motions>
    var records: seq<int>
    var published: seq<int>
    var finalized: seq<seq<int>>

    ghost function View(): State
      reads this
    {
      State(started, failed, prepared, sent, records, published, finalized)
    }

    constructor (slices: Slices)
      ensures this.slices == slices && View() == FRESH
    {
      this.slices := slices;
      started, failed, prepared, sent, records, published := true, false, None, [], [], [];
      finalized := [[], [], []];
    }

    /** Hands every slice its motion and waits for all of them, at once or in turn; a failing slice ends the barrier. */
    method PrepareStep(step: int, time: real, motions: Motions, s: Schedule) returns (raw: Option<seq<Row>>)
      requires Consistent(View())
      modifies this
      ensures (View(), raw) == AfterPrepare(slices, old(View()), step, time, motions, s) && Consistent(View())
    {
      PrepareKeepsConsistent(slices, View(), step, time, motions, s);
      if !started || failed || prepared.Some? {
        return None;
      }
      if motions.Keys != {0, 1, 2} {
        failed := true;
        return None;
      }
      if !slices.identified(step, time) {
        return None;
      }
      sent := sent + [motions];
      match s {
        case InTurn => raw := Gather.SequentialMap(SLICES, Call(slices, sent));
        case AtOnce(order) =>
          CompleteIsCompletion(order);
          raw := Gather.ParallelMap(SLICES, Call(slices, sent), order);
      }
      if raw.None? {
        failed := true;
      } else {
        prepared := Some(Prepared(step, OrderOf(s)));
      }
    }

    /** Publishes the checkpoint, runs the finalizers in the order the slices answered, and records the step last. */
    method CommitPrepared(fault: Fault) returns (ok: bool)
      requires Consistent(View())
      modifies this
      ensures View() == AfterCommit(old(View()), fault) && Consistent(View())
      ensures ok <==> old(started) && !old(failed) && old(prepared).Some? && fault.NoFault?
    {
      CommitKeepsConsistent(View(), fault);
      if !started || failed || prepared.None? {
        return false;
      }
      if fault.WriteFails? {
        failed := true;
        return false;
      }
      var step, order := prepared.value.step, prepared.value.order;
      published := published + [step];
      ghost var before := finalized;
      for n: nat := 0 to SLICES
        invariant View() == old(View()).(published := old(published) + [step],
                                         finalized := FinalizedBy(before, order, n, step))
        invariant fault.FinalizerFails? ==> n <= fault.at
      {
        if fault == FinalizerFails(n) {
          failed := true;
          return false;
        }
        OneMoreFinalized(before, order, n, step);
        finalized := finalized[order[n] := finalized[order[n]] + [step]];
      }
      records := records + [step];
      prepared := None;
      return true;
    }
  }

  lemma OneMoreFinalized(before: seq<seq<int>>, order: Order, n: nat, step: int)
    requires n < SLICES && |before| == SLICES
    ensures order[n] < SLICES
    ensures var f := FinalizedBy(before, order, n, step);
      FinalizedBy(before, order, n + 1, step) == f[order[n] := f[order[n]] + [step]]
  {
    CompleteIsCompletion(order);
    assert order[..n + 1] == order[..n] + [order[n]];
  }

  // ----- what every operation keeps

  /** The files on disk are the records, or go one step beyond them behind a failed commit; a slice has finalized the
      steps on record or all those on disk, and every record stands on disk and is finalized everywhere. */
  ghost predicate Consistent(b: State) {
    && |b.finalized| == SLICES
    && (b.published == b.records
        || (b.failed && b.prepared.Some? && b.published == b.records + [b.prepared.value.step]))
    && forall sid :: 0 <= sid < SLICES ==> b.finalized[sid] == b.records || b.finalized[sid] == b.published
  }

  lemma PrepareKeepsConsistent(c: Slices, b: State, step: int, time: real, motions: Motions, s: Schedule)
    requires Consistent(b)
    ensures Consistent(AfterPrepare(c, b, step, time, motions, s).0)
  {
  }

  lemma CommitKeepsConsistent(b: State, fault: Fault)
    requires Consistent(b)
    ensures Consistent(AfterCommit(b, fault))
  {
    if b.prepared.Some? {
      var order := b.prepared.value.order;
      CompleteIsCompletion(order);
      assert order[..SLICES] == order;
    }
  }

  // ----- runs

  datatype Op =
    | Prepare(step: int, time: real, motions: Motions, schedule: Schedule)
    | Commit(fault: Fault)
    | Stop

  ghost function After(c: Slices, b: State, op: Op): (t: State)
    requires Consistent(b)
    ensures Consistent(t)
  {
    match op
    case Prepare(step, time, motions, s) =>
      PrepareKeepsConsistent(c, b, step, time, motions, s);
      AfterPrepare(c, b, step, time, motions, s).0
    case Commit(fault) =>
      CommitKeepsConsistent(b, fault);
      AfterCommit(b, fault)
    case Stop => b.(started := false)
  }

  ghost function Run(c: Slices, b: State, ops: seq<Op>): (t: State)
    requires Consistent(b)
    ensures Consistent(t)
    decreases |ops|
  {
    if ops == [] then b else Run(c, After(c, b, ops[0]), ops[1..])
  }

  /** The commits of a run that fail in a finalizer while a step is prepared. */
  ghost predicate Raised(b: State, op: Op) {
    op.Commit? && op.fault.FinalizerFails? && b.started && !b.failed && b.prepared.Some?
  }

  ghost predicate EverRaised(c: Slices, b: State, ops: seq<Op>)
    requires Consistent(b)
    decreases |ops|
  {
    ops != [] && (Raised(b, ops[0]) || EverRaised(c, After(c, b, ops[0]), ops[1..]))
  }

  /** Over any run a checkpoint stands on disk that is not on record exactly when a finalizer has failed behind it; the
      barrier is then over. */
  lemma {:induction false} AheadIffRaised(c: Slices, b: State, ops: seq<Op>)
    requires Consistent(b) && b.published == b.records
    ensures var t := Run(c, b, ops);
      && (t.published != t.records <==> EverRaised(c, b, ops))
      && (t.published != t.records ==>
          t.failed && t.prepared.Some? && t.published == t.records + [t.prepared.value.step])
    decreases |ops|
  {
    hide Answers, OnePerSlice, FinalizedBy;
    if ops != [] {
      var t := After(c, b, ops[0]);
      if Raised(b, ops[0]) {
        assert t.failed && t.published == b.records + [b.prepared.value.step];
        OverForGood(c, t, ops[1..]);
      } else {
        AheadIffRaised(c, t, ops[1..]);
      }
    }
  }

  /** A failed barrier keeps its files, its records and its finalizations. */
  lemma {:induction false} OverForGood(c: Slices, b: State, ops: seq<Op>)
    requires Consistent(b) && b.failed
    ensures Run(c, b, ops) == b.(started := Run(c, b, ops).started)
    decreases |ops|
  {
    if ops != [] {
      OverForGood(c, After(c, b, ops[0]), ops[1..]);
    }
  }

  /** A fresh barrier whose three slices answer, and the first finalizer fails: the step stands on disk, marked as
      committed, and is neither recorded nor finalized by any slice. */
  lemma FinalizerFailureLeavesFile(c: Slices, step: int, time: real, motions: Motions, s: Schedule)
    requires OnePerSlice(motions) && c.identified(step, time) && Answers(c, [motions]).Some?
    ensures var t := Run(c, FRESH, [Prepare(step, time, motions, s), Commit(FinalizerFails(0))]);
      t.failed && t.published == [step] && t.records == [] && t.finalized == [[], [], []]
  {
    hide Answers, OnePerSlice;
    var ops := [Prepare(step, time, motions, s), Commit(FinalizerFails(0))];
    assert [] + [motions] == [motions];
    var held := After(c, FRESH, ops[0]);
    assert held.prepared == Some(Prepared(step, OrderOf(s)));
    var over := After(c, held, ops[1]);
    assert FinalizedBy(FRESH.finalized, OrderOf(s), 0, step) == [[], [], []];
    assert ops[1..] == [ops[1]] && ops[1..][1..] == [];
    assert Run(c, held, ops[1..]) == over;
  }

  // ----- the operations in the calls they make

  /** The motions that slice `sid` has been handed, one for each step. */
  ghost predicate Hears(heard: seq<Motion>, sent: seq<Motions>, sid: nat) {
    |heard| == |sent| && forall i :: 0 <= i < |sent| ==> sid in sent[i] && heard[i] == sent[i][sid]
  }

  lemma HearsIs(heard: seq<Motion>, sent: seq<Motions>, sid: nat)
    requires Hears(heard, sent, sid)
    ensures heard == Heard(sent, sid)
  {
  }

  /** A step with a motion for each of the three slices: every slice is advanced by the motions it has been handed
      itself, and the step is held with their three rows, or the barrier has failed. */
  lemma PreparedInFull(c: Slices, b: State, step: int, time: real, motions: Motions, s: Schedule,
                       first: seq<Motion>, second: seq<Motion>, third: seq<Motion>)
    requires b.started && !b.failed && b.prepared == None && motions.Keys == {0, 1, 2} && c.identified(step, time)
    requires Hears(first, b.sent + [motions], 0) && Hears(second, b.sent + [motions], 1)
    requires Hears(third, b.sent + [motions], 2)
    ensures var x, y, z := c.advance(0, first), c.advance(1, second), c.advance(2, third);
      var sent := b.(sent := b.sent + [motions]);
      AfterPrepare(c, b, step, time, motions, s)
      == if x.Some? && y.Some? && z.Some? then
           var order := match s case InTurn => [0, 1, 2] case AtOnce(order) => order;
           (sent.(prepared := Some(Prepared(step, order))), Some([x.value, y.value, z.value]))
         else (sent.(failed := true), None)
  {
    var sent := b.sent + [motions];
    HearsIs(first, sent, 0);
    HearsIs(second, sent, 1);
    HearsIs(third, sent, 2);
    hide Heard, Hears;
    var call := Call(c, sent);
    assert call(0) == c.advance(0, first) && call(1) == c.advance(1, second) && call(2) == c.advance(2, third);
    var rows := Answers(c, sent);
    if rows.Some? {
      assert rows.value == [rows.value[0], rows.value[1], rows.value[2]];
    }
  }

  /** Every other call of a step changes nothing, but for the failure that a wrong set of motions brings about. */
  lemma RefusedInFull(c: Slices, b: State, step: int, time: real, motions: Motions, s: Schedule)
    ensures !b.started || b.failed || b.prepared.Some? ==> AfterPrepare(c, b, step, time, motions, s) == (b, None)
    ensures b.started && !b.failed && b.prepared == None ==>
      && (motions.Keys != {0, 1, 2} ==> AfterPrepare(c, b, step, time, motions, s) == (b.(failed := true), None))
      && (motions.Keys == {0, 1, 2} && !c.identified(step, time) ==>
            AfterPrepare(c, b, step, time, motions, s) == (b, None))
  {
  }

  /** What a commit leaves on disk, on record and with each of the three slices. */
  lemma CommittedInFull(b: State, fault: Fault, first: seq<int>, second: seq<int>, third: seq<int>)
    requires b.started && !b.failed && b.prepared.Some? && b.finalized == [first, second, third]
    ensures var step, order, t := b.prepared.value.step, b.prepared.value.order, AfterCommit(b, fault);
      match fault
      case WriteFails => t == b.(failed := true)
      case NoFault =>
        t == b.(prepared := None, published := b.published + [step], records := b.records + [step],
                finalized := [first + [step], second + [step], third + [step]])
      case FinalizerFails(at) =>
        && t == b.(failed := true, published := b.published + [step], finalized := t.finalized)
        && |t.finalized| == 3
        && forall i: nat, sid: nat :: i < 3 && sid == order[i] ==>
          t.finalized[sid] == if i < at then b.finalized[sid] + [step] else b.finalized[sid]
  {
    var order := b.prepared.value.order;
    CompleteIsCompletion(order);
    assert order[..3] == order && order == [order[0], order[1], order[2]];
    match fault
    case WriteFails =>
    case NoFault =>
    case FinalizerFails(at) =>
      assert forall i: nat :: i < 3 ==> (order[i] in order[..at] <==> i < at);
  }

  /** A stopped barrier is over for good. */
  lemma {:induction false} StoppedForGood(c: Slices, b: State, ops: seq<Op>)
    requires Consistent(b) && !b.started
    ensures Run(c, b, ops) == b
    ensures After(c, b, Stop) == b && !After(c, b.(started := true), Stop).started
    decreases |ops|
  {
    hide Answers, OnePerSlice;
    if ops != [] {
      StoppedForGood(c, b, ops[1..]);
    }
  }
}
