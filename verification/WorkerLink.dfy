/**
 The two descriptions of the worker are one: what the adapter's log of served requests says is what the worker does
 with the frames the adapter writes, call by call.
 */
module WorkerLink {
  import opened Wrappers
  import opened Packing
  import opened KernelProtocol
  import opened RequestRoundTrip
  import opened KernelWorker
  import opened Adapter

  /** How the adapter makes a request of a call, under one run and case, and a state of the words of an answer. */
  datatype Wiring = Wiring(
    pipe: Pipe, latch: Latch, request: (int, Kinematics, Forces, int) -> Request, value: seq<int> -> seq<real>)

  datatype Call = Call(sequence: int, phase: Phase, state: Kinematics, force: Forces, step: int)

  function RequestOf(w: Wiring, call: Call): Request {
    w.request(call.sequence, call.state, call.force, call.step)
  }

  function StateOf(w: Wiring, q: seq<int>, qdot: seq<int>, qddot: seq<int>): Kinematics {
    Kinematics(w.value(q), w.value(qdot), w.value(qddot))
  }

  /** What the adapter makes of what came back: a state when the answer passes its checks, and otherwise a failure. */
  function Received(w: Wiring, call: Call, answer: Option<Exchange>): Option<Kinematics> {
    if answer.None? then None
    else
      var d := Decode(answer.value.answer);
      if d.Ok? && Validates(w.pipe.sha, w.pipe.close, RequestOf(w, call), d.value)
      then Some(StateOf(w, d.value.vectors[0], d.value.vectors[1], d.value.vectors[2]))
      else None
  }

  /** The call can be sent, and the adapter's kernel is the worker's kernel read through the wiring. */
  ghost predicate Carries(w: Wiring, c: Source, call: Call) {
    var r := RequestOf(w, call);
    var x := w.pipe.kernel(Filled(w.pipe.spacing, r));
    && r.sequence == call.sequence && Latch(r.run, r.case_) == w.latch && w.pipe.Sendable(r)
    && c.kernel(call.state, call.force, call.step)
       == (if w.pipe.Finishes(r) then Some(StateOf(w, x.value.q, x.value.qdot, x.value.qddot)) else None)
  }

  /** The log and the life of the adapter's worker are the last number and the exit of the frame loop. */
  ghost predicate Mirrors(w: Wiring, v: WorkerState, alive: bool, log: seq<Served>) {
    && (alive <==> v.exit.None?) && v.last == |log| < SEQUENCES
    && (v.latch.None? || v.latch.value == w.latch)
  }

  ghost function Wire(w: Wiring, v: WorkerState, call: Call): (WorkerState, Option<Exchange>) {
    Serve(w.pipe.sha, w.pipe.kernel, v, w.pipe.Frame(RequestOf(w, call)))
  }

  function Logged(c: Source, alive: bool, log: seq<Served>, call: Call): (bool, seq<Served>, Option<Kinematics>) {
    ServedBy(c, alive, log, call.sequence, call.phase, call.state, call.force, call.step)
  }

  /** A printed frame is parsed only under its own number. */
  lemma ParsedOnlyInTurn(p: Pipe, r: Request, expected: int, latch: Option<KernelProtocol.Latch>)
    ensures p.Sendable(r) ==>
      (Parse(p.sha, Print(p.sha, p.spacing, r), expected, latch).Ok? ==> r.sequence == expected)
  {
    hide Parse, Payload, Fitting, Fields, Size, Collides, CleanIds, LetThrough;
    if p.Sendable(r) && Parse(p.sha, Print(p.sha, p.spacing, r), expected, latch).Ok? {
      ParsedInTurn(p.sha, Print(p.sha, p.spacing, r), expected, latch);
      HeaderParses(p.sha, Filled(p.spacing, r));
      NumberOf(Parse(p.sha, Print(p.sha, p.spacing, r), expected, latch).value, Filled(p.spacing, r), expected, latch);
    }
  }

  lemma NumberOf(parsed: Request, q: Request, expected: int, latch: Option<KernelProtocol.Latch>)
    requires LetThrough(parsed, PrefixValues(q)[2], expected, latch)
    ensures q.sequence == expected
  {
  }

  lemma FrameIsServed(p: Pipe, v: WorkerState, r: Request)
    requires v.exit.None?
    ensures p.Sendable(r) ==>
      Serve(p.sha, p.kernel, v, p.Frame(r)) == Answer(p.sha, p.kernel, v, Print(p.sha, p.spacing, r))
  {
    hide Serve, Answer, Framed, Print, Complete, Size, FrameLength, Collides, CleanIds;
    if p.Sendable(r) {
      ServesStep(p.sha, p.kernel, v, Print(p.sha, p.spacing, r), []);
      assert p.Frame(r) + [] == p.Frame(r);
    }
  }

  lemma PrintDefined(p: Pipe, r: Request)
    ensures p.Sendable(r) ==> Complete(Filled(p.spacing, r)) && ValidIds(r) && CleanIds(r)
  {
    hide Complete;
  }

  /** The world in which a call meets the worker: alive, mirrored by its log, and with a request that can be sent. */
  ghost predicate Meets(w: Wiring, c: Source, v: WorkerState, log: seq<Served>, call: Call) {
    v.exit.None? && Mirrors(w, v, true, log) && Carries(w, c, call)
  }

  /** A frame out of turn ends the worker. */
  lemma OutOfTurn(w: Wiring, c: Source, v: WorkerState, log: seq<Served>, call: Call)
    requires call.sequence != |log| + 1
    ensures var (next, answer) := Wire(w, v, call);
      Meets(w, c, v, log, call) ==> next.exit.Some? && next == v.(exit := next.exit) && answer.None?
  {
    hide Parse, Serve, Print, Pipe.Sendable, Pipe.Finishes, Pipe.Frame, Answerable, AnswerFrame;
    if Meets(w, c, v, log, call) {
      var p, r, expected := w.pipe, RequestOf(w, call), (v.last + 1) % SEQUENCES;
      NumberFits(p, r);
      FrameIsServed(p, v, r);
      PrintDefined(p, r);
      ParsedOnlyInTurn(p, r, expected, v.latch);
    }
  }

  /** A request the kernel does not finish ends the worker. */
  lemma Unfinished(w: Wiring, c: Source, v: WorkerState, log: seq<Served>, call: Call)
    requires call.sequence == |log| + 1
    ensures var (next, answer) := Wire(w, v, call);
      Meets(w, c, v, log, call) && !w.pipe.Finishes(RequestOf(w, call)) ==>
        next.exit.Some? && next.last == v.last && next.latch == Some(w.latch) && answer.None?
  {
    hide Parse, Serve, Print, Framed, Complete, Collides, CleanIds, Pipe.Frame, OutputArrays, Finite, AnswerFrame;
    if Meets(w, c, v, log, call) {
      var p, r := w.pipe, RequestOf(w, call);
      NumberFits(p, r);
      RoundTrip(p.sha, p.sound, p.spacing, r, (v.last + 1) % SEQUENCES, v.latch);
      FrameIsServed(p, v, r);
    }
  }

  /** A request in turn that the kernel finishes is answered, and the adapter reads the kernel's state. */
  lemma Finished(w: Wiring, c: Source, v: WorkerState, log: seq<Served>, call: Call)
    requires call.sequence == |log| + 1
    ensures Meets(w, c, v, log, call) && w.pipe.Finishes(RequestOf(w, call)) ==>
      && Wire(w, v, call).0 == WorkerState(call.sequence, Some(w.latch), None) && call.sequence < SEQUENCES
      && Received(w, call, Wire(w, v, call).1) == c.kernel(call.state, call.force, call.step)
  {
    hide Serve, Framed, Complete, Decode, Validates, Pipe.Sendable, Pipe.Finishes, Pipe.Frame;
    if Meets(w, c, v, log, call) {
      var p, r := w.pipe, RequestOf(w, call);
      NumberFits(p, r);
      RequestIsAnswered(p, v, r, []);
      assert p.Frame(r) + [] == p.Frame(r);
    }
  }

  /** One call: the log says exactly what the frame loop does with the adapter's frame. */
  lemma ServedByIsServe(w: Wiring, c: Source, v: WorkerState, alive: bool, log: seq<Served>, call: Call)
    requires Mirrors(w, v, alive, log)
    ensures var (next, answer) := Wire(w, v, call);
      var (alive', log', result) := Logged(c, alive, log, call);
      Carries(w, c, call) ==> Mirrors(w, next, alive', log') && Received(w, call, answer) == result
  {
    hide Wire, Carries;
    KernelOf(w, c, call);
    if !alive {
      Silent(w, v, call);
    } else if call.sequence != |log| + 1 {
      OutOfTurn(w, c, v, log, call);
    } else {
      Finished(w, c, v, log, call);
      Unfinished(w, c, v, log, call);
    }
  }

  lemma Silent(w: Wiring, v: WorkerState, call: Call)
    requires v.exit.Some?
    ensures Wire(w, v, call) == (v, None)
  {
  }

  lemma KernelOf(w: Wiring, c: Source, call: Call)
    ensures Carries(w, c, call) ==>
      (c.kernel(call.state, call.force, call.step).Some? <==> w.pipe.Finishes(RequestOf(w, call)))
  {
  }

  // ----- whole runs

  ghost function WireAll(w: Wiring, v: WorkerState, calls: seq<Call>): (WorkerState, seq<Option<Kinematics>>)
    decreases |calls|
  {
    if calls == [] then (v, [])
    else
      var (next, answer) := Wire(w, v, calls[0]);
      var (end, rest) := WireAll(w, next, calls[1..]);
      (end, [Received(w, calls[0], answer)] + rest)
  }

  function LoggedAll(c: Source, alive: bool, log: seq<Served>, calls: seq<Call>):
    (bool, seq<Served>, seq<Option<Kinematics>>)
    decreases |calls|
  {
    if calls == [] then (alive, log, [])
    else
      var (alive', log', result) := Logged(c, alive, log, calls[0]);
      var (end, all, rest) := LoggedAll(c, alive', log', calls[1..]);
      (end, all, [result] + rest)
  }

  /** Over any sequence of calls, in order or not, the adapter's worker and the frame loop return the same states, die
      at the same call and serve the same numbers. */
  lemma {:induction false} LoggedAllIsWireAll(
    w: Wiring, c: Source, v: WorkerState, alive: bool, log: seq<Served>, calls: seq<Call>)
    requires Mirrors(w, v, alive, log) && forall i :: 0 <= i < |calls| ==> Carries(w, c, calls[i])
    ensures var (v', results) := WireAll(w, v, calls);
      var (alive', log', results') := LoggedAll(c, alive, log, calls);
      Mirrors(w, v', alive', log') && results == results'
    decreases |calls|
  {
    hide Carries, Wire, Logged, Received, Mirrors;
    if calls != [] {
      ServedByIsServe(w, c, v, alive, log, calls[0]);
      var (alive', log', result) := Logged(c, alive, log, calls[0]);
      LoggedAllIsWireAll(w, c, Wire(w, v, calls[0]).0, alive', log', calls[1..]);
    }
  }

  // ----- the adapter over the wire

  /** The request an operation makes of the worker, if it makes one. */
  function CallOf(c: Source, s: Session, op: Op): Option<Call> {
    match op
    case Predict(step, time, force) =>
      if !s.terminal && s.started && Identified(c, step, time) && s.pending.None? && ForceShape(force)
      then Some(Call(2 * (step - c.step) - 1, Prediction, s.committed, force, step)) else None
    case Correct(step, time, force) =>
      if !s.terminal && s.started && Identified(c, step, time) && Predicting(s, step, time) && ForceShape(force)
      then Some(Call(2 * (step - c.step), Correction, s.committed, force, step)) else None
    case _ => None
  }

  /** What the adapter makes of the worker's answer to its request. */
  function Answered(c: Source, s: Session, op: Op, answer: Option<Kinematics>): Session {
    match answer
    case None => s.(terminal := true)
    case Some(x) =>
      match op
      case Predict(step, time, force) =>
        s.(pending := Some(Pending(Prediction, step, time, Some(step - c.step), Some(x))))
      case Correct(step, time, force) =>
        if s.pending.None? then s
        else s.(state := x, pending := Some(s.pending.value.(phase := Correction, bridge := None, motion := None)))
      case _ => s
  }

  /** One operation of the adapter with the frame loop in place of its worker. */
  ghost function WiredAfter(w: Wiring, c: Source, s: Session, v: WorkerState, op: Op): (Session, WorkerState) {
    match CallOf(c, s, op)
    case None => (After(c, s, op), v)
    case Some(call) =>
      var (next, answer) := Wire(w, v, call);
      (Answered(c, s, op, Received(w, call, answer)), next)
  }

  ghost function WiredRun(w: Wiring, c: Source, s: Session, v: WorkerState, ops: seq<Op>): (Session, WorkerState)
    decreases |ops|
  {
    if ops == [] then (s, v)
    else
      var (t, u) := WiredAfter(w, c, s, v, ops[0]);
      WiredRun(w, c, t, u, ops[1..])
  }

  /** Every request of the run can be sent, and its kernel is the worker's. */
  ghost predicate Carried(w: Wiring, c: Source, s: Session, ops: seq<Op>)
    decreases |ops|
  {
    ops == []
    || ((CallOf(c, s, ops[0]).Some? ==> Carries(w, c, CallOf(c, s, ops[0]).value))
        && Carried(w, c, After(c, s, ops[0]), ops[1..]))
  }

  /** The adapter's own fields; life and log of the worker are the frame loop's business. */
  function Own(s: Session): Session {
    s.(alive := true, log := [])
  }

  /** An operation is its request, the worker's answer, and what the adapter makes of it. */
  lemma AfterIsAnswered(c: Source, s: Session, op: Op)
    ensures match CallOf(c, s, op)
      case None => After(c, s, op).alive == s.alive && After(c, s, op).log == s.log
      case Some(call) =>
        var (alive, log, result) := Logged(c, s.alive, s.log, call);
        After(c, s, op) == Answered(c, s, op, result).(alive := alive, log := log)
  {
    hide Identified, ForceShape, ServedBy;
  }

  /** Operations without a request do not look at the worker. */
  lemma OwnBusiness(c: Source, s: Session, t: Session, op: Op)
    requires Own(s) == Own(t)
    ensures CallOf(c, s, op) == CallOf(c, t, op)
    ensures CallOf(c, s, op).None? ==> Own(After(c, s, op)) == Own(After(c, t, op))
    ensures forall answer :: Own(Answered(c, s, op, answer)) == Own(Answered(c, t, op, answer))
  {
    hide Identified, ForceShape, ServedBy;
  }

  lemma StepIsWired(w: Wiring, c: Source, s: Session, t: Session, v: WorkerState, op: Op)
    requires Own(s) == Own(t) && Mirrors(w, v, s.alive, s.log)
    requires CallOf(c, s, op).Some? ==> Carries(w, c, CallOf(c, s, op).value)
    ensures var (t', v') := WiredAfter(w, c, t, v, op);
      Own(After(c, s, op)) == Own(t') && Mirrors(w, v', After(c, s, op).alive, After(c, s, op).log)
  {
    hide After, CallOf, Answered, Carries, Mirrors, Wire, Logged, Received;
    OwnBusiness(c, s, t, op);
    AfterIsAnswered(c, s, op);
    if CallOf(c, s, op).Some? {
      ServedByIsServe(w, c, v, s.alive, s.log, CallOf(c, s, op).value);
    }
  }

  /** Any run of the adapter over the frame loop leaves it in the state the run over its worker does, and the frame loop
      where the log of that worker says. */
  lemma {:induction false} RunIsWired(w: Wiring, c: Source, s: Session, t: Session, v: WorkerState, ops: seq<Op>)
    requires Own(s) == Own(t) && Mirrors(w, v, s.alive, s.log) && Carried(w, c, s, ops)
    ensures var (t', v') := WiredRun(w, c, t, v, ops);
      Own(Run(c, s, ops)) == Own(t') && Mirrors(w, v', Run(c, s, ops).alive, Run(c, s, ops).log)
    decreases |ops|
  {
    hide After, CallOf, Carries, Mirrors, WiredAfter, Own;
    if ops != [] {
      StepIsWired(w, c, s, t, v, ops[0]);
      var (t', v') := WiredAfter(w, c, t, v, ops[0]);
      RunIsWired(w, c, After(c, s, ops[0]), t', v', ops[1..]);
    }
  }
}
