/**
 The worker's side of the step protocol and the client's reading of its answer: the response
 printer, the frame loop with its sequence and identity latch, the response decoder, and the
 validation of a response against its request.
 */
module KernelWorker {
  import opened Wrappers
  import opened Packing
  import opened KernelProtocol
  import opened RequestRoundTrip

  const MAGIC := 0x3146_434E_4144_4643
  const SHUTDOWN := 3
  const INITIALIZE := 4
  const STEP_REQUEST := 5
  const STEP_RESPONSE := 6
  const SEQUENCES := 0x1_0000_0000

  const FRAME: seq<Kind> := [W8, U4, U4]
  const RESPONSE: seq<Kind> := [U4, U4, U4, I4, I4, W8, W8, I4, I4, I4, W8, W8, W8, U4]
  const TRAILER: seq<Kind> := [W8, W8, W8, U4]

  function Framed(message: int, payload: Bytes): Bytes
    requires Fits(U4, message) && Fits(U4, |payload|)
  {
    Pack(FRAME, [MAGIC, |payload|, message]) + payload
  }

  // ----- the response printer

  /** What the kernel returns for an accepted request; the corrector is the new q. */
  datatype Output = Output(
    q: seq<int>, qdot: seq<int>, qddot: seq<int>, internal: seq<int>, generalized: seq<int>, predictor: seq<int>,
    residual: int, iterations: int)

  function OutputArrays(x: Output): seq<int> {
    x.q + x.qdot + x.qddot + x.internal + x.generalized + x.generalized + x.predictor + x.q
  }

  predicate ValidOutput(x: Output, n: int) {
    && |x.q| == |x.qdot| == |x.qddot| == |x.internal| == |x.generalized| == |x.predictor| == n
    && Words(OutputArrays(x)) && Fits(W8, x.residual) && Fits(I4, x.iterations)
  }

  /** The size_t step of the advanced state: one less than the request's, then one more, modulo 2^64. */
  function CheckpointStep(globalStep: int): int {
    ((globalStep - 1) % 0x1_0000_0000_0000_0000 + 1) % 0x1_0000_0000_0000_0000
  }

  function ResponseValues(r: Request, x: Output): seq<int> {
    [SCHEMA, PROTOCOL, r.sequence, r.globalStep, r.bridgeStep, r.tick, r.time, r.Dof(), 0, x.iterations, x.residual,
     r.transactionId, r.requestId, 1]
  }

  function TrailerValues(r: Request): seq<int> {
    [CheckpointStep(r.globalStep), r.time, r.tick, 1]
  }

  predicate Printable(r: Request, raw: RawIds, x: Output) {
    && raw.Sized() && raw.Of(r) && ValidOutput(x, r.Dof())
    && AllFit(RESPONSE, ResponseValues(r, x)) && AllFit(TRAILER, TrailerValues(r))
  }

  /** Producer and consumer change places on the way back. */
  function Returned(raw: RawIds): RawIds {
    RawIds(raw.run, raw.case_, raw.consumer, raw.producer)
  }

  /** The answer echoes the ids with producer and consumer exchanged. */
  function ResponsePayload(sha: Bytes -> Bytes, r: Request, raw: RawIds, x: Output): Bytes
    requires Printable(r, raw, x)
  {
    var arrays := PackWords(OutputArrays(x));
    Pack(RESPONSE, ResponseValues(r, x))
    + (Returned(raw).Joined() + (sha(arrays) + (arrays + Pack(TRAILER, TrailerValues(r)))))
  }

  // ----- the response decoder

  datatype Response = Response(
    sequence: int, globalStep: int, bridgeStep: int, tick: int, time: int, code: int, iterations: int, residual: int,
    digest: Bytes, transactionId: int, requestId: int, ack: int,
    run: Bytes, case_: Bytes, producer: Bytes, consumer: Bytes, vectors: seq<seq<int>>,
    checkpointStep: int, checkpointTime: int, checkpointTick: int, audited: bool)

  datatype FrameError = Truncated | BadHeader | BadSchema | BadLength | NotFinite

  /** Eight vectors of `n` words each. */
  function Vectors(values: seq<int>, n: nat): (v: seq<seq<int>>)
    requires |values| == 8 * n
    ensures |v| == 8
  {
    [values[..n], values[n..2 * n], values[2 * n..3 * n], values[3 * n..4 * n],
     values[4 * n..5 * n], values[5 * n..6 * n], values[6 * n..7 * n], values[7 * n..]]
  }

  /** The record of the prefix `v`, the ids, the digest, the arrays and the trailer `t` of an answer. */
  function Collected(v: seq<int>, ids: RawIds, digest: Bytes, values: seq<int>, t: seq<int>): Response
    requires |v| == 14 && |t| == 4 && v[7] > 0 && |values| == 8 * v[7]
  {
    Response(
      v[2], v[3], v[4], v[5], v[6], v[8], v[9], v[10], digest, v[11], v[12], v[13],
      StringValue(ids.run), StringValue(ids.case_), StringValue(ids.producer), StringValue(ids.consumer),
      Vectors(values, v[7]), t[0], t[1], t[2], t[3] != 0)
  }

  function DecodeBody(s: Bytes): Result<Response, FrameError> {
    var ids := Size(RESPONSE);
    var arrays := ids + IDS + DIGEST;
    if |s| < arrays then Err(Truncated)
    else
      var v := Fields(RESPONSE, s, 0);
      if v[0] != SCHEMA || v[1] != PROTOCOL || v[7] <= 0 then Err(BadSchema)
      else
        var trailer := arrays + Size(Repeat(W8, 8 * v[7]));
        if |s| != trailer + Size(TRAILER) then Err(BadLength)
        else
          var values := Fields(Repeat(W8, 8 * v[7]), s, arrays);
          if !AllFinite(values) || !Finite(v[6]) || !Finite(v[10]) then Err(NotFinite)
          else Ok(Collected(v, IdsAt(s, ids), s[ids + IDS..arrays], values, Fields(TRAILER, s, trailer)))
  }

  function Decode(frame: Bytes): Result<Response, FrameError> {
    if |frame| < Size(FRAME) then Err(Truncated)
    else
      var h := Fields(FRAME, frame, 0);
      if h[0] != MAGIC || h[2] != STEP_RESPONSE || h[1] != |frame| - Size(FRAME) then Err(BadHeader)
      else DecodeBody(frame[Size(FRAME)..])
  }

  method DecodeResponse(frame: Bytes) returns (r: Result<Response, FrameError>)
    ensures r == Decode(frame)
  {
    hide Fields, Size, DecodeBody;
    var h, start := TakeAll(FRAME, frame, 0);
    if h.None? {
      return Err(Truncated);
    }
    if h.value[0] != MAGIC || h.value[2] != STEP_RESPONSE || h.value[1] != |frame| - start {
      return Err(BadHeader);
    }
    r := DecodeVectors(frame[start..]);
  }

  method DecodeVectors(s: Bytes) returns (r: Result<Response, FrameError>)
    ensures r == DecodeBody(s)
  {
    hide Fields, Size, Finite, Collected;
    var prefix, ids := TakeAll(RESPONSE, s, 0);
    if prefix.None? || ids + IDS + DIGEST > |s| {
      return Err(Truncated);
    }
    var v := prefix.value;
    if v[0] != SCHEMA || v[1] != PROTOCOL || v[7] <= 0 {
      return Err(BadSchema);
    }
    var arrays := ids + IDS + DIGEST;
    var values, trailer := TakeAll(Repeat(W8, 8 * v[7]), s, arrays);
    if values.None? {
      return Err(BadLength);
    }
    var t, end := TakeAll(TRAILER, s, trailer);
    if t.None? || end != |s| {
      return Err(BadLength);
    }
    if !AllFinite(values.value) || !Finite(v[6]) || !Finite(v[10]) {
      return Err(NotFinite);
    }
    return Ok(Collected(v, IdsAt(s, ids), s[ids + IDS..arrays], values.value, t.value));
  }

  function Joined(vectors: seq<seq<int>>): seq<int>
    requires |vectors| == 8
  {
    vectors[0] + vectors[1] + vectors[2] + vectors[3] + vectors[4] + vectors[5] + vectors[6] + vectors[7]
  }

  /** The client's acceptance of a response; `close` compares two times as doubles. */
  predicate Validates(sha: Bytes -> Bytes, close: (int, int) -> bool, r: Request, x: Response)
  {
    && |x.vectors| == 8
    && x.sequence == r.sequence && x.globalStep == r.globalStep && x.bridgeStep == r.bridgeStep && x.tick == r.tick
    && close(x.time, r.time)
    && x.transactionId == r.transactionId && x.requestId == r.requestId && x.ack == 1
    && x.run == r.run && x.case_ == r.case_ && x.producer == r.consumer && x.consumer == r.producer
    && x.code == 0 && x.audited && x.checkpointStep == r.globalStep && x.checkpointTick == r.tick
    && Words(Joined(x.vectors)) && x.digest == sha(PackWords(Joined(x.vectors)))
  }

  // ----- the response round trip

  lemma JoinVectors(values: seq<int>, n: nat)
    requires |values| == 8 * n
    ensures Joined(Vectors(values, n)) == values
  {
  }

  datatype Places = Places(ids: nat, digest: nat, arrays: nat, trailer: nat)

  function PlacesOf(n: nat): Places {
    var ids := Size(RESPONSE);
    Places(ids, ids + IDS, ids + IDS + DIGEST, ids + IDS + DIGEST + Size(Repeat(W8, 8 * n)))
  }

  ghost predicate ResponseParts(sha: Bytes -> Bytes, s: Bytes, r: Request, raw: RawIds, x: Output)
    requires Printable(r, raw, x) && r.Dof() > 0
  {
    var l, arrays := PlacesOf(r.Dof()), PackWords(OutputArrays(x));
    && Holds(s, 0, Pack(RESPONSE, ResponseValues(r, x))) && Holds(s, l.ids, Returned(raw).Joined())
    && Holds(s, l.digest, sha(arrays)) && Holds(s, l.arrays, arrays) && |arrays| == Size(Repeat(W8, 8 * r.Dof()))
    && Holds(s, l.trailer, Pack(TRAILER, TrailerValues(r))) && |s| == l.trailer + Size(TRAILER)
  }

  lemma ResponsePartsHold(sha: Bytes -> Bytes, r: Request, raw: RawIds, x: Output)
    requires IsDigest(sha) && Printable(r, raw, x) && r.Dof() > 0
    ensures ResponseParts(sha, ResponsePayload(sha, r, raw, x), r, raw, x)
  {
    hide Pack, PackWords, Size, Holds, AllFit, Words, OutputArrays, Returned, RawIds.Joined, RawIds.Of, ResponseValues,
         TrailerValues;
    OutputLength(x, r.Dof());
    var s, arrays := ResponsePayload(sha, r, raw, x), PackWords(OutputArrays(x));
    assert Words(OutputArrays(x)) && |sha(arrays)| == DIGEST;
    var p, i, t := Pack(RESPONSE, ResponseValues(r, x)), Returned(raw).Joined(), Pack(TRAILER, TrailerValues(r));
    SizedBack(raw);
    FourParts(s, p, i, sha(arrays), arrays, t);
  }

  lemma FourParts(s: Bytes, p: Bytes, i: Bytes, d: Bytes, a: Bytes, t: Bytes)
    requires s == p + (i + (d + (a + t)))
    ensures Holds(s, 0, p) && Holds(s, |p|, i) && Holds(s, |p| + |i|, d) && Holds(s, |p| + |i| + |d|, a)
    ensures Holds(s, |p| + |i| + |d| + |a|, t) && |s| == |p| + |i| + |d| + |a| + |t|
  {
    hide Holds;
    Whole(s);
    HoldsParts(s, 0, p, i + (d + (a + t)));
    HoldsParts(s, |p|, i, d + (a + t));
    HoldsParts(s, |p| + |i|, d, a + t);
    HoldsParts(s, |p| + |i| + |d|, a, t);
  }

  /** The decoded answer is accepted for its request and carries the kernel's result. */
  ghost predicate Accepted(sha: Bytes -> Bytes, close: (int, int) -> bool, r: Request, x: Output, d: Result<Response,
      FrameError>) {
    && d.Ok? && Validates(sha, close, r, d.value)
    && d.value.vectors == [x.q, x.qdot, x.qddot, x.internal, x.generalized, x.generalized, x.predictor, x.q]
    && d.value.iterations == x.iterations && d.value.residual == x.residual
  }

  /** Every response the worker writes for a printed request decodes to a record the client accepts. */
  lemma ResponseAccepted(sha: Bytes -> Bytes, close: (int, int) -> bool, r: Request, raw: RawIds, x: Output)
    requires IsDigest(sha) && Printable(r, raw, x) && r.Dof() > 0
    requires AllFinite(OutputArrays(x)) && Finite(x.residual) && Finite(r.time)
    requires r.globalStep >= 0 && close(r.time, r.time)
    ensures Fits(U4, |ResponsePayload(sha, r, raw, x)|) ==>
      Accepted(sha, close, r, x, Decode(Framed(STEP_RESPONSE, ResponsePayload(sha, r, raw, x))))
  {
    hide ResponsePayload, Fields, Size, DecodeBody, Validates, Holds, Printable;
    var s := ResponsePayload(sha, r, raw, x);
    if Fits(U4, |s|) {
      FrameHolds(STEP_RESPONSE, s, []);
      var f := Framed(STEP_RESPONSE, s);
      assert f + [] == f && f[Size(FRAME)..] == f[Size(FRAME)..Size(FRAME) + |s|];
    }
    BodyAccepted(sha, close, r, raw, x);
  }

  lemma FrameHolds(message: int, s: Bytes, rest: Bytes)
    requires Fits(U4, message) && Fits(U4, |s|)
    ensures var f := Framed(message, s) + rest;
      && |f| == Size(FRAME) + |s| + |rest| && Fields(FRAME, f, 0) == [MAGIC, |s|, message]
      && f[Size(FRAME)..Size(FRAME) + |s|] == s && f[Size(FRAME) + |s|..] == rest
  {
    hide Pack, Fields, Size;
    var f, h := Framed(message, s) + rest, Pack(FRAME, [MAGIC, |s|, message]);
    Whole(f);
    assert f == h + (s + rest);
    HoldsParts(f, 0, h, s + rest);
    FieldsOfPacked(FRAME, [MAGIC, |s|, message], f, 0);
  }

  /** The record put together from the fields the worker printed. */
  ghost predicate ReadBack(sha: Bytes -> Bytes, r: Request, raw: RawIds, x: Output, d: Result<Response, FrameError>) {
    var values := OutputArrays(x);
    && r.Dof() > 0 && |values| == 8 * r.Dof() && Words(values)
    && d == Ok(Collected(ResponseValues(r, x), Returned(raw), sha(PackWords(values)), values, TrailerValues(r)))
  }

  /** Every check the decoder makes on a printed answer succeeds, on the fields that were printed. */
  lemma BodyDecodes(sha: Bytes -> Bytes, r: Request, raw: RawIds, x: Output)
    requires IsDigest(sha) && Printable(r, raw, x) && r.Dof() > 0
    requires AllFinite(OutputArrays(x)) && Finite(x.residual) && Finite(r.time)
    ensures ReadBack(sha, r, raw, x, DecodeBody(ResponsePayload(sha, r, raw, x)))
  {
    hide ResponsePayload, Fields, Size, Pack, PackWords, OutputArrays, Finite, Collected, Returned, RawIds.Joined,
         RawIds.Of, IdsAt, Words, AllFit;
    var s, l, values := ResponsePayload(sha, r, raw, x), PlacesOf(r.Dof()), OutputArrays(x);
    ResponsePartsHold(sha, r, raw, x);
    FieldsOfPacked(RESPONSE, ResponseValues(r, x), s, 0);
    FieldsOfPacked(TRAILER, TrailerValues(r), s, l.trailer);
    OutputLength(x, r.Dof());
    ArraysAt(s, l.arrays, values);
    SizedBack(raw);
    IdsOfJoined(Returned(raw), s, l.ids);
  }

  lemma SizedBack(raw: RawIds)
    requires raw.Sized()
    ensures Returned(raw).Sized()
  {
  }

  lemma BodyAccepted(sha: Bytes -> Bytes, close: (int, int) -> bool, r: Request, raw: RawIds, x: Output)
    requires IsDigest(sha) && Printable(r, raw, x) && r.Dof() > 0
    requires AllFinite(OutputArrays(x)) && Finite(x.residual) && Finite(r.time)
    requires r.globalStep >= 0 && close(r.time, r.time)
    ensures Accepted(sha, close, r, x, DecodeBody(ResponsePayload(sha, r, raw, x)))
  {
    hide ResponsePayload, DecodeBody, Pack, PackWords, OutputArrays, StringValue, Finite, Vectors, Joined, Words;
    BodyDecodes(sha, r, raw, x);
    JoinVectors(OutputArrays(x), r.Dof());
    OutputVectors(x, r.Dof());
    assert Fits(RESPONSE[3], ResponseValues(r, x)[3]);
    StepComesBack(r.globalStep);
  }

  lemma ArraysAt(s: Bytes, at: nat, values: seq<int>)
    requires Words(values) && Holds(s, at, PackWords(values)) && |PackWords(values)| == Size(Repeat(W8, |values|))
    ensures Fields(Repeat(W8, |values|), s, at) == values
  {
    hide Fields, Pack, Size;
    FieldsOfPacked(Repeat(W8, |values|), values, s, at);
  }

  lemma StepComesBack(globalStep: int)
    requires 0 <= globalStep && Fits(I4, globalStep)
    ensures CheckpointStep(globalStep) == globalStep
  {
    if globalStep > 0 {
      assert (globalStep - 1) % 0x1_0000_0000_0000_0000 == globalStep - 1;
    }
  }

  lemma OutputLength(x: Output, n: nat)
    requires ValidOutput(x, n)
    ensures |OutputArrays(x)| == 8 * n
  {
  }

  lemma OutputVectors(x: Output, n: nat)
    requires ValidOutput(x, n)
    ensures |OutputArrays(x)| == 8 * n
    ensures Vectors(OutputArrays(x), n)
      == [x.q, x.qdot, x.qddot, x.internal, x.generalized, x.generalized, x.predictor, x.q]
  {
    var a := OutputArrays(x);
    assert a[..n] == x.q && a[n..2 * n] == x.qdot && a[2 * n..3 * n] == x.qddot && a[3 * n..4 * n] == x.internal;
    assert a[4 * n..5 * n] == x.generalized && a[5 * n..6 * n] == x.generalized;
    assert a[6 * n..7 * n] == x.predictor && a[7 * n..] == x.q;
  }

  // ----- the frame loop

  /** `exit` is the code with which the process ended; the loop goes on while there is none. */
  datatype WorkerState = WorkerState(last: int, latch: Option<Latch>, exit: Option<nat>)

  predicate Answerable(r: Request, x: Output) {
    && ValidIds(r)
    && Printable(r, PaddedIds(r), x) && AllFinite(OutputArrays(x)) && Finite(x.residual)
  }

  /** A request that was answered, and the frame that was written. */
  datatype Exchange = Exchange(request: Request, answer: Bytes)

  /** The frame of an answer, unless its length does not fit the header. */
  function AnswerFrame(sha: Bytes -> Bytes, r: Request, x: Output): Option<Bytes>
    requires Answerable(r, x)
  {
    var body := ResponsePayload(sha, r, PaddedIds(r), x);
    if |body| >= SEQUENCES then None else Some(Framed(STEP_RESPONSE, body))
  }

  /** The answer to one step payload; a kernel that throws or returns a non-finite result ends the process. */
  function Answer(sha: Bytes -> Bytes, kernel: Request -> Result<Output, nat>, w: WorkerState, payload: Bytes):
    (WorkerState, Option<Exchange>)
  {
    match Parse(sha, payload, (w.last + 1) % SEQUENCES, w.latch)
    case Err(code) => (w.(exit := Some(code)), None)
    case Ok(r) =>
      var latched := w.(latch := Some(Latch(r.run, r.case_)));
      match kernel(r)
      case Err(code) => (latched.(exit := Some(code)), None)
      case Ok(x) =>
        if !Answerable(r, x) then (latched.(exit := Some(10)), None)
        else
          match AnswerFrame(sha, r, x)
          case None => (latched.(exit := Some(10)), None)
          case Some(frame) => (latched.(last := (w.last + 1) % SEQUENCES), Some(Exchange(r, frame)))
  }

  /** One turn of the loop over the bytes that stand in the input. */
  function Serve(sha: Bytes -> Bytes, kernel: Request -> Result<Output, nat>, w: WorkerState, input: Bytes):
    (WorkerState, Option<Exchange>)
  {
    if w.exit.Some? then (w, None)
    else if |input| < 8 then (w.(exit := Some(0)), None)
    else if |input| < Size(FRAME) then (w.(exit := Some(2)), None)
    else
      var h := Fields(FRAME, input, 0);
      var length, message := h[1], h[2];
      if h[0] != MAGIC then (w.(exit := Some(2)), None)
      else if length > FRAME_LIMIT then (w.(exit := Some(3)), None)
      else if message == SHUTDOWN then (w.(exit := Some(if length != 0 then 4 else 0)), None)
      else if message == INITIALIZE then (if length != 0 then w.(exit := Some(4)) else w, None)
      else if message != STEP_REQUEST then (w.(exit := Some(5)), None)
      else if length < 0 || Size(FRAME) + length > |input| then (w.(exit := Some(6)), None)
      else Answer(sha, kernel, w, input[Size(FRAME)..Size(FRAME) + length])
  }

  class Worker {
    var last: int
    var latch: Option<Latch>
    var exit: Option<nat>

    ghost function View(): WorkerState
      reads this
    {
      WorkerState(last, latch, exit)
    }

    constructor ()
      ensures View() == WorkerState(0, None, None)
    {
      last, latch, exit := 0, None, None;
    }

    method ServeFrame(sha: Bytes -> Bytes, kernel: Request -> Result<Output, nat>, input: Bytes)
        returns (answer: Option<Exchange>)
      modifies this
      ensures (View(), answer) == Serve(sha, kernel, old(View()), input)
    {
      hide Fields, Size, Answer;
      if exit.Some? {
        return None;
      }
      if |input| < 8 {
        exit := Some(0);
        return None;
      }
      var header, start := TakeAll(FRAME, input, 0);
      if header.None? || header.value[0] != MAGIC {
        exit := Some(2);
        return None;
      }
      var length, message := header.value[1], header.value[2];
      if length > FRAME_LIMIT {
        exit := Some(3);
        return None;
      }
      if message == SHUTDOWN {
        exit := Some(if length != 0 then 4 else 0);
        return None;
      }
      if message == INITIALIZE {
        exit := if length != 0 then Some(4) else None;
        return None;
      }
      if message != STEP_REQUEST {
        exit := Some(5);
        return None;
      }
      if length < 0 || start + length > |input| {
        exit := Some(6);
        return None;
      }
      answer := ServeStep(sha, kernel, input[start..start + length]);
    }

    method ServeStep(sha: Bytes -> Bytes, kernel: Request -> Result<Output, nat>, payload: Bytes)
        returns (answer: Option<Exchange>)
      requires exit.None?
      modifies this
      ensures (View(), answer) == Answer(sha, kernel, old(View()), payload)
    {
      hide Parse, ResponsePayload, Answerable, Framed;
      var request := ParseRequest(sha, payload, (last + 1) % SEQUENCES, latch);
      if request.Err? {
        exit := Some(request.error);
        return None;
      }
      var r := request.value;
      latch := Some(Latch(r.run, r.case_));
      var result := kernel(r);
      if result.Err? {
        exit := Some(result.error);
        return None;
      }
      if !Answerable(r, result.value) {
        exit := Some(10);
        return None;
      }
      var frame := AnswerFrame(sha, r, result.value);
      if frame.None? {
        exit := Some(10);
        return None;
      }
      last := (last + 1) % SEQUENCES;
      return Some(Exchange(r, frame.value));
    }
  }

  /** The main loop of the worker on its input stream. */
  method ServeAll(sha: Bytes -> Bytes, kernel: Request -> Result<Output, nat>, worker: Worker, stream: Bytes)
    returns (answers: seq<Exchange>)
    modifies worker
    ensures (worker.View(), answers) == ServeStream(sha, kernel, old(worker.View()), stream)
  {
    hide Serve, Fields, Size;
    answers := [];
    var rest := stream;
    ghost var all := ServeStream(sha, kernel, worker.View(), stream);
    assert [] + all.1 == all.1;
    while worker.exit.None?
      invariant all.0 == ServeStream(sha, kernel, worker.View(), rest).0
      invariant all.1 == answers + ServeStream(sha, kernel, worker.View(), rest).1
      decreases worker.exit.None?, |rest|
    {
      ghost var before, done := worker.View(), answers;
      var answer := worker.ServeFrame(sha, kernel, rest);
      if answer.Some? {
        answers := answers + [answer.value];
      }
      if worker.exit.None? {
        GoesOn(sha, kernel, before, rest);
        var header, start := TakeAll(FRAME, rest, 0);
        rest := rest[start + header.value[1]..];
        Shift(done, if answer.Some? then [answer.value] else [], ServeStream(sha, kernel, worker.View(), rest).1);
      } else {
        assert answer.None? by {
          ExitIsSilent(sha, kernel, before, rest);
        }
      }
    }
    assert answers + [] == answers;
  }

  lemma Shift(a: seq<Exchange>, b: seq<Exchange>, c: seq<Exchange>)
    ensures a + (b + c) == (a + b) + c
  {
  }

  lemma ExitIsSilent(sha: Bytes -> Bytes, kernel: Request -> Result<Output, nat>, w: WorkerState, input: Bytes)
    requires w.exit.None? && Serve(sha, kernel, w, input).0.exit.Some?
    ensures Serve(sha, kernel, w, input).1.None?
  {
    hide Parse, Answerable, ResponsePayload, Framed, Fields, Size;
  }

  /** What the parser lets through: the expected number, which is never zero, and the latched run and case. */
  ghost predicate LetThrough(r: Request, number: int, expected: int, latch: Option<Latch>) {
    r.sequence == number == expected != 0 && (latch.Some? ==> latch.value == Latch(r.run, r.case_))
  }

  lemma TailInTurn(
    sha: Bytes -> Bytes, payload: Bytes, h: Header, model: Bytes, m: seq<int>, expected: int, latch: Option<Latch>,
    rows: int, offset: nat)
    requires h.Valid() && |m| == 15 + h.values[10] && rows >= 0 && offset <= |payload|
    ensures var parsed := ParseTail(sha, payload, h, model, m, expected, latch, rows, offset);
      parsed.Ok? ==> LetThrough(parsed.value, h.values[2], expected, latch)
  {
    hide Fields, Size, ValidString, StringValue, AllFinite, ArrayCount, Finite, Positive;
  }

  lemma ParsedInTurn(sha: Bytes -> Bytes, payload: Bytes, expected: int, latch: Option<Latch>)
    ensures var parsed := Parse(sha, payload, expected, latch);
      parsed.Ok? ==>
        |payload| >= Size(PREFIX) && LetThrough(parsed.value, Fields(PREFIX, payload, 0)[2], expected, latch)
  {
    hide Fields, Size, MassGuess, ModelKinds, ParseTail, LetThrough, Header.Valid;
    if Parse(sha, payload, expected, latch).Ok? {
      var h := Header(Fields(PREFIX, payload, 0));
      var start := Size(PREFIX);
      SlicesOf(h);
      var end := start + Size(ModelKinds(h.values[10]));
      var m := Fields(ModelKinds(h.values[10]), payload, start);
      var (rows, offset) := MassGuess(payload, end + Size([I4, I4]), h.values[8]);
      TailInTurn(sha, payload, h, payload[start..end], m, expected, latch, rows, offset);
    }
  }

  lemma SlicesOf(h: Header)
    requires h.Valid()
    ensures h.values[10] >= 1 && h.values[8] > 0
  {
  }

  function LatchOf(x: Exchange): Latch {
    Latch(x.request.run, x.request.case_)
  }

  /** The exchange carries the given number and the kernel's result for its request. */
  ghost predicate InTurn(sha: Bytes -> Bytes, kernel: Request -> Result<Output, nat>, x: Exchange, sequence: int) {
    && x.request.sequence == sequence
    && kernel(x.request).Ok? && Answerable(x.request, kernel(x.request).value)
    && AnswerFrame(sha, x.request, kernel(x.request).value) == Some(x.answer)
  }

  /** Whatever stands in the input, an answer is given only to the next sequence number of the latched run and case. */
  lemma AnswersInSequence(sha: Bytes -> Bytes, kernel: Request -> Result<Output, nat>, w: WorkerState, input: Bytes)
    requires w.exit.None? && 0 <= w.last < SEQUENCES
    ensures var (v, answer) := Serve(sha, kernel, w, input);
      && (w.latch.Some? ==> v.latch == w.latch || v.exit.Some?)
      && (answer.None? ==> v.last == w.last && (v.exit.None? ==> v.latch == w.latch))
      && (answer.Some? ==>
            && v.exit.None? && v.last == w.last + 1 < SEQUENCES && InTurn(sha, kernel, answer.value, v.last)
            && v.latch == Some(LatchOf(answer.value)))
  {
    hide Parse, Answerable, ResponsePayload, Framed, Fields, Size;
    if |input| >= Size(FRAME) {
      var length := Fields(FRAME, input, 0)[1];
      if 0 <= length && Size(FRAME) + length <= |input| {
        var payload := input[Size(FRAME)..Size(FRAME) + length];
        ParsedInTurn(sha, payload, (w.last + 1) % SEQUENCES, w.latch);
      }
    }
  }

  // ----- request and answer end to end

  lemma {:induction false} SizeBounds(kinds: seq<Kind>)
    ensures 4 * |kinds| <= Size(kinds) <= 8 * |kinds|
    decreases |kinds|
  {
    if kinds != [] {
      SizeBounds(kinds[1..]);
    }
  }

  lemma StringOfFixed(id: Bytes, size: nat)
    requires ValidId(id, size) && Clean(id)
    ensures StringValue(Fixed(id, size)) == id
  {
    hide StringValue, Fixed, Clean;
    FixedParses(id, size);
  }

  lemma PrintsAnswer(r: Request, x: Output)
    requires Complete(r) && CleanIds(r) && ValidOutput(x, r.Dof())
    ensures Printable(r, PaddedIds(r), x)
  {
    hide StringValue, Fixed, Clean, ModelKinds, ModelValues, ArrayValues, OutputArrays, CheckpointStep;
    StringOfFixed(r.run, ID_RUN);
    StringOfFixed(r.case_, ID_CASE);
    StringOfFixed(r.producer, ID_ENDPOINT);
    StringOfFixed(r.consumer, ID_ENDPOINT);
    PrefixFits(r);
    StepFits(r.globalStep);
  }

  lemma PrefixFits(r: Request)
    requires AllFit(PREFIX, PrefixValues(r))
    ensures Fits(U4, r.sequence) && Fits(I4, r.globalStep) && Fits(I4, r.bridgeStep) && Fits(W8, r.tick)
      && Fits(W8, r.time)
    ensures Fits(I4, r.Dof()) && Fits(W8, r.requestId) && Fits(W8, r.transactionId)
  {
    var v := PrefixValues(r);
    assert Fits(PREFIX[2], v[2]) && Fits(PREFIX[3], v[3]) && Fits(PREFIX[4], v[4]) && Fits(PREFIX[5], v[5])
      && Fits(PREFIX[6], v[6]);
    assert Fits(PREFIX[8], v[8]) && Fits(PREFIX[13], v[13]) && Fits(PREFIX[14], v[14]);
  }

  lemma StepFits(globalStep: int)
    ensures Fits(W8, CheckpointStep(globalStep))
  {
  }

  lemma AnswerLength(sha: Bytes -> Bytes, r: Request, x: Output)
    requires IsDigest(sha) && ValidIds(r)
    requires Printable(r, PaddedIds(r), x) && 0 < 32 * r.Dof() <= FRAME_LIMIT
    ensures |ResponsePayload(sha, r, PaddedIds(r), x)| < SEQUENCES
  {
    hide ResponsePayload, Size, Holds, Printable, Pack, PackWords, OutputArrays;
    ResponsePartsHold(sha, r, PaddedIds(r), x);
    SizeBounds(RESPONSE);
    SizeBounds(TRAILER);
    SizeRepeat(W8, 8 * r.Dof());
  }

  /** What the two ends of the pipe are made of: the digest, the client's checks of the model, its default slice
      positions and comparison of times, and the worker's kernel. */
  datatype Pipe = Pipe(
    sha: Bytes -> Bytes, sound: (Model, int) -> bool, spacing: Model -> seq<int>, close: (int, int) -> bool,
    kernel: Request -> Result<Output, nat>)
  {
    /** A request that can be printed within the frame limit and comes back as itself. */
    ghost predicate Sendable(r: Request) {
      && IsDigest(sha) && Encodable(sound, spacing, r) && |Print(sha, spacing, r)| <= FRAME_LIMIT
      && ValidIds(r) && CleanIds(r) && !Collides(r) && close(r.time, r.time)
    }

    /** The frame a client writes for a request, and nothing for one it refuses to print. */
    ghost function Frame(r: Request): Bytes {
      if Sendable(r) then Framed(STEP_REQUEST, Print(sha, spacing, r)) else []
    }

    /** The kernel advances the request to a finite state. */
    predicate Finishes(r: Request) {
      var x := kernel(Filled(spacing, r));
      x.Ok? && ValidOutput(x.value, r.Dof()) && AllFinite(OutputArrays(x.value)) && Finite(x.value.residual)
    }

    /** The exchange is about the client's request, and the client reads the kernel's result for it from the answer. */
    ghost predicate Understood(r: Request, x: Exchange) {
      && x.request == Filled(spacing, r) && Finishes(r)
      && Accepted(sha, close, r, kernel(Filled(spacing, r)).value, Decode(x.answer))
    }
  }

  /** A printed step request with clean ids, sent in sequence, is answered by a frame the client decodes, accepts and
      reads the kernel's result from, whatever follows it in the stream. */
  lemma RequestIsAnswered(p: Pipe, w: WorkerState, r: Request, rest: Bytes)
    requires w.exit.None? && Admits(r, (w.last + 1) % SEQUENCES, w.latch)
    ensures var (v, answer) := Serve(p.sha, p.kernel, w, p.Frame(r) + rest);
      p.Sendable(r) && p.Finishes(r) ==>
        && v == WorkerState(r.sequence, Some(Latch(r.run, r.case_)), None)
        && answer.Some? && p.Understood(r, answer.value)
  {
    hide Payload, ResponsePayload, Parse, Fields, Size, Accepted, Decode, Framed, Printable, OutputArrays, Finite,
         Candidate, Clean, Validates, ValidArrays, AllFit, Serve, FrameLength;
    if p.Sendable(r) && p.Finishes(r) {
      var q := Filled(p.spacing, r);
      var x := p.kernel(q).value;
      RoundTrip(p.sha, p.sound, p.spacing, r, (w.last + 1) % SEQUENCES, w.latch);
      PrintsAnswer(q, x);
      FrameIsLong(p.sha, q);
      AnswerLength(p.sha, q, x);
      ResponseAccepted(p.sha, p.close, q, PaddedIds(q), x);
      AcceptedAlike(p.sha, p.close, q, r, x, Decode(Framed(STEP_RESPONSE, ResponsePayload(p.sha, q, PaddedIds(q), x))));
      ServesStep(p.sha, p.kernel, w, Payload(p.sha, q), rest);
    }
  }

  /** Acceptance does not look at the slice positions. */
  lemma AcceptedAlike(
    sha: Bytes -> Bytes, close: (int, int) -> bool, q: Request, r: Request, x: Output, d: Result<Response, FrameError>)
    requires Accepted(sha, close, q, x, d) && q == r.(model := q.model)
    ensures Accepted(sha, close, r, x, d)
  {
  }

  lemma ServesStep(
    sha: Bytes -> Bytes, kernel: Request -> Result<Output, nat>, w: WorkerState, payload: Bytes, rest: Bytes)
    requires w.exit.None? && |payload| <= FRAME_LIMIT
    ensures var f := Framed(STEP_REQUEST, payload);
      Serve(sha, kernel, w, f + rest) == Answer(sha, kernel, w, payload) && |f| == Size(FRAME) + |payload|
      && |f + rest| >= Size(FRAME) && FrameLength(f + rest) == |f| && (f + rest)[|f|..] == rest
  {
    hide Answer, Fields, Size, Framed;
    FrameHolds(STEP_REQUEST, payload, rest);
    SizeBounds(FRAME);
  }

  // ----- the frame loop over a stream

  function FrameLength(stream: Bytes): int
    requires |stream| >= Size(FRAME)
  {
    Size(FRAME) + Fields(FRAME, stream, 0)[1]
  }

  /** The loop goes on only behind a whole frame. */
  lemma GoesOn(sha: Bytes -> Bytes, kernel: Request -> Result<Output, nat>, w: WorkerState, stream: Bytes)
    requires w.exit.None?
    ensures Serve(sha, kernel, w, stream).0.exit.None? ==>
      |stream| >= Size(FRAME) && 0 < FrameLength(stream) <= |stream|
  {
    hide Answer, Fields, Size;
    SizeBounds(FRAME);
  }

  /** The life of the worker on a stream of bytes: where it ends and what it answered. */
  function ServeStream(sha: Bytes -> Bytes, kernel: Request -> Result<Output, nat>, w: WorkerState, stream: Bytes):
    (WorkerState, seq<Exchange>)
    decreases |stream|
  {
    if w.exit.Some? then (w, [])
    else
      var (v, answer) := Serve(sha, kernel, w, stream);
      if v.exit.Some? then (v, [])
      else
        GoesOn(sha, kernel, w, stream);
        var (end, rest) := ServeStream(sha, kernel, v, stream[FrameLength(stream)..]);
        (end, (if answer.Some? then [answer.value] else []) + rest)
  }

  /** The exchanges carry consecutive numbers after `last`, all of one run and case, the latched one where there is
      one. */
  ghost predicate AllInTurn(
    sha: Bytes -> Bytes, kernel: Request -> Result<Output, nat>, xs: seq<Exchange>, last: int, latch: Option<Latch>)
  {
    forall i :: 0 <= i < |xs| ==>
      && InTurn(sha, kernel, xs[i], last + 1 + i)
      && LatchOf(xs[i]) == (if latch.Some? then latch.value else LatchOf(xs[0]))
  }

  lemma OneMoreInTurn(
    sha: Bytes -> Bytes, kernel: Request -> Result<Output, nat>, x: Exchange, xs: seq<Exchange>, last: int,
    latch: Option<Latch>)
    requires latch.Some? ==> latch.value == LatchOf(x)
    ensures InTurn(sha, kernel, x, last + 1) && AllInTurn(sha, kernel, xs, last + 1, Some(LatchOf(x))) ==>
      AllInTurn(sha, kernel, [x] + xs, last, latch)
  {
    hide InTurn, LatchOf;
  }

  /** On any stream of bytes the worker ends, having answered consecutive sequence numbers, all of one run and case,
      each with the kernel's result for its request; it ends before the numbers run out. */
  lemma {:induction false} StreamInSequence(
    sha: Bytes -> Bytes, kernel: Request -> Result<Output, nat>, w: WorkerState, stream: Bytes)
    requires w.exit.None? && 0 <= w.last < SEQUENCES
    ensures var (v, xs) := ServeStream(sha, kernel, w, stream);
      v.exit.Some? && v.last == w.last + |xs| < SEQUENCES && AllInTurn(sha, kernel, xs, w.last, w.latch)
    decreases |stream|
  {
    hide Serve, InTurn, FrameLength, LatchOf, AllInTurn;
    var (v, answer) := Serve(sha, kernel, w, stream);
    AnswersInSequence(sha, kernel, w, stream);
    if v.exit.None? {
      GoesOn(sha, kernel, w, stream);
      var rest := stream[FrameLength(stream)..];
      StreamInSequence(sha, kernel, v, rest);
      var xs := ServeStream(sha, kernel, v, rest).1;
      if answer.Some? {
        OneMoreInTurn(sha, kernel, answer.value, xs, w.last, w.latch);
      } else {
        assert [] + xs == xs;
      }
    } else {
      NoneInTurn(sha, kernel, w.last, w.latch);
    }
  }

  lemma NoneInTurn(sha: Bytes -> Bytes, kernel: Request -> Result<Output, nat>, last: int, latch: Option<Latch>)
    ensures AllInTurn(sha, kernel, [], last, latch)
  {
  }

  // ----- a client's whole conversation

  /** The frames a client writes for its requests, one after another. */
  ghost function Sent(p: Pipe, rs: seq<Request>): Bytes
    decreases |rs|
  {
    if rs == [] then [] else p.Frame(rs[0]) + Sent(p, rs[1..])
  }

  /** The requests of a conversation: sendable, of one run and case, numbered one after another. */
  ghost predicate InOrder(p: Pipe, rs: seq<Request>, last: int, latch: Latch) {
    forall i :: 0 <= i < |rs| ==>
      && p.Sendable(rs[i]) && p.Finishes(rs[i]) && rs[i].sequence == last + 1 + i
        && Latch(rs[i].run, rs[i].case_) == latch
  }

  /** Every request of a conversation in order is answered, and the client accepts each answer and reads the kernel's
      result for its own request from it. */
  lemma {:induction false} ConversationIsAnswered(p: Pipe, w: WorkerState, latch: Latch, rs: seq<Request>)
    requires w.exit.None? && 0 <= w.last && (w.latch.None? || w.latch.value == latch)
    requires InOrder(p, rs, w.last, latch)
    ensures var (v, xs) := ServeStream(p.sha, p.kernel, w, Sent(p, rs));
      v.exit == Some(0) && |xs| == |rs| && forall i :: 0 <= i < |rs| ==> p.Understood(rs[i], xs[i])
    decreases |rs|
  {
    hide Pipe.Sendable, Pipe.Finishes, Pipe.Frame, Pipe.Understood, Serve, FrameLength, Size;
    if rs == [] {
      NothingSent(p.sha, p.kernel, w);
    } else {
      var r, rest := rs[0], Sent(p, rs[1..]);
      NumberFits(p, r);
      RequestIsAnswered(p, w, r, rest);
      var (v, answer) := Serve(p.sha, p.kernel, w, p.Frame(r) + rest);
      ServedWhole(p, w, r, rest);
      ConversationIsAnswered(p, v, latch, rs[1..]);
      var (end, xs) := ServeStream(p.sha, p.kernel, v, rest);
      assert ServeStream(p.sha, p.kernel, w, p.Frame(r) + rest) == (end, [answer.value] + xs);
      assert forall i :: 1 <= i < |rs| ==> rs[i] == rs[1..][i - 1];
    }
  }

  lemma NothingSent(sha: Bytes -> Bytes, kernel: Request -> Result<Output, nat>, w: WorkerState)
    requires w.exit.None?
    ensures ServeStream(sha, kernel, w, []) == (w.(exit := Some(0)), [])
  {
  }

  lemma NumberFits(p: Pipe, r: Request)
    ensures p.Sendable(r) ==> 0 < r.sequence < SEQUENCES
  {
    hide ValidArrays, ModelKinds, ModelValues, SizeKinds, SizeValues, Print, Collides;
    if p.Sendable(r) {
      PrefixFits(Filled(p.spacing, r));
    }
  }

  lemma ServedWhole(p: Pipe, w: WorkerState, r: Request, rest: Bytes)
    requires w.exit.None?
    ensures var f := p.Frame(r);
      p.Sendable(r) ==>
        |f + rest| >= Size(FRAME) && FrameLength(f + rest) == |f| && (f + rest)[|f|..] == rest
  {
    hide Print, Framed, FrameLength, Serve, Collides, Complete, Size;
    if p.Sendable(r) {
      ServesStep(p.sha, p.kernel, w, Print(p.sha, p.spacing, r), rest);
    }
  }
}
