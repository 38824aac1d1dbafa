/**
 The binary step request: the Python printer, with an optional mass field, and the C++ parser,
 which guesses the presence of that field from the next four bytes. Doubles are opaque 64-bit
 words; SHA-256 is any function to 32 bytes.
 */
module KernelProtocol {
  import opened Wrappers
  import opened Packing

  type Bytes = seq<Byte>

  const SCHEMA := 1
  const PROTOCOL := 1
  const ID_RUN := 64
  const ID_CASE := 64
  const ID_ENDPOINT := 32
  const IDS := ID_RUN + ID_CASE + ID_ENDPOINT + ID_ENDPOINT
  const DIGEST := 32
  const FRAME_LIMIT := 64 * 1024 * 1024

  ghost predicate IsDigest(sha: Bytes -> Bytes) {
    forall s :: |sha(s)| == DIGEST
  }

  predicate Finite(word: int) {
    word / 0x10_0000_0000_0000 % 2048 != 2047
  }

  /** The double is greater than zero. */
  predicate Positive(word: int) {
    0 < word < 0x8000_0000_0000_0000
  }

  predicate AllFinite(words: seq<int>) {
    forall i :: 0 <= i < |words| ==> Finite(words[i])
  }

  /** The thirteen doubles of the model, its two integers, and one position for each slice, or none at all. */
  datatype Model = Model(elements: int, slices: int, words: seq<int>, gaussOrder: int, maxNewton: int,
                         positions: seq<int>)

  datatype Request = Request(
    sequence: int, globalStep: int, bridgeStep: int, tick: int, time: int, dt: int, requestId: int, transactionId: int,
    run: Bytes, case_: Bytes, producer: Bytes, consumer: Bytes, model: Model,
    q: seq<int>, qdot: seq<int>, qddot: seq<int>, base: seq<int>, mass: seq<int>, force: seq<int>) {

    function Dof(): int {
      6 * (model.elements + 1)
    }
  }

  // ----- the printer

  const PREFIX: seq<Kind> := [U4, U4, U4, I4, I4, W8, W8, W8, I4, I4, I4, I4, I4, W8, W8]

  function ModelKinds(slices: nat): (kinds: seq<Kind>)
    ensures |kinds| == 15 + slices
  {
    Repeat(W8, 13) + [I4, I4] + Repeat(W8, slices)
  }

  function PrefixValues(r: Request): seq<int> {
    [SCHEMA, PROTOCOL, r.sequence, r.globalStep, r.bridgeStep, r.tick, r.time, r.dt, r.Dof(), r.model.elements,
     r.model.slices, r.model.gaussOrder, r.model.maxNewton, r.requestId, r.transactionId]
  }

  function ModelValues(m: Model): seq<int> {
    m.words + [m.gaussOrder, m.maxNewton] + m.positions
  }

  function SizeKinds(r: Request): seq<Kind> {
    if r.mass == [] then [I4, I4] else [I4, I4, I4]
  }

  function SizeValues(r: Request): seq<int> {
    [r.Dof(), 3 * r.model.slices] + if r.mass == [] then [] else [r.Dof()]
  }

  function ArrayValues(r: Request): seq<int> {
    r.q + r.qdot + r.qddot + r.base + r.mass + r.force
  }

  predicate ValidModel(m: Model) {
    && m.elements >= 2 && m.slices >= 1 && (m.gaussOrder == 3 || m.gaussOrder == 5) && m.maxNewton > 0
    && |m.words| == 13 && |m.positions| == m.slices
  }

  predicate ValidId(id: Bytes, size: nat) {
    0 < |id| < size
  }

  predicate ValidArrays(r: Request)
    requires ValidModel(r.model)
  {
    var n := r.Dof();
    && |r.q| == |r.qdot| == |r.qddot| == |r.base| == n
    && (r.mass == [] || |r.mass| == n * n) && |r.force| == 3 * r.model.slices
    && Words(ArrayValues(r))
  }

  /** A request with a position for each slice, every field of which fits its place in the frame. */
  predicate Fitting(r: Request) {
    && ValidModel(r.model) && Finite(r.dt) && Positive(r.dt)
    && ValidArrays(r)
    && r.sequence > 0 && r.globalStep >= 0 && r.bridgeStep > 0 && r.tick >= 0 && Finite(r.time)
    && AllFit(PREFIX, PrefixValues(r))
    && AllFit(ModelKinds(r.model.slices), ModelValues(r.model))
    && AllFit(SizeKinds(r), SizeValues(r))
    && ValidIds(r)
  }

  /** Besides, every entry of its arrays is finite. */
  predicate Complete(r: Request) {
    Fitting(r) && AllFinite(ArrayValues(r))
  }

  function Zeros(n: nat): (s: Bytes)
    ensures |s| == n && forall i :: 0 <= i < n ==> s[i] == 0
  {
    seq(n, _ => 0)
  }

  function Fixed(id: Bytes, size: nat): (s: Bytes)
    requires |id| <= size
    ensures |s| == size
  {
    id + Zeros(size - |id|)
  }

  /** The four identity fields as they stand in a frame. */
  datatype RawIds = RawIds(run: Bytes, case_: Bytes, producer: Bytes, consumer: Bytes) {
    predicate Sized() {
      |run| == ID_RUN && |case_| == ID_CASE && |producer| == |consumer| == ID_ENDPOINT
    }

    predicate Valid() {
      ValidString(run) && ValidString(case_) && ValidString(producer) && ValidString(consumer)
    }

    predicate Of(r: Request) {
      && StringValue(run) == r.run && StringValue(case_) == r.case_
      && StringValue(producer) == r.producer && StringValue(consumer) == r.consumer
    }

    function Joined(): (s: Bytes)
      ensures Sized() ==> |s| == IDS
    {
      run + (case_ + (producer + consumer))
    }
  }

  predicate ValidIds(r: Request) {
    && ValidId(r.run, ID_RUN) && ValidId(r.case_, ID_CASE)
    && ValidId(r.producer, ID_ENDPOINT) && ValidId(r.consumer, ID_ENDPOINT)
  }

  function PaddedIds(r: Request): (ids: RawIds)
    requires ValidIds(r)
    ensures ids.Sized()
  {
    RawIds(Fixed(r.run, ID_RUN), Fixed(r.case_, ID_CASE), Fixed(r.producer, ID_ENDPOINT),
           Fixed(r.consumer, ID_ENDPOINT))
  }

  function Payload(sha: Bytes -> Bytes, r: Request): Bytes
    requires Fitting(r)
  {
    var model := Pack(ModelKinds(r.model.slices), ModelValues(r.model));
    var arrays := PackWords(ArrayValues(r));
    Pack(PREFIX, PrefixValues(r))
    + (model + (Pack(SizeKinds(r), SizeValues(r)) + (PaddedIds(r).Joined() + (sha(model + arrays) + arrays))))
  }

  /** A request without slice positions is printed with the default ones, whose float arithmetic is `spacing`. */
  function Filled(spacing: Model -> seq<int>, r: Request): Request {
    if r.model.positions != [] then r else r.(model := r.model.(positions := spacing(r.model)))
  }

  /** What the printer demands; `sound` are its comparisons on the model's doubles. */
  predicate Encodable(sound: (Model, int) -> bool, spacing: Model -> seq<int>, r: Request) {
    sound(r.model, r.dt) && Complete(Filled(spacing, r))
  }

  function Print(sha: Bytes -> Bytes, spacing: Model -> seq<int>, r: Request): Bytes
    requires Complete(Filled(spacing, r))
  {
    Payload(sha, Filled(spacing, r))
  }

  // ----- the parser

  function FirstNul(s: Bytes): (k: nat)
    ensures k <= |s| && (k < |s| ==> s[k] == 0) && forall i :: 0 <= i < k ==> s[i] != 0
  {
    if s == [] || s[0] == 0 then 0 else 1 + FirstNul(s[1..])
  }

  predicate Clean(id: Bytes) {
    forall i :: 0 <= i < |id| ==> id[i] >= 0x20
  }

  /** A terminated, non-empty string without control characters. */
  predicate ValidString(s: Bytes) {
    0 < FirstNul(s) < |s| && Clean(s[..FirstNul(s)])
  }

  function StringValue(s: Bytes): Bytes {
    s[..FirstNul(s)]
  }

  method ValidCString(s: Bytes) returns (valid: bool)
    ensures valid <==> ValidString(s)
  {
    for i: nat := 0 to |s|
      invariant forall k :: 0 <= k < i ==> s[k] >= 0x20
      invariant FirstNul(s) >= i
    {
      if s[i] == 0 {
        assert FirstNul(s) == i;
        return i > 0;
      }
      if s[i] < 0x20 {
        assert FirstNul(s) > i && s[..FirstNul(s)][i] < 0x20;
        return false;
      }
    }
    return false;
  }

  datatype Latch = Latch(run: Bytes, case_: Bytes)

  /** The sizes the prefix announces: dof, slices, quadrature order and Newton limit. */
  datatype Header = Header(values: seq<int>) {
    predicate Valid() {
      && |values| == 15
      && values[0] == SCHEMA && values[1] == PROTOCOL && values[2] != 0 && values[8] > 0 && values[9] >= 2
        && values[10] >= 1
      && (values[11] == 3 || values[11] == 5) && values[12] > 0
      && Positive(values[7]) && Finite(values[6]) && Finite(values[7]) && values[8] == 6 * (values[9] + 1)
    }
  }

  /** Where the ids start and how many mass rows follow: the guess about the optional third size. */
  function MassGuess(payload: Bytes, offset: nat, n: int): (r: (int, nat))
    requires offset <= |payload|
    ensures offset <= r.1 <= |payload| && (r.0 == 0 || r.0 == n)
  {
    if offset + 4 <= |payload| then
      var candidate := Read(I4, payload[offset..offset + 4]);
      if candidate == 0 || candidate == n then (candidate, offset + 4) else (0, offset)
    else (0, offset)
  }

  function IdsAt(payload: Bytes, offset: nat): (ids: RawIds)
    requires offset + IDS <= |payload|
    ensures ids.Sized()
  {
    RawIds(payload[offset..offset + ID_RUN], payload[offset + ID_RUN..offset + ID_RUN + ID_CASE],
           payload[offset + ID_RUN + ID_CASE..offset + ID_RUN + ID_CASE + ID_ENDPOINT],
           payload[offset + ID_RUN + ID_CASE + ID_ENDPOINT..offset + IDS])
  }

  function Square(rows: int): nat
    requires rows >= 0
  {
    rows * rows
  }

  function ArrayCount(h: Header, rows: int): nat
    requires h.Valid() && rows >= 0
  {
    4 * h.values[8] + Square(rows) + 3 * h.values[10]
  }

  /** The request whose sizes, model, ids and arrays have been read. */
  function Arranged(h: Header, m: seq<int>, ids: RawIds, x: seq<int>, rows: int): Request
    requires h.Valid() && |m| == 15 + h.values[10] && rows >= 0 && |x| == ArrayCount(h, rows)
  {
    var v, n, k := h.values, h.values[8], Square(rows);
    Request(
      v[2], v[3], v[4], v[5], v[6], v[7], v[13], v[14],
      StringValue(ids.run), StringValue(ids.case_), StringValue(ids.producer), StringValue(ids.consumer),
      Model(v[9], v[10], m[..13], m[13], m[14], m[15..]),
      x[..n], x[n..2 * n], x[2 * n..3 * n], x[3 * n..4 * n], x[4 * n..4 * n + k], x[4 * n + k..])
  }

  function ParseArrays(
    sha: Bytes -> Bytes, payload: Bytes, h: Header, model: Bytes, m: seq<int>, ids: RawIds, rows: int, offset: nat):
    Result<Request, nat>
    requires h.Valid() && |m| == 15 + h.values[10] && rows >= 0 && offset + DIGEST <= |payload|
  {
    var arrays := offset + DIGEST;
    var kinds := Repeat(W8, ArrayCount(h, rows));
    if arrays + Size(kinds) != |payload| then Err(8)
    else
      var input := Fields(kinds, payload, arrays);
      if sha(model + payload[arrays..]) != payload[offset..arrays] || !AllFinite(input) then Err(9)
      else Ok(Arranged(h, m, ids, input, rows))
  }

  /** The frame from its ids on, with the bytes of its model and the number of mass rows that was guessed. */
  function ParseTail(
    sha: Bytes -> Bytes, payload: Bytes, h: Header, model: Bytes, m: seq<int>, expected: int, latch: Option<Latch>,
    rows: int, offset: nat): Result<Request, nat>
    requires h.Valid() && |m| == 15 + h.values[10] && rows >= 0 && offset <= |payload|
  {
    if offset + IDS + DIGEST > |payload| then Err(6)
    else
      var ids := IdsAt(payload, offset);
      if !ids.Valid() then Err(7)
      else if h.values[2] != expected then Err(13)
      else if latch.Some? && latch.value != Latch(StringValue(ids.run), StringValue(ids.case_)) then Err(14)
      else ParseArrays(sha, payload, h, model, m, ids, rows, offset + IDS)
  }

  function ParseModel(sha: Bytes -> Bytes, payload: Bytes, h: Header, start: nat, expected: int, latch: Option<Latch>):
    Result<Request, nat>
    requires h.Valid() && start <= |payload|
  {
    var v := h.values;
    var end := start + Size(ModelKinds(v[10]));
    if |payload| < end then Err(4)
    else
      var m := Fields(ModelKinds(v[10]), payload, start);
      if m[13] != v[11] || m[14] != v[12] then Err(4)
      else
        var sizes := end + Size([I4, I4]);
        if |payload| < sizes || Fields([I4, I4], payload, end) != [v[8], 3 * v[10]] then Err(5)
        else
          var (massRows, offset) := MassGuess(payload, sizes, v[8]);
          ParseTail(sha, payload, h, payload[start..end], m, expected, latch, massRows, offset)
  }

  /** The parser as a function of the payload; an error carries the worker's return code. */
  function Parse(sha: Bytes -> Bytes, payload: Bytes, expected: int, latch: Option<Latch>): Result<Request, nat> {
    if |payload| < Size(PREFIX) then Err(2)
    else
      var h := Header(Fields(PREFIX, payload, 0));
      if h.Valid() then ParseModel(sha, payload, h, Size(PREFIX), expected, latch) else Err(3)
  }

  /** The parser as the worker runs it, moving one offset through the payload. */
  method ParseRequest(sha: Bytes -> Bytes, payload: Bytes, expected: int, latch: Option<Latch>)
      returns (r: Result<Request, nat>)
    ensures r == Parse(sha, payload, expected, latch)
  {
    hide Size, Fields, Read, ModelKinds, ParseTail, AllFinite;
    var prefix, offset := TakeAll(PREFIX, payload, 0);
    if prefix.None? {
      return Err(2);
    }
    var h := Header(prefix.value);
    if !h.Valid() {
      return Err(3);
    }
    var v := h.values;
    var modelStart := offset;
    var m;
    m, offset := TakeAll(ModelKinds(v[10]), payload, offset);
    if m.None? || m.value[13] != v[11] || m.value[14] != v[12] {
      return Err(4);
    }
    var model := payload[modelStart..offset];
    var sizes;
    sizes, offset := TakeAll([I4, I4], payload, offset);
    if sizes.None? || sizes.value != [v[8], 3 * v[10]] {
      return Err(5);
    }
    var massRows := 0;
    var candidate, next := Take(I4, payload, offset);
    if candidate.Some? && (candidate.value == 0 || candidate.value == v[8]) {
      massRows, offset := candidate.value, next;
    }
    r := ParseIds(sha, payload, h, model, m.value, expected, latch, massRows, offset);
  }

  method ParseIds(
    sha: Bytes -> Bytes, payload: Bytes, h: Header, model: Bytes, m: seq<int>, expected: int, latch: Option<Latch>,
    rows: int, offset: nat) returns (r: Result<Request, nat>)
    requires h.Valid() && |m| == 15 + h.values[10] && rows >= 0 && offset <= |payload|
    ensures r == ParseTail(sha, payload, h, model, m, expected, latch, rows, offset)
  {
    hide Size, Fields, Read, Finite, ValidString, StringValue, ParseArrays;
    if offset + IDS + DIGEST > |payload| {
      return Err(6);
    }
    var ids := IdsAt(payload, offset);
    var v0 := ValidCString(ids.run);
    var v1 := ValidCString(ids.case_);
    var v2 := ValidCString(ids.producer);
    var v3 := ValidCString(ids.consumer);
    if !v0 || !v1 || !v2 || !v3 {
      return Err(7);
    }
    if h.values[2] != expected {
      return Err(13);
    }
    if latch.Some? && latch.value != Latch(StringValue(ids.run), StringValue(ids.case_)) {
      return Err(14);
    }
    r := ParseInput(sha, payload, h, model, m, ids, rows, offset + IDS);
  }

  method ParseInput(
    sha: Bytes -> Bytes, payload: Bytes, h: Header, model: Bytes, m: seq<int>, ids: RawIds, rows: int, offset: nat)
    returns (r: Result<Request, nat>)
    requires h.Valid() && |m| == 15 + h.values[10] && rows >= 0 && offset + DIGEST <= |payload|
    ensures r == ParseArrays(sha, payload, h, model, m, ids, rows, offset)
  {
    hide Size, Fields, Finite, Arranged, Header.Valid, ArrayCount;
    var arrays := offset + DIGEST;
    var input, end := TakeAll(Repeat(W8, ArrayCount(h, rows)), payload, arrays);
    if input.None? || end != |payload| {
      return Err(8);
    }
    if sha(model + payload[arrays..]) != payload[offset..arrays] || !AllFinite(input.value) {
      return Err(9);
    }
    return Ok(Arranged(h, m, ids, input.value, rows));
  }
}
