/**
 The request round trip: exactly which printed frames parse back to their fields, in both
 layouts, and what becomes of the frames whose run id reads as a mass size.
 */
module RequestRoundTrip {
  import opened Wrappers
  import opened Packing
  import opened KernelProtocol

  // ----- where the parts of a frame stand

  datatype Layout = Layout(model: nat, sizes: nat, ids: nat, digest: nat, arrays: nat)

  function LayoutOf(r: Request): Layout
    requires ValidModel(r.model)
  {
    var model := Size(PREFIX);
    var sizes := model + Size(ModelKinds(r.model.slices));
    var ids := sizes + Size(SizeKinds(r));
    var digest := ids + IDS;
    Layout(model, sizes, ids, digest, digest + DIGEST)
  }

  function ModelBytes(r: Request): Bytes
    requires ValidModel(r.model) && AllFit(ModelKinds(r.model.slices), ModelValues(r.model))
  {
    Pack(ModelKinds(r.model.slices), ModelValues(r.model))
  }

  lemma PartsHold(sha: Bytes -> Bytes, r: Request)
    requires Fitting(r) && IsDigest(sha)
    ensures var s, l := Payload(sha, r), LayoutOf(r);
      && Holds(s, 0, Pack(PREFIX, PrefixValues(r)))
      && Holds(s, l.model, ModelBytes(r))
      && Holds(s, l.sizes, Pack(SizeKinds(r), SizeValues(r)))
      && Holds(s, l.ids, PaddedIds(r).Joined())
      && Holds(s, l.digest, sha(ModelBytes(r) + PackWords(ArrayValues(r))))
      && Holds(s, l.arrays, PackWords(ArrayValues(r))) && |s| == l.arrays + |PackWords(ArrayValues(r))|
  {
    hide Pack, PackWords, PaddedIds, Holds, AllFit, Size;
    var s, l := Payload(sha, r), LayoutOf(r);
    var p, m, z := Pack(PREFIX, PrefixValues(r)), ModelBytes(r), Pack(SizeKinds(r), SizeValues(r));
    var a := PackWords(ArrayValues(r));
    var d, i := sha(m + a), PaddedIds(r).Joined();
    assert |d| == DIGEST;
    Whole(s);
    HoldsParts(s, 0, p, m + (z + (i + (d + a))));
    HoldsParts(s, l.model, m, z + (i + (d + a)));
    HoldsParts(s, l.sizes, z, i + (d + a));
    HoldsParts(s, l.ids, i, d + a);
    HoldsParts(s, l.digest, d, a);
  }

  lemma Whole(s: Bytes)
    ensures Holds(s, 0, s)
  {
    assert s[0..|s|] == s;
  }

  // ----- prefix, model and sizes

  lemma HeaderParses(sha: Bytes -> Bytes, r: Request)
    requires Fitting(r) && IsDigest(sha)
    ensures var s := Payload(sha, r);
      && |s| >= Size(PREFIX) && Fields(PREFIX, s, 0) == PrefixValues(r) && Header(PrefixValues(r)).Valid()
  {
    hide Pack, Fields, Size, Payload, Holds;
    PartsHold(sha, r);
    FieldsOfPacked(PREFIX, PrefixValues(r), Payload(sha, r), 0);
    HoldsLength(Payload(sha, r), 0, Pack(PREFIX, PrefixValues(r)));
  }

  lemma HoldsLength(s: Bytes, offset: nat, part: Bytes)
    requires Holds(s, offset, part)
    ensures offset + |part| <= |s|
  {
  }

  lemma ModelParses(sha: Bytes -> Bytes, r: Request)
    requires Fitting(r) && IsDigest(sha)
    ensures var s, l, m := Payload(sha, r), LayoutOf(r), ModelValues(r.model);
      && |s| >= l.sizes && Fields(ModelKinds(r.model.slices), s, l.model) == m
      && m[13] == r.model.gaussOrder && m[14] == r.model.maxNewton && m[..13] == r.model.words
        && m[15..] == r.model.positions
  {
    hide Pack, Fields, Size, Payload, Holds, ModelKinds;
    PartsHold(sha, r);
    FieldsOfPacked(ModelKinds(r.model.slices), ModelValues(r.model), Payload(sha, r), LayoutOf(r).model);
    HoldsLength(Payload(sha, r), LayoutOf(r).model, ModelBytes(r));
  }

  /** The two sizes both layouts share, and the third one where it is present. */
  ghost predicate SizesRead(s: Bytes, at: nat, r: Request) {
    && SizeSteps() && at + 8 <= |s|
    && Fields([I4, I4], s, at) == [r.Dof(), 3 * r.model.slices]
    && (r.mass != [] ==> at + 12 <= |s| && Read(I4, s[at + 8..at + 12]) == r.Dof())
  }

  lemma SizesParse(s: Bytes, at: nat, r: Request)
    requires AllFit(SizeKinds(r), SizeValues(r)) && Holds(s, at, Pack(SizeKinds(r), SizeValues(r)))
    ensures SizesRead(s, at, r)
  {
    hide Fields, Holds, Write, Read;
    SizesOfSizes();
    PackedSizes(r);
    var two := [r.Dof(), 3 * r.model.slices];
    var head := Pack([I4, I4], two);
    HoldsParts(s, at, head, if r.mass == [] then [] else Write(I4, r.Dof()));
    FieldsOfPacked([I4, I4], two, s, at);
    HoldsLength(s, at, head);
    if r.mass != [] {
      WordOfWritten(I4, r.Dof(), s, at + 8);
    }
  }

  predicate SizeSteps() {
    Size([I4, I4]) == 8 && Size([I4, I4, I4]) == 12
  }

  lemma SizesOfSizes()
    ensures SizeSteps()
  {
    assert [I4, I4][1..] == [I4] && [I4, I4, I4][1..] == [I4, I4] && [I4][1..] == [];
    assert Size([I4]) == 4;
  }

  lemma PackedSizes(r: Request)
    requires AllFit(SizeKinds(r), SizeValues(r))
    ensures AllFit([I4, I4], [r.Dof(), 3 * r.model.slices]) && Fits(I4, r.Dof())
    ensures Pack(SizeKinds(r), SizeValues(r))
      == Pack([I4, I4], [r.Dof(), 3 * r.model.slices]) + if r.mass == [] then [] else Write(I4, r.Dof())
  {
    hide Write, Fits;
    var n, f := r.Dof(), 3 * r.model.slices;
    assert Fits(SizeKinds(r)[0], SizeValues(r)[0]) && Fits(SizeKinds(r)[1], SizeValues(r)[1]);
    PackTwo(n, f);
    if r.mass != [] {
      assert Fits(SizeKinds(r)[2], SizeValues(r)[2]);
      PackThree(n, f, n);
    }
  }

  lemma PackTwo(a: int, b: int)
    requires Fits(I4, a) && Fits(I4, b)
    ensures Pack([I4, I4], [a, b]) == Write(I4, a) + Write(I4, b)
  {
    hide Write, Fits;
    assert [I4, I4][1..] == [I4] && [a, b][1..] == [b];
    assert Pack([I4], [b]) == Write(I4, b) + Pack([I4][1..], [b][1..]) == Write(I4, b) + Pack([], []);
  }

  lemma PackThree(a: int, b: int, c: int)
    requires Fits(I4, a) && Fits(I4, b) && Fits(I4, c)
    ensures Pack([I4, I4, I4], [a, b, c]) == Pack([I4, I4], [a, b]) + Write(I4, c)
  {
    hide Write, Fits;
    PackTwo(a, b);
    PackTwo(b, c);
    assert [I4, I4, I4][1..] == [I4, I4] && [a, b, c][1..] == [b, c];
  }

  // ----- the identity strings

  lemma FixedParses(id: Bytes, size: nat)
    requires ValidId(id, size)
    ensures ValidString(Fixed(id, size)) && StringValue(Fixed(id, size)) == id <==> Clean(id)
  {
    var s := Fixed(id, size);
    var k := FirstNul(s);
    assert s[..|id|] == id && s[|id|] == 0;
    if Clean(id) {
      assert k == |id|;
    }
  }

  predicate CleanIds(r: Request) {
    Clean(r.run) && Clean(r.case_) && Clean(r.producer) && Clean(r.consumer)
  }

  lemma IdsStand(sha: Bytes -> Bytes, r: Request)
    requires Fitting(r) && IsDigest(sha)
    ensures var s, l := Payload(sha, r), LayoutOf(r);
      l.arrays <= |s| && IdsAt(s, l.ids) == PaddedIds(r)
  {
    hide Payload, Size, ModelKinds, Pack, PackWords, PaddedIds;
    PartsHold(sha, r);
    IdsOfJoined(PaddedIds(r), Payload(sha, r), LayoutOf(r).ids);
  }

  lemma IdsOfJoined(ids: RawIds, s: Bytes, at: nat)
    requires ids.Sized() && Holds(s, at, ids.Joined())
    ensures at + IDS <= |s| && IdsAt(s, at) == ids
  {
    var rest := ids.producer + ids.consumer;
    HoldsParts(s, at, ids.run, ids.case_ + rest);
    HoldsParts(s, at + ID_RUN, ids.case_, rest);
    HoldsParts(s, at + ID_RUN + ID_CASE, ids.producer, ids.consumer);
  }

  lemma IdsParse(r: Request)
    requires ValidIds(r)
    ensures PaddedIds(r).Valid() && PaddedIds(r).Of(r) <==> CleanIds(r)
  {
    hide Fixed, ValidString, StringValue, Clean;
    FixedParses(r.run, ID_RUN);
    FixedParses(r.case_, ID_CASE);
    FixedParses(r.producer, ID_ENDPOINT);
    FixedParses(r.consumer, ID_ENDPOINT);
  }

  // ----- the tail of the frame, read in place or four bytes late

  predicate Admits(r: Request, expected: int, latch: Option<Latch>) {
    expected == r.sequence && (latch.None? || latch.value == Latch(r.run, r.case_))
  }

  lemma ArraysRead(s: Bytes, at: nat, values: seq<int>)
    requires Words(values) && Holds(s, at, PackWords(values)) && |s| == at + |PackWords(values)|
    ensures at + Size(Repeat(W8, |values|)) == |s| == at + 8 * |values|
    ensures Fields(Repeat(W8, |values|), s, at) == values && s[at..] == PackWords(values)
  {
    hide Fields, Pack, Size;
    SizeRepeat(W8, |values|);
    FieldsOfPacked(Repeat(W8, |values|), values, s, at);
  }

  lemma ArraysParse(sha: Bytes -> Bytes, r: Request)
    requires Fitting(r) && IsDigest(sha)
    ensures var s, l, count := Payload(sha, r), LayoutOf(r), |ArrayValues(r)|;
      && l.arrays + Size(Repeat(W8, count)) == |s| == l.arrays + 8 * count
      && Fields(Repeat(W8, count), s, l.arrays) == ArrayValues(r)
      && s[l.digest..l.arrays] == sha(s[l.model..l.sizes] + s[l.arrays..])
  {
    hide Payload, Fields, Pack, PackWords, ModelKinds, ArrayValues, Size;
    PartsHold(sha, r);
    ArraysRead(Payload(sha, r), LayoutOf(r).arrays, ArrayValues(r));
  }

  lemma SplitArrays(r: Request)
    requires ValidModel(r.model) && ValidArrays(r)
    ensures var n, k, x := r.Dof(), |r.mass|, ArrayValues(r);
      && |x| == 4 * n + k + 3 * r.model.slices
      && x[..n] == r.q && x[n..2 * n] == r.qdot && x[2 * n..3 * n] == r.qddot && x[3 * n..4 * n] == r.base
      && x[4 * n..4 * n + k] == r.mass && x[4 * n + k..] == r.force
  {
  }

  function Rows(r: Request): nat
    requires ValidModel(r.model)
  {
    if r.mass == [] then 0 else r.Dof()
  }

  lemma CountsAgree(r: Request)
    requires ValidModel(r.model) && ValidArrays(r) && Header(PrefixValues(r)).Valid()
    ensures ArrayCount(Header(PrefixValues(r)), Rows(r)) == |ArrayValues(r)|
  {
    hide Words, AllFinite;
  }

  /** The fields the parser puts together from what the printer wrote are those of the request. */
  lemma ArrangedBack(r: Request, ids: RawIds)
    requires Fitting(r) && Header(PrefixValues(r)).Valid()
    ensures |ModelValues(r.model)| == 15 + r.model.slices
    ensures ArrayCount(Header(PrefixValues(r)), Rows(r)) == |ArrayValues(r)|
    ensures Arranged(Header(PrefixValues(r)), ModelValues(r.model), ids, ArrayValues(r), Rows(r)) == r <==> ids.Of(r)
  {
    hide StringValue, AllFit, Words, AllFinite, ArrayValues, ValidIds, Header.Valid;
    CountsAgree(r);
    SplitArrays(r);
    var m := ModelValues(r.model);
    assert m[..13] == r.model.words && m[15..] == r.model.positions;
  }

  /** The parser of the tail, on a frame whose prefix and model are those of the request. */
  function TailAt(
    sha: Bytes -> Bytes, s: Bytes, model: Bytes, r: Request, expected: int, latch: Option<Latch>, rows: nat,
    offset: nat):
    Result<Request, nat>
    requires ValidModel(r.model) && Header(PrefixValues(r)).Valid() && offset <= |s|
  {
    ParseTail(sha, s, Header(PrefixValues(r)), model, ModelValues(r.model), expected, latch, rows, offset)
  }

  function ModelAt(s: Bytes, r: Request): Bytes
    requires ValidModel(r.model)
  {
    var l := LayoutOf(r);
    if l.sizes <= |s| then s[l.model..l.sizes] else []
  }

  /** Read in place, the tail gives the request back exactly when its four ids are clean. */
  lemma TailInPlace(sha: Bytes -> Bytes, r: Request, expected: int, latch: Option<Latch>)
    requires Complete(r) && IsDigest(sha) && Admits(r, expected, latch) && Header(PrefixValues(r)).Valid()
    ensures LayoutOf(r).ids <= |Payload(sha, r)|
    ensures var s := Payload(sha, r);
      TailAt(sha, s, ModelAt(s, r), r, expected, latch, Rows(r), LayoutOf(r).ids) == Ok(r) <==> CleanIds(r)
  {
    hide Payload, Fields, Size, Finite, ValidString, StringValue, Clean, ModelKinds, ArrayValues, Fixed, AllFit, Words,
         Arranged, PaddedIds, ModelValues, ArrayCount;
    IdsStand(sha, r);
    IdsParse(r);
    ArraysParse(sha, r);
    ArrangedBack(r, PaddedIds(r));
  }

  /** Read in place, a tail with clean ids is refused for its sequence number, its latched identity or a non-finite
      array entry, in this order, and otherwise gives the request back. */
  lemma TailOutcome(sha: Bytes -> Bytes, r: Request, expected: int, latch: Option<Latch>)
    requires Fitting(r) && IsDigest(sha) && CleanIds(r) && Header(PrefixValues(r)).Valid()
    ensures LayoutOf(r).ids <= |Payload(sha, r)|
    ensures var s := Payload(sha, r);
      TailAt(sha, s, ModelAt(s, r), r, expected, latch, Rows(r), LayoutOf(r).ids) == Outcome(r, expected, latch)
  {
    hide Payload, Fields, Size, Finite, ValidString, StringValue, Clean, ModelKinds, ArrayValues, Fixed, AllFit, Words,
         AllFinite, Arranged, PaddedIds, ModelValues, ArrayCount;
    IdsStand(sha, r);
    IdsParse(r);
    ArraysParse(sha, r);
    ArrangedBack(r, PaddedIds(r));
  }

  /** What a well-formed frame with clean ids comes to. */
  function Outcome(r: Request, expected: int, latch: Option<Latch>): Result<Request, nat> {
    if r.sequence != expected then Err(13)
    else if latch.Some? && (latch.value.run != r.run || latch.value.case_ != r.case_) then Err(14)
    else if AllFinite(ArrayValues(r)) then Ok(r)
    else Err(9)
  }

  /** Read four bytes late, a legacy frame is refused whatever number of mass rows was guessed. */
  lemma TailShifted(sha: Bytes -> Bytes, r: Request, expected: int, latch: Option<Latch>, rows: nat)
    requires Fitting(r) && IsDigest(sha) && r.mass == [] && Header(PrefixValues(r)).Valid()
    ensures LayoutOf(r).ids + 4 <= |Payload(sha, r)|
    ensures var s := Payload(sha, r);
      TailAt(sha, s, ModelAt(s, r), r, expected, latch, rows, LayoutOf(r).ids + 4).Err?
  {
    hide Payload, Fields, Finite, ValidString, StringValue, ModelKinds, ArrayValues, Size, Square, AllFit, Words,
         ModelValues, Arranged, RawIds.Valid;
    ArraysParse(sha, r);
    SplitArrays(r);
    SizeRepeat(W8, ArrayCount(Header(PrefixValues(r)), rows));
  }

  // ----- the round trip

  /** What the parser reads where a third size could stand, in a legacy frame: the head of the run id. */
  function Candidate(run: Bytes): int
    requires ValidId(run, ID_RUN)
  {
    Read(I4, Fixed(run, ID_RUN)[..4])
  }

  predicate Collides(r: Request)
    requires ValidId(r.run, ID_RUN)
  {
    r.mass == [] && Candidate(r.run) == r.Dof()
  }

  ghost predicate GuessReads(s: Bytes, at: nat, run: Bytes) {
    ValidId(run, ID_RUN) && at + 4 <= |s| && Read(I4, s[at..at + 4]) == Candidate(run)
  }

  lemma CandidateStands(sha: Bytes -> Bytes, r: Request)
    requires Fitting(r) && IsDigest(sha)
    ensures GuessReads(Payload(sha, r), LayoutOf(r).ids, r.run)
  {
    hide Payload, Read, Size, ModelKinds, ValidArrays, AllFit, Fixed;
    IdsStand(sha, r);
    CandidateOfIds(Payload(sha, r), LayoutOf(r).ids, r);
  }

  lemma CandidateOfIds(s: Bytes, at: nat, r: Request)
    requires ValidIds(r) && at + IDS <= |s| && IdsAt(s, at) == PaddedIds(r)
    ensures GuessReads(s, at, r.run)
  {
    hide Read, Fixed;
    PrefixOfSlice(s, at, ID_RUN, 4);
  }

  lemma PrefixOfSlice(s: Bytes, at: nat, n: nat, k: nat)
    requires k <= n && at + n <= |s|
    ensures s[at..at + n][..k] == s[at..at + k]
  {
  }

  lemma CandidateOfClean(run: Bytes)
    requires ValidId(run, ID_RUN) && Clean(run)
    ensures Candidate(run) != 0
    ensures |run| >= 3 && Candidate(run) > 0 ==> Candidate(run) >= 0x202020
  {
    var s := Fixed(run, ID_RUN)[..4];
    assert s[0] == run[0];
    assert s == [s[0], s[1], s[2], s[3]];
    assert s[1..] == [s[1], s[2], s[3]] && s[1..][1..] == [s[2], s[3]] && s[1..][1..][1..] == [s[3]];
    var a: int, b: int, c: int, d: int := s[0], s[1], s[2], s[3];
    assert FromLittle(s[1..][1..][1..]) == d && FromLittle(s[1..][1..]) == c + 256 * d;
    assert FromLittle(s) == a + 256 * (b + 256 * (c + 256 * d));
    if |run| >= 3 {
      assert s[1] == run[1] && s[2] == run[2];
    }
  }

  predicate Skips(r: Request)
    requires ValidId(r.run, ID_RUN)
  {
    r.mass == [] && (Candidate(r.run) == 0 || Candidate(r.run) == r.Dof())
  }

  function GuessedRows(r: Request): nat
    requires ValidModel(r.model) && ValidId(r.run, ID_RUN)
  {
    if Skips(r) then Candidate(r.run) else Rows(r)
  }

  function TailOffset(r: Request): nat
    requires ValidModel(r.model) && ValidId(r.run, ID_RUN)
  {
    if Skips(r) then LayoutOf(r).ids + 4 else LayoutOf(r).ids
  }

  ghost predicate ReachesTail(sha: Bytes -> Bytes, s: Bytes, r: Request, expected: int, latch: Option<Latch>) {
    && ValidModel(r.model) && ValidId(r.run, ID_RUN) && Header(PrefixValues(r)).Valid()
    && |s| == LayoutOf(r).arrays + 8 * |ArrayValues(r)| && TailOffset(r) <= |s|
    && Parse(sha, s, expected, latch)
      == TailAt(sha, s, ModelAt(s, r), r, expected, latch, GuessedRows(r), TailOffset(r))
  }

  /** The guess about the third size comes out as the head of the run id decides. */
  lemma GuessOfPrinted(s: Bytes, at: nat, r: Request)
    requires ValidModel(r.model) && SizesRead(s, at, r)
    requires GuessReads(s, at + SizesWidth(r), r.run)
    ensures MassGuess(s, at + 8, r.Dof()) == (GuessedRows(r), at + SizesWidth(r) + if Skips(r) then 4 else 0)
  {
    hide Size, Fields, Read, Candidate;
  }

  function SizesWidth(r: Request): nat {
    if r.mass == [] then 8 else 12
  }

  lemma SizesLength(r: Request)
    ensures Size(SizeKinds(r)) == SizesWidth(r)
  {
    SizesOfSizes();
  }

  /** Parsing a printed frame comes down to its tail, at the place the guess leads to. */
  lemma ParseReachesTail(sha: Bytes -> Bytes, r: Request, expected: int, latch: Option<Latch>)
    requires Fitting(r) && IsDigest(sha)
    ensures ReachesTail(sha, Payload(sha, r), r, expected, latch)
  {
    hide Payload, Fields, Read, Finite, ParseTail, ModelKinds, Size, ArrayValues, ModelValues, SizeKinds, MassGuess,
         AllFit, Words, AllFinite;
    HeaderParses(sha, r);
    ModelParses(sha, r);
    ArraysParse(sha, r);
    CandidateStands(sha, r);
    SizesLength(r);
    SizesStand(sha, r);
    GuessOfPrinted(Payload(sha, r), LayoutOf(r).sizes, r);
  }

  lemma SizesStand(sha: Bytes -> Bytes, r: Request)
    requires Fitting(r) && IsDigest(sha)
    ensures SizesRead(Payload(sha, r), LayoutOf(r).sizes, r)
  {
    hide Payload, SizesRead, LayoutOf, ModelBytes, Pack, PackWords, Holds;
    PartsHold(sha, r);
    SizesParse(Payload(sha, r), LayoutOf(r).sizes, r);
  }

  lemma CompleteHas(r: Request)
    requires Fitting(r)
    ensures ValidIds(r) && ValidModel(r.model)
  {
  }

  lemma PayloadRoundTrip(sha: Bytes -> Bytes, r: Request, expected: int, latch: Option<Latch>)
    requires Complete(r) && IsDigest(sha) && Admits(r, expected, latch)
    ensures Parse(sha, Payload(sha, r), expected, latch) == Ok(r) <==> CleanIds(r) && !Collides(r)
  {
    hide Payload, Parse, ParseTail, LayoutOf, Clean, Candidate, Fitting, ValidModel;
    CompleteHas(r);
    ParseReachesTail(sha, r, expected, latch);
    if Skips(r) {
      TailShifted(sha, r, expected, latch, Candidate(r.run));
      if Clean(r.run) {
        CandidateOfClean(r.run);
      }
    } else {
      TailInPlace(sha, r, expected, latch);
    }
  }

  /** A frame with clean ids that does not collide is refused for its sequence number, its latched identity or a
      non-finite array entry, and otherwise parsed to its fields. */
  lemma FrameOutcome(sha: Bytes -> Bytes, r: Request, expected: int, latch: Option<Latch>)
    requires Fitting(r) && IsDigest(sha) && CleanIds(r)
    ensures ValidIds(r)
    ensures !Collides(r) ==> Parse(sha, Payload(sha, r), expected, latch) == Outcome(r, expected, latch)
  {
    hide Payload, Parse, ParseTail, LayoutOf, Clean, Candidate, Fitting, ValidModel, Outcome;
    CompleteHas(r);
    CandidateOfClean(r.run);
    ParseReachesTail(sha, r, expected, latch);
    if !Skips(r) {
      TailOutcome(sha, r, expected, latch);
    }
  }

  /** A printed frame parses back to exactly its fields, with the slice positions filled in, if and only if its ids are
      free of control characters and its run id does not read as the mass size. */
  lemma RoundTrip(sha: Bytes -> Bytes, sound: (Model, int) -> bool, spacing: Model -> seq<int>, r: Request,
                  expected: int, latch: Option<Latch>)
    requires Encodable(sound, spacing, r) && IsDigest(sha) && Admits(r, expected, latch)
    ensures ValidIds(r)
    ensures Parse(sha, Print(sha, spacing, r), expected, latch) == Ok(Filled(spacing, r)) <==>
      CleanIds(r) && !Collides(r)
  {
    hide Payload, Parse, Clean, Candidate, Fitting;
    CompleteHas(Filled(spacing, r));
    PayloadRoundTrip(sha, Filled(spacing, r), expected, latch);
  }

  lemma FrameIsLong(sha: Bytes -> Bytes, r: Request)
    requires Fitting(r) && IsDigest(sha)
    ensures |Payload(sha, r)| >= 32 * r.Dof()
  {
    hide Payload, Size, ModelKinds, Fields;
    ArraysParse(sha, r);
    SplitArrays(r);
  }

  /** Within the frame limit only a run id of one or two bytes can read as the mass size. */
  lemma OnlyShortIdsCollide(sha: Bytes -> Bytes, spacing: Model -> seq<int>, r: Request)
    requires Complete(Filled(spacing, r)) && IsDigest(sha)
    ensures ValidIds(r)
    ensures |Print(sha, spacing, r)| <= FRAME_LIMIT && CleanIds(r) && Collides(r) ==> |r.run| <= 2
  {
    hide Payload, Candidate, Fitting;
    CompleteHas(Filled(spacing, r));
    FrameIsLong(sha, Filled(spacing, r));
    if Clean(r.run) {
      CandidateOfClean(r.run);
    }
  }

  /** Every frame within the limit whose ids are clean and whose run id has three bytes or more survives the round trip,
      in both layouts. */
  lemma LongIdsRoundTrip(sha: Bytes -> Bytes, sound: (Model, int) -> bool, spacing: Model -> seq<int>, r: Request,
                         expected: int, latch: Option<Latch>)
    requires Encodable(sound, spacing, r) && IsDigest(sha) && Admits(r, expected, latch)
    ensures |Print(sha, spacing, r)| <= FRAME_LIMIT && CleanIds(r) && |r.run| >= 3 ==>
      Parse(sha, Print(sha, spacing, r), expected, latch) == Ok(Filled(spacing, r))
  {
    hide Payload, Print, Parse, Candidate, Complete, Filled;
    RoundTrip(sha, sound, spacing, r, expected, latch);
    OnlyShortIdsCollide(sha, spacing, r);
  }

  /** Read four bytes late, a run id of one or two bytes starts with its terminator. */
  lemma ReadLate(s: Bytes, at: nat, run: Bytes)
    requires ValidId(run, ID_RUN) && |run| <= 2 && at + 4 + IDS <= |s| && IdsAt(s, at).run == Fixed(run, ID_RUN)
    ensures !IdsAt(s, at + 4).Valid()
  {
    var late := IdsAt(s, at + 4).run;
    assert late[0] == s[at + 4];
    assert s[at + 4] == IdsAt(s, at).run[4];
    assert Fixed(run, ID_RUN)[4] == 0;
    assert FirstNul(late) == 0;
  }

  lemma TailRefusesIds(
    sha: Bytes -> Bytes, s: Bytes, model: Bytes, r: Request, expected: int, latch: Option<Latch>, rows: nat,
    offset: nat)
    requires ValidModel(r.model) && Header(PrefixValues(r)).Valid() && offset + IDS + DIGEST <= |s|
    requires !IdsAt(s, offset).Valid()
    ensures TailAt(sha, s, model, r, expected, latch, rows, offset) == Err(7)
  {
    hide RawIds.Valid, IdsAt, ParseArrays;
  }

  /** A colliding frame is refused for its run id, never misread. */
  lemma CollidingIsRefused(
    sha: Bytes -> Bytes, spacing: Model -> seq<int>, r: Request, expected: int, latch: Option<Latch>)
    requires Complete(Filled(spacing, r)) && IsDigest(sha)
    ensures ValidIds(r)
    ensures |Print(sha, spacing, r)| <= FRAME_LIMIT && CleanIds(r) && Collides(r) ==>
      Parse(sha, Print(sha, spacing, r), expected, latch) == Err(7)
  {
    hide Payload, Parse, Candidate, ArrayValues, ModelValues, Size, ModelKinds, Finite, Fields, IdsAt, RawIds.Valid,
         AllFit, Words, AllFinite, TailAt, ModelAt;
    var q := Filled(spacing, r);
    OnlyShortIdsCollide(sha, spacing, r);
    if |Print(sha, spacing, r)| <= FRAME_LIMIT && CleanIds(r) && Collides(r) {
      ParseReachesTail(sha, q, expected, latch);
      IdsStand(sha, q);
      SplitArrays(q);
      ReadLate(Payload(sha, q), LayoutOf(q).ids, q.run);
      var s := Payload(sha, q);
      TailRefusesIds(sha, s, ModelAt(s, q), q, expected, latch, GuessedRows(q), TailOffset(q));
    }
  }

  /** Collisions exist: the one-byte run id "B" is the number 66, the dof of a ten-element model. */
  lemma ShortIdCollides(r: Request)
    requires r.run == [66] && r.mass == [] && r.model.elements == 10
    ensures ValidId(r.run, ID_RUN) && Clean(r.run) && Collides(r)
  {
    var s := Fixed(r.run, ID_RUN)[..4];
    assert s == [66, 0, 0, 0];
    ZerosReadZero(s[1..]);
    assert FromLittle(s) == 66;
  }

  lemma {:induction false} ZerosReadZero(s: Bytes)
    requires forall i :: 0 <= i < |s| ==> s[i] == 0
    ensures FromLittle(s) == 0
    decreases |s|
  {
    if s != [] {
      ZerosReadZero(s[1..]);
    }
  }

  /** Slice positions that were given come back as they are; where none were given, the default ones come back. */
  lemma PositionsComeBack(sha: Bytes -> Bytes, sound: (Model, int) -> bool, spacing: Model -> seq<int>, r: Request,
                          latch: Option<Latch>)
    requires Encodable(sound, spacing, r) && IsDigest(sha) && Admits(r, r.sequence, latch)
    ensures ValidIds(r)
    ensures var parsed := Parse(sha, Print(sha, spacing, r), r.sequence, latch);
      CleanIds(r) && !Collides(r) ==>
        && (|r.model.positions| > 0 ==> parsed == Ok(r))
        && (|r.model.positions| == 0 ==> parsed == Ok(r.(model := r.model.(positions := spacing(r.model)))))
  {
    hide Payload, Print, Parse, Clean, Candidate, Fitting;
    RoundTrip(sha, sound, spacing, r, r.sequence, latch);
  }
}
