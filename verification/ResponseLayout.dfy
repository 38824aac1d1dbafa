/**
 The worker's frames byte by byte: the answer it prints, what the client's decoder takes from one and when it refuses
 it, and the turns of the frame loop with their exit codes.
 */
module ResponseLayout {
  import opened Wrappers
  import opened Packing
  import opened KernelProtocol
  import opened RequestRoundTrip
  import opened KernelWorker
  import opened WireLayout

  // ----- the record in front of an answer

  lemma ResponseSizes()
    ensures Ends(RESPONSE, 0, 0) && Ends(RESPONSE, 1, 4) && Ends(RESPONSE, 2, 8) && Ends(RESPONSE, 3, 12)
    ensures Ends(RESPONSE, 4, 16) && Ends(RESPONSE, 5, 20) && Ends(RESPONSE, 6, 28) && Ends(RESPONSE, 7, 36)
    ensures Ends(RESPONSE, 8, 40) && Ends(RESPONSE, 9, 44) && Ends(RESPONSE, 10, 48) && Ends(RESPONSE, 11, 56)
    ensures Ends(RESPONSE, 12, 64) && Ends(RESPONSE, 13, 72) && Ends(RESPONSE, 14, 76) && Size(RESPONSE) == 76
  {
    hide Ends;
    EndsFirst(RESPONSE);
    EndsNext(RESPONSE, 0, 0);
    EndsNext(RESPONSE, 1, 4);
    EndsNext(RESPONSE, 2, 8);
    EndsNext(RESPONSE, 3, 12);
    EndsNext(RESPONSE, 4, 16);
    EndsNext(RESPONSE, 5, 20);
    EndsNext(RESPONSE, 6, 28);
    EndsNext(RESPONSE, 7, 36);
    EndsNext(RESPONSE, 8, 40);
    EndsNext(RESPONSE, 9, 44);
    EndsNext(RESPONSE, 10, 48);
    EndsNext(RESPONSE, 11, 56);
    EndsNext(RESPONSE, 12, 64);
    EndsNext(RESPONSE, 13, 72);
    EndsWhole(RESPONSE, 76);
  }

  /** The fourteen fields in front of the ids. */
  lemma ResponseInBytes(s: Bytes)
    requires |s| >= 76
    ensures Size(RESPONSE) == 76
    ensures Fields(RESPONSE, s, 0) == [
      U32(s, 0), U32(s, 4), U32(s, 8), I32(s, 12), I32(s, 16), U64(s, 20), U64(s, 28), I32(s, 36), I32(s, 40),
      I32(s, 44), U64(s, 48), U64(s, 56), U64(s, 64), U32(s, 72)]
  {
    hide Ends, Size, Fields, U32, I32, U64;
    ResponseSizes();
    FieldOf(RESPONSE, s, 0, 0, 0);
    FieldOf(RESPONSE, s, 0, 1, 4);
    FieldOf(RESPONSE, s, 0, 2, 8);
    FieldOf(RESPONSE, s, 0, 3, 12);
    FieldOf(RESPONSE, s, 0, 4, 16);
    FieldOf(RESPONSE, s, 0, 5, 20);
    FieldOf(RESPONSE, s, 0, 6, 28);
    FieldOf(RESPONSE, s, 0, 7, 36);
    FieldOf(RESPONSE, s, 0, 8, 40);
    FieldOf(RESPONSE, s, 0, 9, 44);
    FieldOf(RESPONSE, s, 0, 10, 48);
    FieldOf(RESPONSE, s, 0, 11, 56);
    FieldOf(RESPONSE, s, 0, 12, 64);
    FieldOf(RESPONSE, s, 0, 13, 72);
  }

  /** The four fields behind the arrays. */
  lemma TrailerInBytes(s: Bytes, t: nat)
    requires |s| >= t + 28
    ensures Size(TRAILER) == 28
    ensures Fields(TRAILER, s, t) == [U64(s, t), U64(s, t + 8), U64(s, t + 16), U32(s, t + 24)]
  {
    hide Ends, Size, Fields, U32, U64;
    TrailerSizes();
    FieldOf(TRAILER, s, t, 0, 0);
    FieldOf(TRAILER, s, t, 1, 8);
    FieldOf(TRAILER, s, t, 2, 16);
    FieldOf(TRAILER, s, t, 3, 24);
  }

  lemma TrailerSizes()
    ensures Ends(TRAILER, 0, 0) && Ends(TRAILER, 1, 8) && Ends(TRAILER, 2, 16) && Ends(TRAILER, 3, 24)
    ensures Size(TRAILER) == 28
  {
    hide Ends;
    EndsFirst(TRAILER);
    EndsNext(TRAILER, 0, 0);
    EndsNext(TRAILER, 1, 8);
    EndsNext(TRAILER, 2, 16);
    EndsNext(TRAILER, 3, 24);
    EndsWhole(TRAILER, 28);
  }

  /** The header of a frame: magic, length of the payload, message type. */
  lemma HeaderInBytes(f: Bytes)
    requires |f| >= 16
    ensures Size(FRAME) == 16 && Fields(FRAME, f, 0) == [U64(f, 0), U32(f, 8), U32(f, 12)]
  {
    hide Ends, Size, Fields, U32, U64;
    FrameSizes();
    FieldOf(FRAME, f, 0, 0, 0);
    FieldOf(FRAME, f, 0, 1, 8);
    FieldOf(FRAME, f, 0, 2, 12);
  }

  lemma FrameSizes()
    ensures Ends(FRAME, 0, 0) && Ends(FRAME, 1, 8) && Ends(FRAME, 2, 12) && Size(FRAME) == 16
  {
    hide Ends;
    EndsFirst(FRAME);
    EndsNext(FRAME, 0, 0);
    EndsNext(FRAME, 1, 8);
    EndsNext(FRAME, 2, 12);
    EndsWhole(FRAME, 16);
  }

  // ----- the decoder

  /** Why the decoder refuses the body of an answer: ids at 76, digest at 268, eight vectors from 300 on, trailer. */
  ghost function BodyRefusal(s: Bytes): Option<FrameError> {
    if |s| < 300 then Some(Truncated)
    else if U32(s, 0) != 1 || U32(s, 4) != 1 || I32(s, 36) <= 0 then Some(BadSchema)
    else if |s| != 328 + 64 * I32(s, 36) then Some(BadLength)
    else if !IsFinite(U64(s, 28)) || !IsFinite(U64(s, 48)) then Some(NotFinite)
    else if exists i: nat :: i < 8 * I32(s, 36) && !IsFinite(U64(s, 300 + 8 * i)) then Some(NotFinite)
    else None
  }

  /** Why the decoder refuses a frame: "CFDANCF1" in front, the length of the rest, message type 6. */
  ghost function Refusal(f: Bytes): Option<FrameError> {
    if |f| < 16 then Some(Truncated)
    else if f[..8] != [67, 70, 68, 65, 78, 67, 70, 49] || U32(f, 8) != |f| - 16 || U32(f, 12) != 6 then Some(BadHeader)
    else BodyRefusal(f[16..])
  }

  /** The field of `size` bytes up to its first zero, or the whole field. */
  ghost predicate UpToZero(s: Bytes, at: nat, size: nat, id: Bytes)
    requires at + size <= |s|
  {
    && |id| <= size && s[at..at + |id|] == id && (forall i :: 0 <= i < |id| ==> id[i] != 0)
    && (|id| < size ==> s[at + |id|] == 0)
  }

  lemma StringIsUpToZero(s: Bytes, at: nat, size: nat)
    requires at + size <= |s|
    ensures UpToZero(s, at, size, StringValue(s[at..at + size]))
  {
    var f := s[at..at + size];
    var k := FirstNul(f);
    assert f[..k] == s[at..at + k];
    assert k < size ==> f[k] == s[at + k];
  }

  predicate NumbersStand(s: Bytes, x: Response)
    requires |s| >= 300
  {
    && x.sequence == U32(s, 8) && x.globalStep == I32(s, 12) && x.bridgeStep == I32(s, 16) && x.tick == U64(s, 20)
    && x.time == U64(s, 28) && x.code == I32(s, 40) && x.iterations == I32(s, 44) && x.residual == U64(s, 48)
    && x.transactionId == U64(s, 56) && x.requestId == U64(s, 64) && x.ack == U32(s, 72)
  }

  ghost predicate NamesStand(s: Bytes, x: Response)
    requires |s| >= 300
  {
    && UpToZero(s, 76, 64, x.run) && UpToZero(s, 140, 64, x.case_)
    && UpToZero(s, 204, 32, x.producer) && UpToZero(s, 236, 32, x.consumer) && x.digest == s[268..300]
  }

  /** The eight vectors, of `n` words each. */
  predicate VectorsStandIn(s: Bytes, v: seq<seq<int>>, n: nat) {
    |v| == 8 && forall j: nat :: j < 8 ==> |v[j]| == n && WordsStand(s, 300 + 8 * (j * n), v[j])
  }

  predicate CheckpointStands(s: Bytes, x: Response, t: nat)
    requires |s| >= t + 28
  {
    && x.checkpointStep == U64(s, t) && x.checkpointTime == U64(s, t + 8) && x.checkpointTick == U64(s, t + 16)
    && (x.audited <==> U32(s, t + 24) != 0)
  }

  /** What the decoder takes from the body of an answer. */
  ghost predicate AnswerStands(s: Bytes, x: Response) {
    && |s| >= 300 && I32(s, 36) > 0 && |s| == 328 + 64 * I32(s, 36)
    && NumbersStand(s, x) && NamesStand(s, x) && VectorsStandIn(s, x.vectors, I32(s, 36))
    && CheckpointStands(s, x, 300 + 64 * I32(s, 36))
  }

  lemma VectorsFinite(s: Bytes, n: nat)
    requires |s| == 328 + 64 * n
    ensures Size(Repeat(W8, 8 * n)) == 64 * n && WordsStand(s, 300, Fields(Repeat(W8, 8 * n), s, 300))
    ensures AllFinite(Fields(Repeat(W8, 8 * n), s, 300))
      <==> !exists i: nat :: i < 8 * n && !IsFinite(U64(s, 300 + 8 * i))
  {
    hide Fields, Size, U64, Finite, IsFinite;
    SizeRepeat(W8, 8 * n);
    forall i: nat | i < 8 * n
      ensures Fields(Repeat(W8, 8 * n), s, 300)[i] == U64(s, 300 + 8 * i)
      ensures Finite(U64(s, 300 + 8 * i)) <==> IsFinite(U64(s, 300 + 8 * i))
    {
      RepeatedField(8 * n, s, 300, i);
      WordRange(s, 300 + 8 * i);
      FiniteIs(U64(s, 300 + 8 * i));
    }
  }

  lemma BodyInBytes(s: Bytes)
    ensures match DecodeBody(s)
      case Err(error) => BodyRefusal(s) == Some(error)
      case Ok(x) => BodyRefusal(s).None? && AnswerStands(s, x)
  {
    hide Fields, Size, U32, I32, U64, Finite, IsFinite, AllFinite, Collected, AnswerStands, IdsAt;
    ResponseSizes();
    TrailerSizes();
    if |s| >= 300 {
      ResponseInBytes(s);
      var n := I32(s, 36);
      if n > 0 {
        SizeRepeat(W8, 8 * n);
        if |s| == 328 + 64 * n {
          VectorsFinite(s, n);
          WordRange(s, 28);
          FiniteIs(U64(s, 28));
          WordRange(s, 48);
          FiniteIs(U64(s, 48));
          CollectedStands(s);
        }
      }
    }
  }

  lemma CollectedStands(s: Bytes)
    requires |s| >= 300 && I32(s, 36) > 0 && |s| == 328 + 64 * I32(s, 36)
    requires Size(RESPONSE) == 76 && Size(TRAILER) == 28 && Size(Repeat(W8, 8 * I32(s, 36))) == 64 * I32(s, 36)
    requires Fields(RESPONSE, s, 0)[7] == I32(s, 36)
    ensures var n := I32(s, 36);
      AnswerStands(s, Collected(Fields(RESPONSE, s, 0), IdsAt(s, 76), s[268..300], Fields(Repeat(W8, 8 * n), s, 300),
                                Fields(TRAILER, s, 300 + 64 * n)))
  {
    hide Fields, Size, U32, I32, U64, IsFinite, AllFinite, StringValue, Vectors, IdsAt, NumbersStand, NamesStand,
         VectorsStandIn, CheckpointStands;
    var n := I32(s, 36);
    var v, values, t := Fields(RESPONSE, s, 0), Fields(Repeat(W8, 8 * n), s, 300), Fields(TRAILER, s, 300 + 64 * n);
    VectorsFinite(s, n);
    VectorsStand(s, n, values);
    CollectedParts(s, n, v, values, t);
  }

  lemma CollectedParts(s: Bytes, n: nat, v: seq<int>, values: seq<int>, t: seq<int>)
    requires |s| == 328 + 64 * n && n > 0 && Size(RESPONSE) == 76 && Size(TRAILER) == 28 && |values| == 8 * n
    requires v == Fields(RESPONSE, s, 0) && v[7] == n && t == Fields(TRAILER, s, 300 + 64 * n)
    ensures var x := Collected(v, IdsAt(s, 76), s[268..300], values, t);
      && NumbersStand(s, x) && NamesStand(s, x) && x.vectors == Vectors(values, n)
      && CheckpointStands(s, x, 300 + 64 * n)
  {
    hide Fields, Size, U32, I32, U64, StringValue, Vectors, UpToZero;
    ResponseInBytes(s);
    TrailerInBytes(s, 300 + 64 * n);
    StringIsUpToZero(s, 76, 64);
    StringIsUpToZero(s, 140, 64);
    StringIsUpToZero(s, 204, 32);
    StringIsUpToZero(s, 236, 32);
  }

  lemma VectorsStand(s: Bytes, n: nat, values: seq<int>)
    requires |values| == 8 * n && WordsStand(s, 300, values)
    ensures VectorsStandIn(s, Vectors(values, n), n)
  {
    hide WordsStand, Vectors;
    forall j: nat | j < 8
      ensures |Vectors(values, n)[j]| == n && WordsStand(s, 300 + 8 * (j * n), Vectors(values, n)[j])
    {
      var i := j * n;
      assert i + n <= 8 * n by {
        assert (8 - j) * n >= n;
      }
      VectorAt(values, n, j, i);
      StretchStands(s, 300, values, i, i + n, 300 + 8 * i);
    }
  }

  lemma VectorAt(values: seq<int>, n: nat, j: nat, i: nat)
    requires |values| == 8 * n && j < 8 && i == j * n && i + n <= 8 * n
    ensures Vectors(values, n)[j] == values[i..i + n]
  {
    assert values[0..n] == values[..n] && values[7 * n..8 * n] == values[7 * n..];
  }

  /** The decoder refuses a frame for the reason its bytes give, and otherwise takes every field from its place. */
  lemma DecodeInBytes(f: Bytes)
    ensures match Decode(f)
      case Err(error) => Refusal(f) == Some(error)
      case Ok(x) => Refusal(f).None? && AnswerStands(f[16..], x)
  {
    hide Fields, Size, U32, I32, U64, DecodeBody, BodyRefusal, AnswerStands;
    FrameSizes();
    if |f| >= 16 {
      HeaderInBytes(f);
      MagicInBytes(f);
      BodyInBytes(f[16..]);
    }
  }

  /** The magic number is the text "CFDANCF1". */
  lemma MagicInBytes(f: Bytes)
    requires |f| >= 8
    ensures U64(f, 0) == MAGIC <==> f[..8] == [67, 70, 68, 65, 78, 67, 70, 49]
  {
    assert f[..8] == [f[0], f[1], f[2], f[3], f[4], f[5], f[6], f[7]];
    var low, high := U32(f, 0), U32(f, 4);
    assert 0 <= low < 4294967296 && U64(f, 0) == low + 4294967296 * high;
    assert U64(f, 0) == MAGIC <==> low == 0x4144_4643 && high == 0x3146_434E;
    BytesOf(f, 0, 67, 70, 68, 65);
    BytesOf(f, 4, 78, 67, 70, 49);
  }

  lemma BytesOf(f: Bytes, i: nat, a: Byte, b: Byte, c: Byte, d: Byte)
    requires i + 4 <= |f|
    ensures U32(f, i) == a + 256 * b + 65536 * c + 16777216 * d
      <==> f[i] == a && f[i + 1] == b && f[i + 2] == c && f[i + 3] == d
  {
    var x: int, y: int, z: int, w: int := f[i], f[i + 1], f[i + 2], f[i + 3];
    assert U32(f, i) == x + 256 * (y + 256 * (z + 256 * w));
    hide U32;
    LowestByte(f[i], a, y + 256 * (z + 256 * w), b + 256 * (c + 256 * d));
    LowestByte(f[i + 1], b, z + 256 * w, c + 256 * d);
    LowestByte(f[i + 2], c, w, d);
  }

  lemma LowestByte(x: Byte, a: Byte, high: int, rest: int)
    ensures x + 256 * high == a + 256 * rest <==> x == a && high == rest
  {
  }

  // ----- the answer the worker prints

  /** The bytes of the answer to a request with `n` coordinates. */
  ghost predicate Answers(sha: Bytes -> Bytes, s: Bytes, r: Request, raw: RawIds, x: Output, n: nat) {
    && |s| == 328 + 64 * n && U32(s, 0) == 1 && U32(s, 4) == 1
    && U32(s, 8) == r.sequence && I32(s, 12) == r.globalStep && I32(s, 16) == r.bridgeStep && U64(s, 20) == r.tick
    && U64(s, 28) == r.time && I32(s, 36) == n && I32(s, 40) == 0 && I32(s, 44) == x.iterations
    && U64(s, 48) == x.residual && U64(s, 56) == r.transactionId && U64(s, 64) == r.requestId && U32(s, 72) == 1
    && s[76..140] == raw.run && s[140..204] == raw.case_ && s[204..236] == raw.consumer && s[236..268] == raw.producer
    && s[268..300] == sha(s[300..300 + 64 * n])
    && WordsStand(s, 300, x.q) && WordsStand(s, 300 + 8 * n, x.qdot) && WordsStand(s, 300 + 16 * n, x.qddot)
    && WordsStand(s, 300 + 24 * n, x.internal) && WordsStand(s, 300 + 32 * n, x.generalized)
    && WordsStand(s, 300 + 40 * n, x.generalized) && WordsStand(s, 300 + 48 * n, x.predictor)
    && WordsStand(s, 300 + 56 * n, x.q)
    && U64(s, 300 + 64 * n) == r.globalStep && U64(s, 308 + 64 * n) == r.time && U64(s, 316 + 64 * n) == r.tick
    && U32(s, 324 + 64 * n) == 1
  }

  lemma StepFits(r: Request, raw: RawIds, x: Output)
    requires Printable(r, raw, x) && r.globalStep >= 0
    ensures CheckpointStep(r.globalStep) == r.globalStep
  {
    hide RawIds.Of, RawIds.Sized, ValidOutput;
    assert Fits(RESPONSE[3], ResponseValues(r, x)[3]);
    StepComesBack(r.globalStep);
  }

  lemma PartsAt(sha: Bytes -> Bytes, s: Bytes, r: Request, raw: RawIds, x: Output, n: nat)
    requires Printable(r, raw, x) && r.Dof() == n > 0 && ResponseParts(sha, s, r, raw, x)
    ensures Words(OutputArrays(x)) && |s| == 328 + 64 * n
    ensures Holds(s, 0, Pack(RESPONSE, ResponseValues(r, x))) && Holds(s, 76, Returned(raw).Joined())
    ensures Holds(s, 268, sha(PackWords(OutputArrays(x)))) && Holds(s, 300, PackWords(OutputArrays(x)))
    ensures Holds(s, 300 + 64 * n, Pack(TRAILER, TrailerValues(r)))
  {
    hide Size, Holds, Pack, PackWords, OutputArrays, RawIds.Joined, RawIds.Of, Words, AllFit, ResponseValues,
         TrailerValues, Returned;
    ResponseSizes();
    TrailerSizes();
    SizeRepeat(W8, 8 * n);
  }

  /** Ids, digest and arrays stand where the sizes of the parts put them. */
  lemma PartsInPlace(sha: Bytes -> Bytes, s: Bytes, raw: RawIds, x: Output, n: nat)
    requires IsDigest(sha) && raw.Sized() && Words(OutputArrays(x)) && |OutputArrays(x)| == 8 * n
    requires Holds(s, 76, Returned(raw).Joined()) && Holds(s, 268, sha(PackWords(OutputArrays(x))))
    requires Holds(s, 300, PackWords(OutputArrays(x))) && |s| == 328 + 64 * n
    ensures IdsAt(s, 76) == Returned(raw) && Size(Repeat(W8, 8 * n)) == 64 * n
    ensures s[268..300] == sha(s[300..300 + 64 * n]) && Fields(Repeat(W8, 8 * n), s, 300) == OutputArrays(x)
  {
    hide Fields, Size, Pack, PackWords, OutputArrays, RawIds.Joined, Words, IdsAt, Returned, Holds, IsDigest;
    SizeRepeat(W8, 8 * n);
    SizedBack(raw);
    IdsOfJoined(Returned(raw), s, 76);
    ArraysAt(s, 300, OutputArrays(x));
    DigestAt(sha, s, PackWords(OutputArrays(x)), n);
  }

  lemma DigestAt(sha: Bytes -> Bytes, s: Bytes, arrays: Bytes, n: nat)
    requires IsDigest(sha) && |arrays| == 64 * n && |s| == 328 + 64 * n
    requires Holds(s, 268, sha(arrays)) && Holds(s, 300, arrays)
    ensures s[268..300] == sha(s[300..300 + 64 * n])
  {
    assert |sha(arrays)| == 32;
  }

  lemma OutputFits(x: Output, n: nat)
    requires ValidOutput(x, n)
    ensures Words(OutputArrays(x)) && |OutputArrays(x)| == 8 * n
  {
    OutputLength(x, n);
  }

  /** The eight vectors, the generalized force twice and the new position at both ends. */
  lemma OutputStands(s: Bytes, x: Output, n: nat)
    requires |s| == 328 + 64 * n && Size(Repeat(W8, 8 * n)) == 64 * n && ValidOutput(x, n)
    requires Fields(Repeat(W8, 8 * n), s, 300) == OutputArrays(x)
    ensures WordsStand(s, 300, x.q) && WordsStand(s, 300 + 8 * n, x.qdot) && WordsStand(s, 300 + 16 * n, x.qddot)
    ensures WordsStand(s, 300 + 24 * n, x.internal) && WordsStand(s, 300 + 32 * n, x.generalized)
    ensures WordsStand(s, 300 + 40 * n, x.generalized) && WordsStand(s, 300 + 48 * n, x.predictor)
    ensures WordsStand(s, 300 + 56 * n, x.q)
  {
    hide Fields, Size, OutputArrays, WordsStand, Vectors, ValidOutput;
    VectorsFinite(s, n);
    OutputVectors(x, n);
    var v := Vectors(OutputArrays(x), n);
    VectorsStand(s, n, OutputArrays(x));
    assert v[0] == x.q && v[1] == x.qdot && v[2] == x.qddot && v[3] == x.internal;
    assert v[4] == v[5] == x.generalized && v[6] == x.predictor && v[7] == x.q;
  }

  /** An answer says in its bytes which request it answers, with which result and checkpoint. */
  lemma AnswerInBytes(sha: Bytes -> Bytes, r: Request, raw: RawIds, x: Output)
    requires IsDigest(sha) && Printable(r, raw, x) && r.Dof() > 0 && r.globalStep >= 0
    ensures Answers(sha, ResponsePayload(sha, r, raw, x), r, raw, x, r.Dof())
  {
    hide ResponsePayload, Fields, Size, Pack, OutputArrays, Words, U32, I32, U64, WordsStand, Holds, RawIds.Of,
         ResponseParts, AllFit, ValidOutput, PackWords;
    var s, n := ResponsePayload(sha, r, raw, x), r.Dof();
    ResponsePartsHold(sha, r, raw, x);
    PartsAt(sha, s, r, raw, x, n);
    OutputFits(x, n);
    PartsInPlace(sha, s, raw, x, n);
    FieldsOfPacked(RESPONSE, ResponseValues(r, x), s, 0);
    FieldsOfPacked(TRAILER, TrailerValues(r), s, 300 + 64 * n);
    ResponseInBytes(s);
    TrailerInBytes(s, 300 + 64 * n);
    OutputStands(s, x, n);
    StepFits(r, raw, x);
  }

  // ----- the frame loop

  /** One turn of the frame loop, in the bytes of the input. */
  lemma ServeInBytes(sha: Bytes -> Bytes, kernel: Request -> Result<Output, nat>, w: WorkerState, input: Bytes)
    requires w.exit == None
    ensures var (v, answer) := Serve(sha, kernel, w, input);
      if |input| < 8 then v == w.(exit := Some(0)) && answer == None
      else if |input| < 16 || input[..8] != [67, 70, 68, 65, 78, 67, 70, 49] then
        v == w.(exit := Some(2)) && answer == None
      else if U32(input, 8) > 67108864 then v == w.(exit := Some(3)) && answer == None
      else if U32(input, 12) == 3 then v == w.(exit := Some(if U32(input, 8) != 0 then 4 else 0)) && answer == None
      else if U32(input, 12) == 4 then v == w.(exit := if U32(input, 8) != 0 then Some(4) else None) && answer == None
      else if U32(input, 12) != 5 then v == w.(exit := Some(5)) && answer == None
      else if 16 + U32(input, 8) > |input| then v == w.(exit := Some(6)) && answer == None
      else U32(input, 8) >= 0 && (v, answer) == Answer(sha, kernel, w, input[16..16 + U32(input, 8)])
  {
    hide Fields, Size, U64, Answer;
    FrameSizes();
    if |input| >= 16 {
      HeaderInBytes(input);
      MagicInBytes(input);
    }
  }

  /** The answer to a payload that stands behind such a header: the parser's code, the kernel's code, ten when the
      result cannot be printed, or a frame of type 6 and the next number, modulo 2^32. */
  lemma AnswerInFull(sha: Bytes -> Bytes, kernel: Request -> Result<Output, nat>, w: WorkerState, payload: Bytes)
    requires IsDigest(sha) && w.exit == None
    ensures var next := (w.last + 1) % 4294967296;
      var (v, answer) := Answer(sha, kernel, w, payload);
      match Parse(sha, payload, next, w.latch)
      case Err(code) => v == w.(exit := Some(code)) && answer == None
      case Ok(r) =>
        var latched := w.(latch := Some(Latch(r.run, r.case_)));
        match kernel(r)
        case Err(code) => v == latched.(exit := Some(code)) && answer == None
        case Ok(x) =>
          if !Answerable(r, x) || |ResponsePayload(sha, r, PaddedIds(r), x)| >= 4294967296 then
            v == latched.(exit := Some(10)) && answer == None
          else
            && v == latched.(last := next) && answer.Some? && answer.value.request == r
            && var f := answer.value.answer;
               && |f| >= 16 && f[..8] == [67, 70, 68, 65, 78, 67, 70, 49] && U32(f, 8) == |f| - 16 && U32(f, 12) == 6
               && f[16..] == ResponsePayload(sha, r, PaddedIds(r), x)
  {
    hide Parse, ResponsePayload, Answerable, Fields, Size, U64, U32, Pack, AnswerFrame;
    match Parse(sha, payload, (w.last + 1) % 4294967296, w.latch)
    case Err(_) =>
    case Ok(r) =>
      match kernel(r)
      case Err(_) =>
      case Ok(x) =>
        if Answerable(r, x) {
          FrameInFull(sha, r, x);
        }
  }

  lemma FrameInFull(sha: Bytes -> Bytes, r: Request, x: Output)
    requires Answerable(r, x)
    ensures var s := ResponsePayload(sha, r, PaddedIds(r), x);
      match AnswerFrame(sha, r, x)
      case None => |s| >= 4294967296
      case Some(f) =>
        && |s| < 4294967296 && |f| == 16 + |s| && f[16..] == s
        && f[..8] == [67, 70, 68, 65, 78, 67, 70, 49] && U32(f, 8) == |s| && U32(f, 12) == 6
  {
    hide ResponsePayload, Fields, Size, U64, U32, Pack, Printable, PaddedIds;
    FrameSizes();
    var s := ResponsePayload(sha, r, PaddedIds(r), x);
    if |s| < 4294967296 {
      FrameHolds(STEP_RESPONSE, s, []);
      var f := Framed(STEP_RESPONSE, s);
      assert f + [] == f;
      HeaderInBytes(f);
      MagicInBytes(f);
      assert f[16..] == f[16..16 + |s|];
    }
  }

  // ----- what an accepted answer shows

  lemma {:induction false} LittleOfBytes(s: Bytes)
    ensures Little(FromLittle(s), |s|) == s && FromLittle(s) < Range(|s|)
    decreases |s|
  {
    if s != [] {
      LittleOfBytes(s[1..]);
      assert s == [s[0]] + s[1..];
    }
  }

  /** A word that was read is written back as the bytes it was read from. */
  lemma WriteRead(s: Bytes)
    requires |s| == 8
    ensures Fits(W8, Read(W8, s)) && Write(W8, Read(W8, s)) == s
  {
    hide Little, FromLittle, Range;
    LittleOfBytes(s);
    Ranges();
  }

  /** Words that were read are packed as the bytes they were read from. */
  lemma {:induction false} PackedBack(s: Bytes, at: nat, n: nat)
    requires at + 8 * n <= |s|
    ensures at + Size(Repeat(W8, n)) <= |s|
    ensures Words(Fields(Repeat(W8, n), s, at)) && PackWords(Fields(Repeat(W8, n), s, at)) == s[at..at + 8 * n]
    decreases n
  {
    hide Write, Read, Fits;
    SizeRepeat(W8, n);
    if n > 0 {
      PackedBack(s, at + 8, n - 1);
      SizeRepeat(W8, n - 1);
      WriteRead(s[at..at + 8]);
      PackedNext(s, at, n);
    }
  }

  lemma PackedNext(s: Bytes, at: nat, n: nat)
    requires n > 0 && at + 8 * n <= |s| && at + Size(Repeat(W8, n)) <= |s| && at + 8 + Size(Repeat(W8, n - 1)) <= |s|
    requires var rest := Fields(Repeat(W8, n - 1), s, at + 8);
      Words(rest) && PackWords(rest) == s[at + 8..at + 8 * n]
    requires Fits(W8, Read(W8, s[at..at + 8])) && Write(W8, Read(W8, s[at..at + 8])) == s[at..at + 8]
    ensures var all := Fields(Repeat(W8, n), s, at); Words(all) && PackWords(all) == s[at..at + 8 * n]
  {
    hide Write, Read;
    assert Repeat(W8, n)[1..] == Repeat(W8, n - 1);
    var all, rest := Fields(Repeat(W8, n), s, at), Fields(Repeat(W8, n - 1), s, at + 8);
    assert all == [Read(W8, s[at..at + 8])] + rest && all[1..] == rest;
    assert s[at..at + 8 * n] == s[at..at + 8] + s[at + 8..at + 8 * n];
  }

  /** A frame the client accepts for a request shows that request's numbers, ids and tick, a zero code, an
      acknowledgement and an audit, the checkpoint of its step, and the digest of the arrays it holds. */
  lemma AcceptedShows(sha: Bytes -> Bytes, close: (int, int) -> bool, r: Request, f: Bytes)
    requires Decode(f).Ok? && Validates(sha, close, r, Decode(f).value)
    ensures |f| >= 16 + 300 && I32(f[16..], 36) > 0 && |f| == 16 + 328 + 64 * I32(f[16..], 36)
    ensures var s := f[16..];
      var n := I32(s, 36);
      && U32(s, 8) == r.sequence && I32(s, 12) == r.globalStep && I32(s, 16) == r.bridgeStep && U64(s, 20) == r.tick
      && close(U64(s, 28), r.time) && I32(s, 40) == 0 && U64(s, 56) == r.transactionId && U64(s, 64) == r.requestId
      && U32(s, 72) == 1 && UpToZero(s, 76, 64, r.run) && UpToZero(s, 140, 64, r.case_)
      && UpToZero(s, 204, 32, r.consumer) && UpToZero(s, 236, 32, r.producer)
      && s[268..300] == sha(s[300..300 + 64 * n])
      && U64(s, 300 + 64 * n) == r.globalStep && U64(s, 316 + 64 * n) == r.tick && U32(s, 324 + 64 * n) != 0
  {
    hide Fields, Size, U32, I32, U64, DecodeBody, BodyRefusal, WordsStand, UpToZero, PackWords, Words, Joined;
    DecodeInBytes(f);
    DigestShows(f);
  }

  /** The vectors of a decoded answer, packed again, are the bytes they were taken from. */
  lemma DigestShows(f: Bytes)
    requires Decode(f).Ok?
    ensures |f| >= 16 + 300 && I32(f[16..], 36) > 0 && |f| == 16 + 328 + 64 * I32(f[16..], 36)
    ensures var x, s := Decode(f).value, f[16..];
      |x.vectors| == 8 && Words(Joined(x.vectors)) && PackWords(Joined(x.vectors)) == s[300..300 + 64 * I32(s, 36)]
  {
    hide Fields, Size, U32, I32, U64, WordsStand, UpToZero, PackWords, Words, Joined, Finite, AllFinite, Vectors, IdsAt,
         StringValue;
    DecodeInBytes(f);
    FrameSizes();
    ResponseSizes();
    var s := f[16..];
    var n := I32(s, 36);
    ResponseInBytes(s);
    SizeRepeat(W8, 8 * n);
    JoinVectors(Fields(Repeat(W8, 8 * n), s, 300), n);
    PackedBack(s, 300, 8 * n);
  }
}
