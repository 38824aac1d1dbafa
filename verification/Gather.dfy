/**
 The slice barrier of one step: results of concurrent slice calls gathered by slice id whatever
 the completion order, and the validation of a complete transaction of slice records.
 Slice ids are exactly 0..n-1, as the slice manifest demands.
 */
module Gather {
  import opened Wrappers
  import opened Vectors
  import opened Vec3

  // ----- gathering concurrent calls

  /** Every one of the `n` submitted calls completes exactly once, in some order. */
  ghost predicate Completion(order: seq<nat>, n: nat) {
    && |order| == n
    && (forall i, j :: 0 <= i < j < n ==> order[i] != order[j])
    && (forall sid: nat :: sid < n <==> sid in order)
  }

  /** The sequential meaning: all results in slice order, or nothing when a call fails. */
  function Gathered<T>(n: nat, op: nat -> Option<T>): (r: Option<seq<T>>)
    ensures r.Some? <==> forall sid: nat :: sid < n ==> op(sid).Some?
    ensures r.Some? ==> |r.value| == n && forall sid :: 0 <= sid < n ==> op(sid) == Some(r.value[sid])
  {
    if n == 0 then Some([])
    else
      match Gathered(n - 1, op)
      case None => None
      case Some(rest) => if op(n - 1).Some? then Some(rest + [op(n - 1).value]) else None
  }

  method SequentialMap<T>(n: nat, op: nat -> Option<T>) returns (r: Option<seq<T>>)
    ensures r == Gathered(n, op)
  {
    var values: seq<T> := [];
    for sid: nat := 0 to n
      invariant |values| == sid && forall k: nat :: k < sid ==> op(k) == Some(values[k])
    {
      match op(sid) {
        case None => return None;
        case Some(value) => values := values + [value];
      }
    }
    SameResults(n, op, values);
    return Some(values);
  }

  /** Collects results as calls complete; the completion order leaves no trace in the result. */
  method ParallelMap<T>(n: nat, op: nat -> Option<T>, order: seq<nat>) returns (r: Option<seq<T>>)
    requires Completion(order, n)
    ensures r == Gathered(n, op)
  {
    var result: map<nat, T> := map[];
    for k: nat := 0 to n
      invariant forall sid: nat :: sid in result <==> sid in order[..k]
      invariant forall sid :: sid in result ==> op(sid) == Some(result[sid])
    {
      var sid := order[k];
      assert sid in order;
      assert order[..k + 1] == order[..k] + [sid];
      match op(sid) {
        case None => return None;
        case Some(value) => result := result[sid := value];
      }
    }
    assert order[..n] == order;
    var values: seq<T> := [];
    for sid: nat := 0 to n
      invariant |values| == sid && forall k: nat :: k < sid ==> op(k) == Some(values[k])
    {
      values := values + [result[sid]];
    }
    SameResults(n, op, values);
    return Some(values);
  }

  lemma SameResults<T>(n: nat, op: nat -> Option<T>, values: seq<T>)
    requires |values| == n && forall k: nat :: k < n ==> op(k) == Some(values[k])
    ensures Gathered(n, op) == Some(values)
  {
    var gathered := Gathered(n, op).value;
    forall k | 0 <= k < n
      ensures gathered[k] == values[k]
    {
      assert Some(gathered[k]) == op(k) == Some(values[k]);
    }
    assert gathered == values;
  }

  // ----- validating a transaction

  const DEFAULT_TOLERANCE := 1.0e-12
  const S_REF_TOLERANCE := 1.0e-10
  const TIME_TOLERANCE := 1.0e-12

  const FORCE_TOLERANCE := 1.0e-13

  datatype Definition = Definition(sRef: real, length: real, span: real)

  /** The columns of the rotation from local to global axes. */
  datatype Rotation = Rotation(x: V3, y: V3, z: V3)

  /** A slice manifest; slice ids are the places in `slices`, and it is sealed when the hash it carries is that of its
      contents. */
  datatype Manifest = Manifest(
    caseId: string, referenceLength: real, representedLength: real, rotation: Rotation, slices: seq<Definition>,
    sealed: bool)

  datatype Kind = MotionRecords | LoadRecords

  datatype Content = Motion(values: seq<real>) | Load(span: real, force: V3, local: V3)

  datatype Record = Record(
    slice: nat, caseId: string, step: nat, iteration: nat, time: real, sRef: real, length: real, content: Content)

  datatype Expected = Expected(kind: Kind, step: Option<nat>, time: Option<real>)

  datatype TransactionError = WrongKind | DuplicateSlice | NotGenuine | MixedMetadata | Incomplete

  predicate Close(actual: real, expected: real, tolerance: real) {
    Abs(actual - expected) <= tolerance * Max(1.0, Abs(expected))
  }

  predicate Orthonormal(r: Rotation) {
    && Close(Inner(r.x, r.x), 1.0, DEFAULT_TOLERANCE) && Close(Inner(r.y, r.y), 1.0, DEFAULT_TOLERANCE)
    && Close(Inner(r.z, r.z), 1.0, DEFAULT_TOLERANCE) && Close(Inner(r.x, r.y), 0.0, DEFAULT_TOLERANCE)
    && Close(Inner(r.x, r.z), 0.0, DEFAULT_TOLERANCE) && Close(Inner(r.y, r.z), 0.0, DEFAULT_TOLERANCE)
    && Close(Inner(r.x, Cross(r.y, r.z)), 1.0, DEFAULT_TOLERANCE)
  }

  function SliceLengths(slices: seq<Definition>): real {
    SumOf(slices, (d: Definition) => d.length)
  }

  /** The manifest's own validation. */
  predicate ValidManifest(m: Manifest) {
    && m.caseId != "" && m.referenceLength > 0.0 && m.representedLength > 0.0 && m.slices != []
    && (forall i :: 0 <= i < |m.slices| ==>
          m.slices[i].length > 0.0 && m.slices[i].span > 0.0 && 0.0 <= m.slices[i].sRef <= m.referenceLength)
    && (forall i :: 0 < i < |m.slices| ==> !Close(m.slices[i - 1].sRef, m.slices[i].sRef, S_REF_TOLERANCE))
    && Close(SliceLengths(m.slices), m.representedLength, DEFAULT_TOLERANCE)
    && Orthonormal(m.rotation) && m.sealed
  }

  predicate SameForce(actual: real, wanted: real) {
    Abs(actual - wanted) <= FORCE_TOLERANCE * Max(Max(1.0, Abs(wanted)), Abs(actual))
  }

  /** The local force of a load is its global force in the local axes. */
  predicate Rotated(force: V3, local: V3, r: Rotation) {
    SameForce(local.x, Inner(r.x, force)) && SameForce(local.y, Inner(r.y, force))
      && SameForce(local.z, Inner(r.z, force))
  }

  /** The checks of a single record: the manifest's validity, identity, and for a load its span and rotation. */
  predicate Genuine(r: Record, m: Manifest, e: Expected) {
    && ValidManifest(m)
    && r.slice < |m.slices|
    && r.caseId == m.caseId
    && Close(r.sRef, m.slices[r.slice].sRef, S_REF_TOLERANCE)
    && Close(r.length, m.slices[r.slice].length, DEFAULT_TOLERANCE)
    && (e.step.Some? ==> r.step == e.step.value)
    && (e.time.Some? ==> Close(r.time, e.time.value, TIME_TOLERANCE))
    && r.iteration == 0
    && match r.content
       case Motion(_) => e.kind.MotionRecords?
       case Load(span, force, local) =>
         && e.kind.LoadRecords? && Close(span, m.slices[r.slice].span, DEFAULT_TOLERANCE)
         && Rotated(force, local, m.rotation)
  }

  /** The metadata of `r` agrees with that of `first`; the tolerance is relative to `first`. */
  predicate Agrees(r: Record, first: Record) {
    && r.caseId == first.caseId && r.step == first.step && r.iteration == first.iteration
    && Close(r.time, first.time, TIME_TOLERANCE)
  }

  ghost predicate Distinct(records: seq<Record>) {
    forall i, j :: 0 <= i < j < |records| ==> records[i].slice != records[j].slice
  }

  ghost predicate AllGenuine(records: seq<Record>, m: Manifest, e: Expected) {
    forall r :: r in records ==> Genuine(r, m, e)
  }

  ghost predicate Covers(records: seq<Record>, sid: nat) {
    exists r :: r in records && r.slice == sid
  }

  /** What does not depend on the order: genuine records, one for each slice. */
  ghost predicate Complete(records: seq<Record>, m: Manifest, e: Expected) {
    && Distinct(records) && AllGenuine(records, m, e)
    && (forall sid: nat :: sid < |m.slices| ==> Covers(records, sid))
  }

  ghost predicate AllAgree(records: seq<Record>, first: Record) {
    forall r :: r in records ==> Agrees(r, first)
  }

  ghost predicate Accepts(records: seq<Record>, m: Manifest, e: Expected) {
    Complete(records, m, e) && (records != [] ==> AllAgree(records, records[0]))
  }

  /** The accepted records, one per slice in slice order. */
  ghost predicate Arranges(arranged: seq<Record>, records: seq<Record>, m: Manifest) {
    && |arranged| == |m.slices|
    && forall sid :: 0 <= sid < |arranged| ==> arranged[sid] in records && arranged[sid].slice == sid
  }

  lemma AgreesWithItself(r: Record)
    ensures Agrees(r, r)
  {
    var bound := Max(1.0, Abs(r.time));
    assert TIME_TOLERANCE * bound >= 0.0;
  }

  /** The records by slice id, while they are genuine, distinct and of one metadata. */
  ghost predicate Collected(byId: map<nat, Record>, records: seq<Record>) {
    && (forall sid: nat :: sid in byId ==> byId[sid] in records && byId[sid].slice == sid)
    && (forall r :: r in records ==> r.slice in byId && byId[r.slice] == r)
  }

  lemma OtherKind(r: Record, m: Manifest, e: Expected)
    requires r.content.Motion? != e.kind.MotionRecords?
    ensures !Genuine(r, m, e)
  {
  }

  method ValidateTransaction(records: seq<Record>, m: Manifest, e: Expected)
    returns (r: Result<seq<Record>, TransactionError>)
    ensures r.Ok? <==> Accepts(records, m, e)
    ensures r.Ok? ==> Arranges(r.value, records, m)
  {
    hide Genuine, Agrees;
    var byId: map<nat, Record> := map[];
    var metadata: Option<Record> := None;
    for k: nat := 0 to |records|
      invariant metadata == if k == 0 then None else Some(records[0])
      invariant Collected(byId, records[..k]) && Distinct(records[..k]) && AllGenuine(records[..k], m, e)
      invariant k > 0 ==> AllAgree(records[..k], records[0])
    {
      var record := records[k];
      assert records[..k + 1] == records[..k] + [record];
      assert record in records && records[0] in records;
      if record.content.Motion? != e.kind.MotionRecords? {
        OtherKind(record, m, e);
        return Err(WrongKind);
      }
      if record.slice in byId {
        var earlier :| 0 <= earlier < k && records[earlier] == byId[record.slice];
        return Err(DuplicateSlice);
      }
      if !Genuine(record, m, e) {
        return Err(NotGenuine);
      }
      if metadata.Some? && !Agrees(record, metadata.value) {
        return Err(MixedMetadata);
      }
      if metadata.None? {
        metadata := Some(record);
        AgreesWithItself(record);
      }
      byId := byId[record.slice := record];
    }
    assert records[..|records|] == records;
    r := ArrangeById(byId, records, m);
  }

  method ArrangeById(byId: map<nat, Record>, records: seq<Record>, m: Manifest)
    returns (r: Result<seq<Record>, TransactionError>)
    requires Collected(byId, records)
    ensures r.Ok? <==> forall sid: nat :: sid < |m.slices| ==> Covers(records, sid)
    ensures r.Ok? ==> Arranges(r.value, records, m)
  {
    var arranged: seq<Record> := [];
    for sid: nat := 0 to |m.slices|
      invariant |arranged| == sid
      invariant forall k :: 0 <= k < sid ==> arranged[k] in records && arranged[k].slice == k
      invariant forall k: nat :: k < sid ==> Covers(records, k)
    {
      if sid !in byId {
        assert !Covers(records, sid);
        return Err(Incomplete);
      }
      assert byId[sid] in records;
      arranged := arranged + [byId[sid]];
    }
    return Ok(arranged);
  }

  /** An accepted transaction yields the same records in any order of arrival. */
  lemma ArrangedAlike(a: seq<Record>, b: seq<Record>, m: Manifest, e: Expected, x: seq<Record>, y: seq<Record>)
    requires multiset(a) == multiset(b) && Accepts(a, m, e) && Accepts(b, m, e)
    requires Arranges(x, a, m) && Arranges(y, b, m)
    ensures x == y
  {
    hide Genuine, Agrees;
    forall sid | 0 <= sid < |m.slices|
      ensures x[sid] == y[sid]
    {
      assert y[sid] in multiset(b) && y[sid] in a;
      var i :| 0 <= i < |a| && a[i] == x[sid];
      var j :| 0 <= j < |a| && a[j] == y[sid];
    }
  }

  /** Acceptance depends on the order of arrival only through the record that comes first. */
  lemma OnlyTheFirstMatters(a: seq<Record>, b: seq<Record>, m: Manifest, e: Expected)
    requires multiset(a) == multiset(b) && a != []
    ensures b != [] && (Accepts(b, m, e) <==> Complete(a, m, e) && AllAgree(a, b[0]))
  {
    hide Genuine, Agrees;
    assert |multiset(a)| == |a| && |multiset(b)| == |b|;
    SameElements(a, b);
    if Complete(a, m, e) {
      CompleteAlike(a, b, m, e);
    }
    if Complete(b, m, e) {
      CompleteAlike(b, a, m, e);
    }
  }

  lemma SameElements(a: seq<Record>, b: seq<Record>)
    requires multiset(a) == multiset(b)
    ensures forall r :: r in a <==> r in b
  {
    forall r
      ensures r in a <==> r in b
    {
      assert r in a <==> r in multiset(a);
      assert r in b <==> r in multiset(b);
    }
  }

  lemma CompleteAlike(a: seq<Record>, b: seq<Record>, m: Manifest, e: Expected)
    requires multiset(a) == multiset(b) && Complete(a, m, e)
    ensures Complete(b, m, e)
  {
    hide Genuine;
    SameElements(a, b);
    forall i, j | 0 <= i < j < |b|
      ensures b[i].slice != b[j].slice
    {
      if b[i].slice == b[j].slice {
        assert b[i] in a && b[j] in a;
        var u, v := b[i], b[j];
        assert u == v;
        TwiceInMultiset(b, i, j);
        OnceInMultiset(a, u);
      }
    }
    forall sid: nat | sid < |m.slices|
      ensures Covers(b, sid)
    {
      assert Covers(a, sid);
      var r :| r in a && r.slice == sid;
      assert r in b;
    }
  }

  lemma TwiceInMultiset(s: seq<Record>, i: nat, j: nat)
    requires i < j < |s| && s[i] == s[j]
    ensures multiset(s)[s[i]] >= 2
  {
    assert s == s[..j] + [s[j]] + s[j + 1..];
    assert s[i] == s[..j][i] && s[..j][i] in s[..j];
    assert s[i] in multiset(s[..j]);
  }

  lemma {:induction false} OnceInMultiset(s: seq<Record>, r: Record)
    requires forall i, j :: 0 <= i < j < |s| ==> s[i].slice != s[j].slice
    ensures multiset(s)[r] <= 1
    decreases |s|
  {
    if s != [] {
      assert s == [s[0]] + s[1..];
      OnceInMultiset(s[1..], r);
      forall k | 0 <= k < |s[1..]|
        ensures s[1..][k] != s[0]
      {
        assert s[1..][k] == s[k + 1] && s[k + 1].slice != s[0].slice;
      }
      assert s[0] !in s[1..];
      assert r == s[0] ==> multiset(s[1..])[r] == 0;
    }
  }

  ghost predicate AcceptedAs(b: seq<Record>, a: seq<Record>, m: Manifest, e: Expected) {
    multiset(b) == multiset(a) ==> Accepts(b, m, e)
  }

  /** Every order of arrival is accepted exactly when the records agree pairwise. */
  lemma EveryOrderAccepted(a: seq<Record>, m: Manifest, e: Expected)
    requires a != []
    ensures (forall b :: AcceptedAs(b, a, m, e))
      <==> Complete(a, m, e) && forall first :: first in a ==> AllAgree(a, first)
  {
    hide Genuine, Agrees, Complete, AllAgree, Accepts;
    if Complete(a, m, e) && forall first :: first in a ==> AllAgree(a, first) {
      forall b
        ensures AcceptedAs(b, a, m, e)
      {
        if multiset(b) == multiset(a) {
          OnlyTheFirstMatters(a, b, m, e);
          assert b[0] in multiset(b);
        }
      }
    }
    if forall b :: AcceptedAs(b, a, m, e) {
      assert AcceptedAs(a, a, m, e);
      OnlyTheFirstMatters(a, a, m, e);
      forall first | first in a
        ensures AllAgree(a, first)
      {
        var b := BroughtForward(a, first);
        assert AcceptedAs(b, a, m, e);
        OnlyTheFirstMatters(a, b, m, e);
      }
    }
  }

  lemma BroughtForward(a: seq<Record>, first: Record) returns (b: seq<Record>)
    requires first in a
    ensures b != [] && b[0] == first && multiset(b) == multiset(a)
  {
    var i :| 0 <= i < |a| && a[i] == first;
    b := [first] + a[..i] + a[i + 1..];
    assert a == a[..i] + [first] + a[i + 1..];
  }

  const THREE_SLICES := Manifest(
    "c", 3.0, 3.0, Rotation(V3(1.0, 0.0, 0.0), V3(0.0, 1.0, 0.0), V3(0.0, 0.0, 1.0)),
    [Definition(0.5, 1.0, 1.0), Definition(1.5, 1.0, 1.0), Definition(2.5, 1.0, 1.0)], true)

  function Stamped(sid: nat, time: real): Record {
    Record(sid, "c", 0, 0, time, sid as real + 0.5, 1.0, Motion([]))
  }

  lemma ThreeSlicesValid()
    ensures ValidManifest(THREE_SLICES)
  {
    hide Close, Orthonormal, SliceLengths;
    AxesOrthonormal();
    ThreeSlicesTotal();
    CentresDiffer();
  }

  lemma CentresDiffer()
    ensures !Close(0.5, 1.5, S_REF_TOLERANCE) && !Close(1.5, 2.5, S_REF_TOLERANCE) && Close(3.0, 3.0, DEFAULT_TOLERANCE)
  {
  }

  lemma ThreeSlicesTotal()
    ensures SliceLengths(THREE_SLICES.slices) == 3.0
  {
    var s := THREE_SLICES.slices;
    OneMoreLength([], s[0]);
    OneMoreLength([s[0]], s[1]);
    OneMoreLength([s[0], s[1]], s[2]);
    assert s == [s[0], s[1]] + [s[2]] && [s[0], s[1]] == [s[0]] + [s[1]] && [s[0]] == [] + [s[0]];
  }

  lemma OneMoreLength(slices: seq<Definition>, d: Definition)
    ensures SliceLengths([]) == 0.0 && SliceLengths(slices + [d]) == SliceLengths(slices) + d.length
  {
    assert (slices + [d])[..|slices|] == slices;
  }

  lemma AxesOrthonormal()
    ensures Orthonormal(THREE_SLICES.rotation)
  {
    hide Close, Inner, Cross;
    AxisProducts();
    ExactIsClose(1.0);
    ExactIsClose(0.0);
  }

  lemma AxisProducts()
    ensures var x, y, z := V3(1.0, 0.0, 0.0), V3(0.0, 1.0, 0.0), V3(0.0, 0.0, 1.0);
      && Inner(x, x) == 1.0 && Inner(y, y) == 1.0 && Inner(z, z) == 1.0
      && Inner(x, y) == 0.0 && Inner(x, z) == 0.0 && Inner(y, z) == 0.0
      && Inner(x, Cross(y, z)) == 1.0
  {
    hide Inner, Cross;
    InnerOf(1.0, 0.0, 0.0, 1.0, 0.0, 0.0);
    InnerOf(0.0, 1.0, 0.0, 0.0, 1.0, 0.0);
    InnerOf(0.0, 0.0, 1.0, 0.0, 0.0, 1.0);
    InnerOf(1.0, 0.0, 0.0, 0.0, 1.0, 0.0);
    InnerOf(1.0, 0.0, 0.0, 0.0, 0.0, 1.0);
    InnerOf(0.0, 1.0, 0.0, 0.0, 0.0, 1.0);
    CrossOf(0.0, 1.0, 0.0, 0.0, 0.0, 1.0);
  }

  lemma InnerOf(a: real, b: real, c: real, x: real, y: real, z: real)
    ensures Inner(V3(a, b, c), V3(x, y, z)) == a * x + b * y + c * z
  {
  }

  lemma CrossOf(a: real, b: real, c: real, x: real, y: real, z: real)
    ensures Cross(V3(a, b, c), V3(x, y, z)) == V3(b * z - c * y, c * x - a * z, a * y - b * x)
  {
  }

  lemma ExactIsClose(x: real)
    requires x == 0.0 || x == 1.0
    ensures Close(x, x, DEFAULT_TOLERANCE)
  {
  }

  /** The closeness of times is not transitive: the same three records pass in one order and fail in another. */
  lemma OrderCanDecide()
    ensures var e := Expected(MotionRecords, Some(0), Some(2.0e-12));
      var low, mid, high := Stamped(0, 1.1e-12), Stamped(1, 2.0e-12), Stamped(2, 2.9e-12);
      && ValidManifest(THREE_SLICES)
      && Accepts([mid, low, high], THREE_SLICES, e) && !Accepts([low, mid, high], THREE_SLICES, e)
  {
    hide ValidManifest;
    var m := THREE_SLICES;
    var e := Expected(MotionRecords, Some(0), Some(2.0e-12));
    var low, mid, high := Stamped(0, 1.1e-12), Stamped(1, 2.0e-12), Stamped(2, 2.9e-12);
    var a := [mid, low, high];
    ThreeSlicesValid();
    assert Genuine(low, m, e) && Genuine(mid, m, e) && Genuine(high, m, e);
    assert a[0] in a && a[1] in a && a[2] in a;
    assert Covers(a, 0) && Covers(a, 1) && Covers(a, 2);
    assert Complete(a, m, e);
    assert Agrees(low, mid) && Agrees(mid, mid) && Agrees(high, mid);
    assert !Agrees(high, low);
    assert high in [low, mid, high];
  }
}
