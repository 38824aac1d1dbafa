/**
 The checks of the Python side at their boundaries: every tolerance as an interval in numbers, what a load record, a
 mesh, a coverage and an adapter call must satisfy, and what the sums of a ledger are divided by.
 */
module Boundaries {
  import opened Wrappers
  import opened Vectors
  import opened Vec3
  import Gather
  import Hermite
  import ForceMapping
  import KernelMapping
  import SliceCoverage
  import EnergyLedger
  import AuditWindow
  import Adapter

  // ----- relative tolerances

  /** `a` lies within `t` of `b`, or within `t` times the size of `b`. */
  predicate Near(a: real, b: real, t: real) {
    -t <= a - b <= t || -(t * b) <= a - b <= t * b || t * b <= a - b <= -(t * b)
  }

  lemma RelativeBound(x: real, b: real, t: real)
    requires t > 0.0
    ensures Abs(x) <= t * Max(1.0, Abs(b)) <==> -t <= x <= t || -(t * b) <= x <= t * b || t * b <= x <= -(t * b)
  {
    Order(t, b);
    var m := Max(1.0, Abs(b));
    if m == -b {
      Opposite(t, b, m);
    }
    assert m == 1.0 ==> t * m == t;
    LargestOf(x, b, t, t * b, m, t * m);
  }

  lemma Order(t: real, b: real)
    requires t > 0.0
    ensures (b >= 1.0 ==> t * b >= t) && (b <= 1.0 ==> t * b <= t)
    ensures (b >= -1.0 ==> t * b >= -t) && (b <= -1.0 ==> t * b <= -t)
  {
    assert t * (b - 1.0) == t * b - t && t * (b + 1.0) == t * b + t;
    assert b >= 1.0 ==> t * (b - 1.0) >= 0.0;
    assert b <= 1.0 ==> t * (1.0 - b) >= 0.0;
    assert b >= -1.0 ==> t * (b + 1.0) >= 0.0;
    assert b <= -1.0 ==> t * (-1.0 - b) >= 0.0;
  }

  lemma LargestOf(x: real, b: real, t: real, tb: real, m: real, tm: real)
    requires m == Max(1.0, Abs(b)) && (m == 1.0 ==> tm == t) && (m == b ==> tm == tb) && (m == -b ==> tm == -tb)
    requires t > 0.0 && (b >= 1.0 ==> tb >= t) && (b <= 1.0 ==> tb <= t)
    requires (b >= -1.0 ==> tb >= -t) && (b <= -1.0 ==> tb <= -t)
    ensures Abs(x) <= tm <==> -t <= x <= t || -tb <= x <= tb || tb <= x <= -tb
  {
  }

  lemma ScaledOrder(t: real, a: real, b: real)
    requires t > 0.0 && a <= b
    ensures t * a <= t * b
  {
    assert t * (b - a) >= 0.0;
  }

  lemma Opposite(t: real, b: real, m: real)
    requires m == -b
    ensures t * m == -(t * b)
  {
  }

  lemma CloseInNumbers(actual: real, expected: real, t: real)
    requires t > 0.0
    ensures Gather.Close(actual, expected, t) <==> Near(actual, expected, t)
  {
    RelativeBound(actual - expected, expected, t);
  }

  lemma EitherBound(a: real, b: real, t: real)
    requires t > 0.0
    ensures Abs(a - b) <= t * Max(Max(1.0, Abs(b)), Abs(a)) <==> Near(a, b, t) || Near(b, a, t)
  {
    hide Near;
    NearIs(a, b, t);
    NearIs(b, a, t);
    var m, n := Max(1.0, Abs(b)), Max(1.0, Abs(a));
    assert Max(m, Abs(a)) == Max(m, n);
    LargerBound(Abs(a - b), t, m, n);
  }

  lemma LargerBound(x: real, t: real, m: real, n: real)
    requires t > 0.0
    ensures x <= t * Max(m, n) <==> x <= t * m || x <= t * n
  {
    if m < n {
      ScaledOrder(t, m, n);
    } else {
      ScaledOrder(t, n, m);
    }
  }

  lemma NearIs(a: real, b: real, t: real)
    requires t > 0.0
    ensures Near(a, b, t) <==> Abs(a - b) <= t * Max(1.0, Abs(b))
  {
    RelativeBound(a - b, b, t);
  }

  // ----- the records of a transaction

  /** A manifest is valid exactly when its lengths are positive and add up, its slices are inside and apart, its axes
      are of unit length, normal to one another and right-handed, and its seal holds. */
  lemma ManifestInNumbers(m: Gather.Manifest)
    ensures Gather.ValidManifest(m) <==>
      && m.caseId != "" && m.referenceLength > 0.0 && m.representedLength > 0.0 && |m.slices| > 0 && m.sealed
      && (forall i :: 0 <= i < |m.slices| ==>
            m.slices[i].length > 0.0 && m.slices[i].span > 0.0 && 0.0 <= m.slices[i].sRef <= m.referenceLength)
      && (forall i :: 0 < i < |m.slices| ==> !Near(m.slices[i - 1].sRef, m.slices[i].sRef, 1.0e-10))
      && Near(Gather.SliceLengths(m.slices), m.representedLength, 1.0e-12)
      && Near(Inner(m.rotation.x, m.rotation.x), 1.0, 1.0e-12) && Near(Inner(m.rotation.y, m.rotation.y), 1.0, 1.0e-12)
      && Near(Inner(m.rotation.z, m.rotation.z), 1.0, 1.0e-12) && Near(Inner(m.rotation.x, m.rotation.y), 0.0, 1.0e-12)
      && Near(Inner(m.rotation.x, m.rotation.z), 0.0, 1.0e-12) && Near(Inner(m.rotation.y, m.rotation.z), 0.0, 1.0e-12)
      && Near(Inner(m.rotation.x, Cross(m.rotation.y, m.rotation.z)), 1.0, 1.0e-12)
  {
    hide Gather.Close, Near, Inner, Cross, Gather.SliceLengths;
    forall a: real, b: real, t: real | t > 0.0
      ensures Gather.Close(a, b, t) <==> Near(a, b, t)
    {
      CloseInNumbers(a, b, t);
    }
  }

  /** A motion record is genuine exactly when it names its manifest, its slice, its step and its time. */
  lemma MotionIsGenuine(r: Gather.Record, m: Gather.Manifest, e: Gather.Expected)
    requires r.content.Motion? && e.kind.MotionRecords?
    ensures Gather.Genuine(r, m, e) <==>
      && Gather.ValidManifest(m) && r.slice < |m.slices| && r.caseId == m.caseId && r.iteration == 0
      && Near(r.sRef, m.slices[r.slice].sRef, 1.0e-10) && Near(r.length, m.slices[r.slice].length, 1.0e-12)
      && (e.step.Some? ==> r.step == e.step.value) && (e.time.Some? ==> Near(r.time, e.time.value, 1.0e-12))
  {
    hide Gather.ValidManifest, Gather.Close, Near;
    if r.slice < |m.slices| {
      CloseInNumbers(r.sRef, m.slices[r.slice].sRef, 1.0e-10);
      CloseInNumbers(r.length, m.slices[r.slice].length, 1.0e-12);
    }
    if e.time.Some? {
      CloseInNumbers(r.time, e.time.value, 1.0e-12);
    }
  }

  /** Two records belong to one exchange when case, step and iteration are the same and the times are, to 1e-12 of the
      first one's. */
  lemma MetadataInNumbers(r: Gather.Record, first: Gather.Record)
    ensures Gather.Agrees(r, first) <==>
      && r.caseId == first.caseId && r.step == first.step && r.iteration == first.iteration
      && Near(r.time, first.time, 1.0e-12)
  {
    hide Gather.Close, Near;
    CloseInNumbers(r.time, first.time, 1.0e-12);
  }

  /** A load record is genuine exactly when a motion record with its metadata is, its span is the slice's, and its
      local force has the components of its global force along the three axes. */
  lemma LoadIsGenuine(r: Gather.Record, m: Gather.Manifest, e: Gather.Expected, span: real, f: V3, local: V3)
    requires r.content == Gather.Load(span, f, local) && e.kind.LoadRecords?
    ensures Gather.Genuine(r, m, e) <==>
      && Gather.Genuine(r.(content := Gather.Motion([])), m, e.(kind := Gather.MotionRecords))
      && Near(span, m.slices[r.slice].span, 1.0e-12)
      && AlongAxes(f, local, m.rotation)
  {
    hide Gather.ValidManifest, Gather.Close, Near, Gather.Rotated, AlongAxes;
    RotatedInNumbers(m.rotation, f, local);
    if r.slice < |m.slices| {
      CloseInNumbers(span, m.slices[r.slice].span, 1.0e-12);
    }
  }

  function Along(a: V3, f: V3): real {
    a.x * f.x + a.y * f.y + a.z * f.z
  }

  /** The components of `f` along the axes of `r`. */
  predicate AlongAxes(f: V3, local: V3, r: Gather.Rotation) {
    Component(local.x, Along(r.x, f)) && Component(local.y, Along(r.y, f)) && Component(local.z, Along(r.z, f))
  }

  lemma RotatedInNumbers(r: Gather.Rotation, f: V3, local: V3)
    ensures Gather.Rotated(f, local, r) <==> AlongAxes(f, local, r)
  {
    AlongIsInner(r.x, f);
    AlongIsInner(r.y, f);
    AlongIsInner(r.z, f);
    hide Component, Gather.SameForce, Inner, Along;
    ForceInNumbers(local.x, Inner(r.x, f));
    ForceInNumbers(local.y, Inner(r.y, f));
    ForceInNumbers(local.z, Inner(r.z, f));
  }

  lemma AlongIsInner(a: V3, f: V3)
    ensures Along(a, f) == Inner(a, f)
  {
  }

  /** One component, within 1e-13 or within 1e-13 times the size of either value. */
  predicate Component(actual: real, wanted: real) {
    Near(actual, wanted, 1.0e-13) || Near(wanted, actual, 1.0e-13)
  }

  lemma ForceInNumbers(actual: real, wanted: real)
    ensures Gather.SameForce(actual, wanted) <==> Component(actual, wanted)
  {
    EitherBound(actual, wanted, 1.0e-13);
    hide Near;
  }

  // ----- meshes

  /** A node list is accepted exactly when it starts at zero to 1e-12, increases, and ends where it should to 1e-10. */
  lemma MeshInNumbers(nodes: seq<real>, reference: Option<real>)
    ensures Hermite.MeshDefect(nodes, reference).None? <==>
      && |nodes| >= 2 && -1.0e-12 <= nodes[0] <= 1.0e-12 && (forall i :: 0 < i < |nodes| ==> nodes[i - 1] < nodes[i])
      && (reference.Some? ==> Near(nodes[|nodes| - 1], reference.value, 1.0e-10))
  {
    hide Near;
    if |nodes| >= 2 && reference.Some? {
      NearIs(nodes[|nodes| - 1], reference.value, 1.0e-10);
    }
  }

  /** A position may lie 1e-10 off either end of the mesh. */
  lemma OffMeshInNumbers(nodes: seq<real>, s: real)
    requires |nodes| >= 2
    ensures Hermite.OffMesh(nodes, s) <==> s - nodes[0] < -1.0e-10 || s - nodes[|nodes| - 1] > 1.0e-10
  {
  }

  /** No point of the mesh is nearer to `s` than the clamped position. */
  lemma ClampIsNearest(nodes: seq<real>, s: real, x: real)
    requires Hermite.ValidMesh(nodes) && nodes[0] <= x <= nodes[|nodes| - 1]
    ensures nodes[0] <= Hermite.Clamp(s, nodes) <= nodes[|nodes| - 1]
    ensures Abs(s - Hermite.Clamp(s, nodes)) <= Abs(s - x)
  {
    Hermite.IncreasingAll(nodes, 0, |nodes| - 1);
  }

  // ----- the maps of the force mapping

  /** The sum over the first `n` slices of block columns times forces, slice by slice from the maps. */
  ghost function EntrySum(h: map<nat, seq<seq<real>>>, f: map<nat, seq<real>>, j: nat, n: nat): real
    requires forall i: nat :: i < n ==>
      i in h && i in f && |h[i]| == |f[i]| == 3 && j < |h[i][0]| && j < |h[i][1]| && j < |h[i][2]|
    decreases n
  {
    if n == 0 then 0.0
    else
      var (a, b) := (h[n - 1], f[n - 1]);
      EntrySum(h, f, j, n - 1) + (a[0][j] * b[0] + a[1][j] * b[1] + a[2][j] * b[2])
  }

  /** Accepted maps hold exactly one block of three equally long rows and one force of three components per slice. */
  lemma AcceptedInputs(n: nat, h: map<nat, seq<seq<real>>>, f: map<nat, seq<real>>, delta: Option<seq<real>>)
    requires n > 0
    ensures ForceMapping.FirstDefect(n, h, f, delta).None? <==>
      && (forall i: nat :: (i in h <==> i < n) && (i in f <==> i < n)) && |h[0]| == 3 && |h[0][0]| > 0
      && (forall i: nat :: i < n ==> |h[i]| == |f[i]| == 3 && |h[i][0]| == |h[i][1]| == |h[i][2]| == |h[0][0]|)
      && (delta.Some? ==> |delta.value| == |h[0][0]|)
  {
    var ids := ForceMapping.Ids(n);
    if forall i: nat :: (i in h <==> i < n) && (i in f <==> i < n) {
      assert h.Keys == ids && f.Keys == ids;
    }
    if h.Keys == ids && f.Keys == ids {
      assert forall i: nat :: (i in h <==> i in h.Keys) && (i in f <==> i in f.Keys);
    }
  }

  /** Every entry of the generalized force is the sum of what each slice's own block makes of its own force. */
  lemma {:induction false} EntryOfMaps(h: map<nat, seq<seq<real>>>, f: map<nat, seq<real>>, n: nat, ndof: nat, j: nat,
                                       k: nat)
    requires h.Keys == f.Keys == ForceMapping.Ids(n) && k <= n && j < ndof
    requires ForceMapping.WellShaped(ForceMapping.SliceList(h, f, n), ndof)
    requires forall i: nat :: i < k ==>
      i in h && i in f && |h[i]| == |f[i]| == 3 && j < |h[i][0]| && j < |h[i][1]| && j < |h[i][2]|
    ensures ForceMapping.Generalized(ForceMapping.SliceList(h, f, n), ndof, k)[j] == EntrySum(h, f, j, k)
    decreases k
  {
    if k > 0 {
      hide ForceMapping.Generalized, ForceMapping.SliceList, ForceMapping.WellShaped;
      EntryOfMaps(h, f, n, ndof, j, k - 1);
      EntryNext(h, f, n, ndof, j, k);
    }
  }

  lemma EntryNext(h: map<nat, seq<seq<real>>>, f: map<nat, seq<real>>, n: nat, ndof: nat, j: nat, k: nat)
    requires h.Keys == f.Keys == ForceMapping.Ids(n) && 0 < k <= n && j < ndof && k - 1 in h && k - 1 in f
    requires ForceMapping.WellShaped(ForceMapping.SliceList(h, f, n), ndof)
    ensures var (a, b) := (h[k - 1], f[k - 1]);
      && |a| == |b| == 3 && j < |a[0]| && j < |a[1]| && j < |a[2]|
      && ForceMapping.Generalized(ForceMapping.SliceList(h, f, n), ndof, k)[j]
         == ForceMapping.Generalized(ForceMapping.SliceList(h, f, n), ndof, k - 1)[j]
            + (a[0][j] * b[0] + a[1][j] * b[1] + a[2][j] * b[2])
  {
    hide ForceMapping.Generalized, ForceMapping.Contribution, ForceMapping.WellShaped;
    var s := ForceMapping.SliceList(h, f, n);
    assert s[k - 1] == ForceMapping.Slice(h[k - 1], f[k - 1]);
    KernelMapping.OneMoreSlice(s, ndof, k, j);
    ContributionAt(s, ndof, k - 1, j);
  }

  lemma ContributionAt(s: seq<ForceMapping.Slice>, ndof: nat, i: nat, j: nat)
    requires ForceMapping.WellShaped(s, ndof) && i < |s| && j < ndof
    ensures |s[i].h| == |s[i].force| == 3 && forall r :: 0 <= r < 3 ==> |s[i].h[r]| == ndof
    ensures ForceMapping.Contribution(s[i].h, s[i].force, ndof)[j]
      == s[i].h[0][j] * s[i].force[0] + s[i].h[1][j] * s[i].force[1] + s[i].h[2][j] * s[i].force[2]
  {
  }

  // ----- coverage

  lemma CoverageCloseInNumbers(left: real, right: real)
    ensures SliceCoverage.Close(left, right) <==> Near(left, right, 1.0e-12) || Near(right, left, 1.0e-12)
  {
    EitherBound(right, left, 1.0e-12);
    hide Near;
  }

  /** Intervals in ascending order cover the reference exactly when they lie inside it to 1e-12, begin and end with it,
      and each begins where the one before ends. */
  lemma CoversInNumbers(s: seq<SliceCoverage.Interval>, reference: real)
    ensures SliceCoverage.Covers(s, reference) <==>
      && |s| > 0 && (forall i :: 0 <= i < |s| ==> s[i].start >= -1.0e-12 && s[i].end - reference <= 1.0e-12)
      && (Near(s[0].start, 0.0, 1.0e-12) || Near(0.0, s[0].start, 1.0e-12))
      && (Near(s[|s| - 1].end, reference, 1.0e-12) || Near(reference, s[|s| - 1].end, 1.0e-12))
      && forall i :: 0 < i < |s| ==>
           && s[i - 1].end - s[i].start <= 1.0e-12
           && (Near(s[i].start, s[i - 1].end, 1.0e-12) || Near(s[i - 1].end, s[i].start, 1.0e-12))
  {
    hide SliceCoverage.Close, Near;
    if |s| > 0 {
      CoverageCloseInNumbers(s[0].start, 0.0);
      CoverageCloseInNumbers(s[|s| - 1].end, reference);
      forall i | 0 < i < |s|
        ensures SliceCoverage.Joins(s[i - 1], s[i]) <==>
          && s[i - 1].end - s[i].start <= 1.0e-12
          && (Near(s[i].start, s[i - 1].end, 1.0e-12) || Near(s[i - 1].end, s[i].start, 1.0e-12))
      {
        CoverageCloseInNumbers(s[i].start, s[i - 1].end);
      }
      forall i | 0 <= i < |s|
        ensures SliceCoverage.Inside(s[i], reference) <==> s[i].start >= -1.0e-12 && s[i].end - reference <= 1.0e-12
      {
      }
    }
  }

  /** Every point of an accepted reference length lies within half a slice length of some centre, or `slack` further. */
  lemma PointIsNearCentre(slices: seq<SliceCoverage.Slice>, reference: real, x: real, slack: real) returns (i: nat)
    requires reference > 0.0 && 0.0 <= x <= reference && forall k :: 0 <= k < |slices| ==> slices[k].length > 0.0
    requires SliceCoverage.Covers(SliceCoverage.Sorted(SliceCoverage.Intervals(slices)), reference)
    requires slack >= 1.0e-12 && slack >= 1.0e-12 * (reference + 1.0e-12)
    ensures i < |slices|
    ensures slices[i].centre - slices[i].length / 2.0 - slack <= x <= slices[i].centre + slices[i].length / 2.0 + slack
  {
    hide SliceCoverage.Sorted, SliceCoverage.Covers;
    var intervals := SliceCoverage.Intervals(slices);
    var s := SliceCoverage.Sorted(intervals);
    SliceCoverage.ProperSorted(slices);
    SliceCoverage.EveryPointIsCovered(s, reference, x);
    var k: nat :| SliceCoverage.Near(s, k, x, SliceCoverage.Slack(reference));
    SliceCoverage.SortedAscends(intervals);
    assert s[k] in multiset(s);
    assert s[k] in intervals;
    i :| i < |intervals| && intervals[i] == s[k];
    SlackIs(reference, slack);
  }

  lemma SlackIs(reference: real, slack: real)
    requires slack >= 1.0e-12 && slack >= 1.0e-12 * (reference + 1.0e-12)
    ensures SliceCoverage.Slack(reference) <= slack
  {
  }

  lemma {:induction false} AscendingStays(s: seq<SliceCoverage.Interval>)
    requires SliceCoverage.Ascending(s)
    ensures SliceCoverage.Sorted(s) == s
    decreases |s|
  {
    if s != [] {
      AscendingStays(s[..|s| - 1]);
      assert s == s[..|s| - 1] + [s[|s| - 1]];
    }
  }

  function Share(i: nat, h: real): real {
    i as real * h
  }

  lemma Shares(i: nat, j: nat, h: real)
    requires h > 0.0 && i <= j
    ensures Share(0, h) == 0.0 <= Share(i, h) <= Share(j, h) && Share(i + 1, h) == Share(i, h) + h
  {
    assert (i + 1) as real == i as real + 1.0;
    assert (j as real - i as real) * h >= 0.0;
  }

  lemma NearItself(x: real)
    ensures Near(x, x, 1.0e-12)
  {
  }

  /** The interval is part `i` of `n` parts of length `h`. */
  predicate IsShare(x: SliceCoverage.Interval, i: nat, n: nat, h: real) {
    x.start == Share(i, h) >= 0.0 && x.end == Share(i + 1, h) <= Share(n, h)
  }

  lemma SharesMeet(x: SliceCoverage.Interval, y: SliceCoverage.Interval, i: nat, j: nat, n: nat, h: real)
    requires h > 0.0 && i < j && IsShare(x, i, n, h) && IsShare(y, j, n, h)
    ensures x.start <= y.start
    ensures j == i + 1 ==> Near(y.start, x.end, 1.0e-12) && x.end - y.start <= 1.0e-12
  {
    Shares(i, j, h);
    NearItself(y.start);
  }

  /** Slices that share out a length evenly, each around the middle of its share, are accepted. */
  lemma EvenSlicesAreAccepted(slices: seq<SliceCoverage.Slice>, h: real)
    requires |slices| > 0 && h > 0.0
    requires forall i: nat :: i < |slices| ==> slices[i].length == h && slices[i].centre == Share(i, h) + h / 2.0
    ensures SliceCoverage.Covers(SliceCoverage.Sorted(SliceCoverage.Intervals(slices)), Share(|slices|, h))
  {
    hide Share, Near, SliceCoverage.Covers, SliceCoverage.Sorted;
    var s, n := SliceCoverage.Intervals(slices), |slices|;
    forall i: nat | i < n
      ensures IsShare(s[i], i, n, h)
    {
      Shares(i, n, h);
      Shares(i + 1, n, h);
    }
    hide SliceCoverage.Intervals;
    forall i, j | 0 <= i < j < n
      ensures s[i].start <= s[j].start
    {
      SharesMeet(s[i], s[j], i, j, n, h);
    }
    AscendingStays(s);
    Shares(0, n, h);
    NearItself(0.0);
    NearItself(Share(n, h));
    forall i | 0 < i < n
      ensures Near(s[i].start, s[i - 1].end, 1.0e-12) && s[i - 1].end - s[i].start <= 1.0e-12
    {
      SharesMeet(s[i - 1], s[i], i - 1, i, n, h);
    }
    CoversInNumbers(s, Share(n, h));
  }

  // ----- the audit of a ledger

  /** A boundary of the window stands for a time within 1e-10, or within 1e-10 times the boundary. */
  lemma AlignmentInNumbers(value: real, boundary: real)
    ensures AuditWindow.Near(value, boundary) <==> Near(value, boundary, 1.0e-10)
  {
    NearIs(value, boundary, 1.0e-10);
    hide Near;
  }

  /** The state before the first row lies one time step back: the recorded one, or the share of one step in the time. */
  lemma InitialTimeInColumns(rows: seq<EnergyLedger.Row>)
    requires rows != []
    ensures var (r, t) := (rows[0], AuditWindow.InitialTime(rows));
      && (r.dt.Some? ==> t + r.dt.value == r.time)
      && (r.dt.None? && r.step <= 1 ==> t == 0.0)
      && (r.dt.None? && r.step > 1 ==> r.step as real * t == (r.step as real - 1.0) * r.time)
  {
    var r := rows[0];
    var steps := if r.step > 1 then r.step else 1;
    var share := r.time / steps as real;
    Divided(r.time, steps as real);
    if r.dt.None? && r.step > 1 {
      SharedSteps(r.step as real, r.time, share, AuditWindow.InitialTime(rows));
    }
  }

  lemma SharedSteps(n: real, time: real, share: real, t: real)
    requires n * share == time && t == time - share
    ensures n * t == (n - 1.0) * time
  {
    assert n * t == n * time - n * share;
  }

  /** The state before a window is near its start and its last row is near its end; a boundary that is not given is the
      beginning or the end of the file, and without any the window is the second half of the rows. */
  lemma WindowEnds(rows: seq<EnergyLedger.Row>, start: Option<real>, end: Option<real>, w: AuditWindow.Window)
    requires rows != [] && AuditWindow.Selects(rows, start, end, w)
    ensures w.first < w.past <= |rows|
    ensures var before := if w.first == 0 then AuditWindow.InitialTime(rows) else rows[w.first - 1].time;
      var last := rows[w.past - 1].time;
      if start.None? && end.None? then
        w.first == |rows| / 2 && w.past == |rows| && w.end == last
        && w.start == rows[w.first].time - EnergyLedger.TimeStep(rows, w.first)
      else
        && w.start == (if start.Some? then start.value else AuditWindow.InitialTime(rows))
        && w.end == (if end.Some? then end.value else rows[|rows| - 1].time)
        && Near(before, w.start, 1.0e-10) && Near(last, w.end, 1.0e-10)
  {
    hide Near, EnergyLedger.TimeStep, AuditWindow.Near;
    var before := if w.first == 0 then AuditWindow.InitialTime(rows) else rows[w.first - 1].time;
    AlignmentInNumbers(before, w.start);
    AlignmentInNumbers(rows[w.past - 1].time, w.end);
  }

  /** The relative residual is the size of the balance over the largest of structure work, stored change, damping,
      throughput and 1e-30. */
  lemma RelativeIsQuotient(s: AuditWindow.Sums, largest: real)
    requires largest >= 1.0e-30 && largest >= s.throughput
    requires -largest <= s.totals.structure <= largest && -largest <= s.stored <= largest
    requires -largest <= s.totals.damping <= largest
    requires largest in {1.0e-30, s.throughput, s.totals.structure, -s.totals.structure, s.stored, -s.stored,
                         s.totals.damping, -s.totals.damping}
    ensures largest * AuditWindow.Relative(s) == if s.totals.balance < 0.0 then -s.totals.balance else s.totals.balance
  {
    assert AuditWindow.Scale(s) == largest;
    Divided(Abs(s.totals.balance), largest);
  }

  // ----- the adapter

  /** The identity of a step: after the source, at its time to 1e-12. */
  lemma IdentityInNumbers(c: Adapter.Source, step: int, time: real)
    ensures Adapter.Identified(c, step, time)
      <==> step > c.step && -1.0e-12 <= time - (c.time + (step - c.step) as real * c.dt) <= 1.0e-12
  {
  }

  /** Three forces of three components. */
  predicate ThreeForces(f: Adapter.Forces) {
    |f| == 3 && |f[0]| == 3 && |f[1]| == 3 && |f[2]| == 3
  }

  /** A prediction asks the kernel with the committed state, and only when the session is open and waits for nothing. */
  lemma PredictedInFull(c: Adapter.Source, s: Adapter.Session, step: int, time: real, f: Adapter.Forces)
    requires s.started && !s.terminal && s.alive && |s.log| == 2 * (step - c.step) - 2
    ensures var (t, r) := Adapter.Predicted(c, s, step, time, f);
      r.Ok? <==> Adapter.Identified(c, step, time) && s.pending == None && ThreeForces(f)
                 && c.kernel(s.committed, f, step).Some?
    ensures var (t, r) := Adapter.Predicted(c, s, step, time, f);
      r.Ok? ==>
        && Some(r.value) == c.kernel(s.committed, f, step) && t.pending.Some?
        && t.pending.value.step == step && t.pending.value.time == time && t.committed == s.committed
  {
    hide Adapter.Identified;
  }

  /** A correction asks it with the committed state too, for the step and, to 1e-12, the time that was predicted. */
  lemma CorrectedInFull(c: Adapter.Source, s: Adapter.Session, step: int, time: real, f: Adapter.Forces)
    requires s.started && !s.terminal && s.alive && |s.log| == 2 * (step - c.step) - 1
    ensures var (t, r) := Adapter.Corrected(c, s, step, time, f);
      r.Ok? <==>
        && Adapter.Identified(c, step, time) && s.pending.Some? && s.pending.value.phase.Prediction?
        && s.pending.value.step == step && -1.0e-12 <= s.pending.value.time - time <= 1.0e-12 && ThreeForces(f)
        && c.kernel(s.committed, f, step).Some?
    ensures var (t, r) := Adapter.Corrected(c, s, step, time, f);
      r.Ok? ==> Some(t.state) == c.kernel(s.committed, f, step) && t.committed == s.committed
  {
    hide Adapter.Identified;
  }

  /** A fresh adapter stands at the initial state and serves nothing until it is started. */
  lemma FreshIsClosed(c: Adapter.Source, step: int, time: real, f: Adapter.Forces)
    ensures var s := Adapter.Fresh(c);
      && s.state == s.committed == c.initial && s.pending == None && s.alive && s.log == []
      && Adapter.Predicted(c, s, step, time, f) == (s, Err(Adapter.Unavailable))
      && Adapter.Corrected(c, s, step, time, f) == (s, Err(Adapter.Unavailable))
      && Adapter.After(c, s, Adapter.Start) == s.(started := true) && !s.terminal
  {
  }
}
