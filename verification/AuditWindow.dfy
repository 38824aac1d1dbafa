/**
 The summary at the end of the energy audit: the rows of a window of time, their sums, the relative residual, and
 whether the window may count as physical evidence.
 */
module AuditWindow {
  import opened Wrappers
  import opened EnergyLedger
  import opened Vectors

  const ALIGNMENT := 1.0e-10
  const SMALLEST := 1.0e-30

  predicate Near(value: real, boundary: real) {
    Abs(value - boundary) <= ALIGNMENT * Max(1.0, Abs(boundary))
  }

  /** The time before the first row. */
  function InitialTime(rows: seq<Row>): real
    requires rows != []
  {
    rows[0].time - TimeStep(rows, 0)
  }

  // ----- the window

  /** The state a boundary stands for: -1 for the initial state where that is allowed, else the first row near it. */
  ghost predicate Aligned(rows: seq<Row>, boundary: real, initial: Option<real>, index: Option<int>) {
    if initial.Some? && Near(initial.value, boundary) then index == Some(-1)
    else
      match index
      case None => forall i :: 0 <= i < |rows| ==> !Near(rows[i].time, boundary)
      case Some(k) =>
        0 <= k < |rows| && Near(rows[k].time, boundary) && forall i :: 0 <= i < k ==> !Near(rows[i].time, boundary)
  }

  method AlignedIndex(rows: seq<Row>, boundary: real, initial: Option<real>) returns (index: Option<int>)
    ensures Aligned(rows, boundary, initial, index)
  {
    hide Near;
    if initial.Some? && Near(initial.value, boundary) {
      return Some(-1);
    }
    for i: nat := 0 to |rows|
      invariant forall k :: 0 <= k < i ==> !Near(rows[k].time, boundary)
    {
      if Near(rows[i].time, boundary) {
        return Some(i);
      }
    }
    return None;
  }

  /** The rows `first` to `past`, and the times at which the window begins and ends. */
  datatype Window = Window(first: nat, past: nat, start: real, end: real)

  predicate Explicit(start: Option<real>, end: Option<real>) {
    start.Some? || end.Some?
  }

  /** The window that two boundaries select: the rows after the state at the one up to the state at the other. */
  ghost predicate Selects(rows: seq<Row>, start: Option<real>, end: Option<real>, w: Window)
    requires rows != []
  {
    && w.first < w.past <= |rows|
    && if Explicit(start, end) then
      && w.start == Or(start, InitialTime(rows)) && w.end == Or(end, rows[|rows| - 1].time)
      && Aligned(rows, w.start, Some(InitialTime(rows)), Some(w.first - 1))
      && Aligned(rows, w.end, None, Some(w.past - 1))
    else
      && w.first == |rows| / 2 && w.past == |rows|
      && w.start == rows[w.first].time - TimeStep(rows, w.first) && w.end == rows[|rows| - 1].time
  }

  method SelectWindow(rows: seq<Row>, start: Option<real>, end: Option<real>) returns (w: Option<Window>)
    requires rows != []
    ensures w.Some? ==> Selects(rows, start, end, w.value)
    ensures w.None? ==> forall x :: !Selects(rows, start, end, x)
  {
    hide Near, TimeStep;
    if Explicit(start, end) {
      var from, to := Or(start, InitialTime(rows)), Or(end, rows[|rows| - 1].time);
      var before := AlignedIndex(rows, from, Some(InitialTime(rows)));
      var last := AlignedIndex(rows, to, None);
      if before.None? || last.None? || last.value <= before.value {
        forall x
          ensures !Selects(rows, start, end, x)
        {
          if Selects(rows, start, end, x) {
            AlignedOnce(rows, from, Some(InitialTime(rows)), before, Some(x.first - 1));
            AlignedOnce(rows, to, None, last, Some(x.past - 1));
          }
        }
        return None;
      }
      return Some(Window(before.value + 1, last.value + 1, from, to));
    }
    var first := |rows| / 2;
    return Some(Window(first, |rows|, rows[first].time - TimeStep(rows, first), rows[|rows| - 1].time));
  }

  /** A boundary stands for one state at most. */
  lemma AlignedOnce(rows: seq<Row>, boundary: real, initial: Option<real>, a: Option<int>, b: Option<int>)
    requires Aligned(rows, boundary, initial, a) && Aligned(rows, boundary, initial, b)
    ensures a == b
  {
    hide Near;
  }

  lemma {:induction false} TimesIncrease(rows: seq<Row>, i: nat, j: nat)
    requires Auditable(rows) && i < j < |rows|
    ensures rows[i].time < rows[j].time
    decreases j
  {
    assert Dissipates(rows, j);
    if i < j - 1 {
      TimesIncrease(rows, i, j - 1);
    }
  }

  /** The selected rows are those recorded after the state the window starts from, up to the state it ends with. */
  lemma WindowIsInterval(rows: seq<Row>, start: Option<real>, end: Option<real>, w: Window, i: nat)
    requires Auditable(rows) && Selects(rows, start, end, w) && i < |rows|
    ensures w.first <= i < w.past
      <==> (w.first == 0 || rows[w.first - 1].time < rows[i].time) && rows[i].time <= rows[w.past - 1].time
  {
    hide Aligned, Dissipates, TimeStep;
    if w.first > 0 && i < w.first - 1 {
      TimesIncrease(rows, i, w.first - 1);
    }
    if w.first > 0 && w.first - 1 < i {
      TimesIncrease(rows, w.first - 1, i);
    }
    if i < w.past - 1 {
      TimesIncrease(rows, i, w.past - 1);
    }
    if w.past - 1 < i {
      TimesIncrease(rows, w.past - 1, i);
    }
  }

  // ----- the sums

  /** Sums over some rows: the totals, the change of stored energy, and the work regardless of its sign. */
  datatype Sums = Sums(totals: Totals, stored: real, throughput: real)

  function Throughput(incs: seq<Increment>): real {
    SumOf(incs, (i: Increment) => Abs(i.structure))
  }

  function SumsOf(incs: seq<Increment>): Sums {
    Sums(Total(incs), Deltas(incs), Throughput(incs))
  }

  lemma SumsNext(incs: seq<Increment>, k: nat)
    requires k < |incs|
    ensures SumsOf(incs[..0]) == Sums(NOTHING, 0.0, 0.0)
    ensures var s := SumsOf(incs[..k]);
      SumsOf(incs[..k + 1])
      == Sums(Plus(s.totals, incs[k]), s.stored + incs[k].delta, s.throughput + Abs(incs[k].structure))
  {
    hide Plus, Abs;
    assert incs[..k + 1][..k] == incs[..k];
  }

  method SumRows(out: seq<Audited>, first: nat, past: nat) returns (s: Sums)
    requires first < past <= |out|
    ensures s == SumsOf(Recorded(out)[first..past])
  {
    hide SumsOf, Plus, Abs;
    var totals, stored, throughput := NOTHING, 0.0, 0.0;
    ghost var incs := Recorded(out)[first..past];
    SumsNext(incs, 0);
    for i: nat := first to past
      invariant Sums(totals, stored, throughput) == SumsOf(incs[..i - first])
    {
      var x := out[i].increment;
      totals, stored, throughput := Plus(totals, x), stored + x.delta, throughput + Abs(x.structure);
      SumsNext(incs, i - first);
    }
    assert incs[..past - first] == incs;
    return Sums(totals, stored, throughput);
  }

  function Recorded(out: seq<Audited>): (incs: seq<Increment>)
    ensures |incs| == |out|
  {
    seq(|out|, i requires 0 <= i < |out| => out[i].increment)
  }

  function Joined(a: Totals, b: Totals): Totals {
    Totals(a.cfd + b.cfd, a.structure + b.structure, a.defect + b.defect, a.projection + b.projection,
           a.temporal + b.temporal, a.damping + b.damping, a.balance + b.balance)
  }

  /** The sums of a window are what the cumulative columns gain over it. */
  lemma {:induction false} WindowIsGain(incs: seq<Increment>, first: nat, past: nat)
    requires first <= past <= |incs|
    ensures Total(incs[..past]) == Joined(Total(incs[..first]), Total(incs[first..past]))
    ensures Deltas(incs[..past]) == Deltas(incs[..first]) + Deltas(incs[first..past])
    ensures Throughput(incs[..past]) == Throughput(incs[..first]) + Throughput(incs[first..past])
    decreases past
  {
    hide Abs;
    if first < past {
      WindowIsGain(incs, first, past - 1);
      assert incs[..past][..past - 1] == incs[..past - 1];
      assert incs[first..past][..past - 1 - first] == incs[first..past - 1];
    } else {
      assert incs[first..past] == [];
    }
  }

  /** Two windows that meet have the sums of the window they make up. */
  lemma WindowsAdd(incs: seq<Increment>, a: nat, b: nat, c: nat)
    requires a <= b <= c <= |incs|
    ensures Total(incs[a..c]) == Joined(Total(incs[a..b]), Total(incs[b..c]))
    ensures Deltas(incs[a..c]) == Deltas(incs[a..b]) + Deltas(incs[b..c])
    ensures Throughput(incs[a..c]) == Throughput(incs[a..b]) + Throughput(incs[b..c])
  {
    hide Total, Deltas, Throughput;
    WindowIsGain(incs[a..], b - a, c - a);
    assert incs[a..][..c - a] == incs[a..c] && incs[a..][..b - a] == incs[a..b]
      && incs[a..][b - a..c - a] == incs[b..c];
  }

  /** Over a window the residual is work less the change of stored energy less damping, and the defect splits. */
  lemma WindowBalances(rows: seq<Row>, supplied: Option<real>, first: nat, past: nat)
    requires first < past <= |rows|
    ensures var s := SumsOf(AuditIncrements(rows, supplied)[first..past]);
      && s.stored == StoredOf(rows, past - 1) - BoundaryStored(rows, supplied, first)
      && s.totals.balance == s.totals.structure - s.stored - s.totals.damping
      && s.totals.defect - s.totals.projection - s.totals.temporal == 0.0
  {
    hide Total, Deltas, Throughput, StoredOf, InitialStored, AuditIncrements;
    var incs := AuditIncrements(rows, supplied);
    WindowIsGain(incs, first, past);
    LedgerBalances(rows, supplied, past);
    DeltasTelescope(rows, supplied, past);
    if first > 0 {
      LedgerBalances(rows, supplied, first);
      DeltasTelescope(rows, supplied, first);
    } else {
      assert incs[..0] == [];
      EmptySums();
    }
  }

  lemma EmptySums()
    ensures SumsOf([]) == Sums(NOTHING, 0.0, 0.0)
  {
  }

  // ----- the relative residual

  function Scale(s: Sums): real {
    Max(Max(Max(Abs(s.totals.structure), Abs(s.stored)), Max(Abs(s.totals.damping), s.throughput)), SMALLEST)
  }

  /** The residual by the largest of the energies it is made of. */
  function Relative(s: Sums): real {
    Abs(s.totals.balance) / Scale(s)
  }

  /** The relative residual of a window is at most three. */
  lemma RelativeAtMostThree(rows: seq<Row>, supplied: Option<real>, first: nat, past: nat)
    requires first < past <= |rows|
    ensures 0.0 <= Relative(SumsOf(AuditIncrements(rows, supplied)[first..past])) <= 3.0
  {
    hide SumsOf, AuditIncrements, StoredOf, BoundaryStored;
    WindowBalances(rows, supplied, first, past);
    var s := SumsOf(AuditIncrements(rows, supplied)[first..past]);
    AtMost(Abs(s.totals.balance), Scale(s));
  }

  lemma AtMost(x: real, scale: real)
    requires 0.0 <= x <= 3.0 * scale && scale > 0.0
    ensures 0.0 <= x / scale <= 3.0
  {
    Divided(x, scale);
    QuotientBounds(x, scale, x / scale);
  }

  lemma QuotientBounds(x: real, scale: real, y: real)
    requires 0.0 <= x <= 3.0 * scale && scale > 0.0 && scale * y == x
    ensures 0.0 <= y <= 3.0
  {
    assert scale * (3.0 - y) >= 0.0;
  }

  // ----- the summary

  predicate Integrated(rows: seq<Row>) {
    rows != [] && forall i :: 0 <= i < |rows| ==> rows[i].representation == "integrated_N"
  }

  /** The energy at the beginning of the file was supplied or recorded, not reconstructed or taken as zero. */
  predicate InitialKnown(rows: seq<Row>, supplied: Option<real>)
    requires rows != []
  {
    supplied.Some? || rows[0].previousStored.Some?
  }

  datatype Summary = Summary(
    full: Sums, relative: real, window: Window, sums: Sums, windowRelative: real, initialKnown: bool, ready: bool)

  /** The summary of a file and a window the caller may have chosen and vouched for. */
  ghost predicate Summarizes(rows: seq<Row>, supplied: Option<real>, start: Option<real>, end: Option<real>,
                             steady: bool, y: Summary)
    requires rows != []
  {
    var incs := AuditIncrements(rows, supplied);
    && y.full == SumsOf(incs) && y.relative == Relative(y.full)
    && Selects(rows, start, end, y.window)
    && y.sums == SumsOf(incs[y.window.first..y.window.past]) && y.windowRelative == Relative(y.sums)
    && y.initialKnown == (InitialKnown(rows, supplied) || y.window.first > 0)
    && y.ready == (Explicit(start, end) && steady && rows[0].stored.Some? && y.initialKnown && Integrated(rows))
  }

  method Summarize(rows: seq<Row>, supplied: Option<real>, start: Option<real>, end: Option<real>, steady: bool,
                   out: seq<Audited>) returns (r: Option<Summary>)
    requires Auditable(rows) && |out| == |rows|
    requires forall i :: 0 <= i < |rows| ==> out[i] == AuditedRow(rows, supplied, i)
    ensures r.Some? ==> Summarizes(rows, supplied, start, end, steady, r.value)
    ensures r.None? ==> forall x :: !Selects(rows, start, end, x)
  {
    hide Selects, TimeStep, StoredOf, BoundaryStored, Total, Deltas, Throughput, AuditIncrement, Relative,
         SumsOf;
    assert Recorded(out) == AuditIncrements(rows, supplied);
    var selected := SelectWindow(rows, start, end);
    if selected.None? {
      return None;
    }
    var w := selected.value;
    SelectsRows(rows, start, end, w);
    var all := SumRows(out, 0, |out|);
    var sums := SumRows(out, w.first, w.past);
    var last := out[|out| - 1];
    var full := Sums(last.totals, last.stored - out[0].storedBefore, all.throughput);
    FullSums(rows, supplied, out);
    assert Recorded(out)[0..|out|] == Recorded(out);
    var known := InitialKnown(rows, supplied) || w.first > 0;
    var ready := Explicit(start, end) && steady && rows[0].stored.Some? && known && Integrated(rows);
    return Some(Summary(full, Relative(full), w, sums, Relative(sums), known, ready));
  }

  /** Totals and stored energy of the last row, against the energy the file began with, are the sums over all rows. */
  lemma FullSums(rows: seq<Row>, supplied: Option<real>, out: seq<Audited>)
    requires rows != [] && |out| == |rows|
    requires forall i :: 0 <= i < |rows| ==> out[i] == AuditedRow(rows, supplied, i)
    ensures var s := SumsOf(AuditIncrements(rows, supplied));
      s.totals == out[|out| - 1].totals && s.stored == out[|out| - 1].stored - out[0].storedBefore
  {
    hide TimeStep, StoredOf, BoundaryStored, Total, Deltas, Throughput, AuditIncrement;
    var incs := AuditIncrements(rows, supplied);
    assert incs[..|rows|] == incs && incs[0..|rows|] == incs;
    WindowBalances(rows, supplied, 0, |rows|);
  }

  lemma SelectsRows(rows: seq<Row>, start: Option<real>, end: Option<real>, w: Window)
    requires rows != [] && Selects(rows, start, end, w)
    ensures w.first < w.past <= |rows|
  {
    hide Aligned, TimeStep;
  }

  /** A file a driver wrote is ready exactly when the caller chose and vouched for the window and every load is marked
      as integrated. */
  lemma DriverIsReady(samples: seq<Sample>, branch: Branch, mode: LoadMode, initial: real, dt: real, fileStart: int,
                      supplied: Option<real>, start: Option<real>, end: Option<real>, steady: bool, y: Summary)
    requires samples != []
    requires Summarizes(RowsOf(samples, branch, mode, initial, dt, fileStart), supplied, start, end, steady, y)
    ensures y.ready
      <==> Explicit(start, end) && steady
           && forall i :: 0 <= i < |samples| ==> samples[i].representation == "integrated_N"
  {
    hide Project, TimeAt, Selects, Relative, SumsOf;
    var rows := RowsOf(samples, branch, mode, initial, dt, fileStart);
    assert forall i :: 0 <= i < |samples| ==> rows[i].representation == samples[i].representation;
  }

  /** Behind a ready window stands an energy that was supplied, recorded with the first row, or the state recorded in
      the row before it. */
  lemma ReadyIsKnown(rows: seq<Row>, supplied: Option<real>, start: Option<real>, end: Option<real>, steady: bool,
                     y: Summary)
    requires rows != [] && Summarizes(rows, supplied, start, end, steady, y) && y.ready
    ensures var before := BoundaryStored(rows, supplied, y.window.first);
      if y.window.first > 0 then before == Or(rows[y.window.first - 1].stored, 0.0)
      else supplied == Some(before) || rows[0].previousStored == Some(before)
  {
    hide Aligned, Relative, SumsOf, AuditIncrements, TimeStep;
  }
}
