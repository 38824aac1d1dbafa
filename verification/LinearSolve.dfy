/**
 Gaussian elimination with partial pivoting, as the ANCF kernel's `solve` runs it in place on a
 row-major copy of the matrix and on a copy of the right-hand side.

 The elimination is specified by functions on the system as a value; the lemmas show what each
 step keeps and that back substitution inverts the triangular form.
 */
module LinearSolve {
  import opened Wrappers
  import opened Vectors

  /** A column whose largest remaining entry is below this counts as singular. */
  const PIVOT_FLOOR := 1.0e-24

  datatype System = System(a: seq<seq<real>>, b: seq<real>)

  datatype SolveError = DimensionMismatch | SingularTangent

  predicate Square(s: System, n: nat) {
    && |s.a| == n && |s.b| == n
    && forall i :: 0 <= i < n ==> |s.a[i]| == n
  }

  ghost predicate Solves(s: System, x: seq<real>)
    requires Square(s, |x|)
  {
    forall i :: 0 <= i < |x| ==> Dot(s.a[i], x, 0, |x|) == s.b[i]
  }

  ghost predicate UniqueSolution(s: System, x: seq<real>) {
    && Square(s, |x|) && Solves(s, x)
    && forall y: seq<real> :: |y| == |x| && Solves(s, y) ==> y == x
  }

  /** Upper triangular in the first `k` columns. */
  ghost predicate ZeroBelow(s: System, n: nat, k: nat)
    requires Square(s, n) && k <= n
  {
    forall i, j :: 0 <= j < k && j < i < n ==> s.a[i][j] == 0.0
  }

  ghost predicate PivotsNonzero(s: System, n: nat, k: nat)
    requires Square(s, n) && k <= n
  {
    forall j :: 0 <= j < k ==> s.a[j][j] != 0.0
  }

  // ----- elimination on values

  /** The first row in `k..hi` whose entry in column `k` is largest in absolute value. */
  ghost function PivotRow(s: System, n: nat, k: nat, hi: nat): (p: nat)
    requires Square(s, n) && k < hi <= n
    ensures k <= p < hi
    ensures forall i :: k <= i < hi ==> Abs(s.a[i][k]) <= Abs(s.a[p][k])
    ensures forall i :: k <= i < p ==> Abs(s.a[i][k]) < Abs(s.a[p][k])
    decreases hi
  {
    if hi == k + 1 then k
    else
      var p := PivotRow(s, n, k, hi - 1);
      if Abs(s.a[hi - 1][k]) > Abs(s.a[p][k]) then hi - 1 else p
  }

  ghost function Swapped(s: System, n: nat, k: nat, p: nat): (t: System)
    requires Square(s, n) && k < n && p < n
    ensures Square(t, n)
  {
    System(s.a[k := s.a[p]][p := s.a[k]], s.b[k := s.b[p]][p := s.b[k]])
  }

  /** Row `i` less the multiple of row `k` that clears column `k`. */
  ghost function RowCleared(s: System, n: nat, k: nat, i: nat): (t: System)
    requires Square(s, n) && k < n && i < n && s.a[k][k] != 0.0
    ensures Square(t, n)
  {
    var f := s.a[i][k] / s.a[k][k];
    System(s.a[i := seq(n, j requires 0 <= j < n => s.a[i][j] - f * s.a[k][j])], s.b[i := s.b[i] - f * s.b[k]])
  }

  ghost function ColumnCleared(s: System, n: nat, k: nat, hi: nat): (t: System)
    requires Square(s, n) && k < hi <= n && s.a[k][k] != 0.0
    ensures Square(t, n)
    ensures forall i :: 0 <= i < n && (i <= k || hi <= i) ==> t.a[i] == s.a[i] && t.b[i] == s.b[i]
    decreases hi
  {
    if hi == k + 1 then s else RowCleared(ColumnCleared(s, n, k, hi - 1), n, k, hi - 1)
  }

  /** One column: pivot, swap and clear, unless the pivot is below the floor. */
  ghost function Stage(s: System, n: nat, k: nat): (r: Option<System>)
    requires Square(s, n) && k < n
    ensures r.Some? ==> Square(r.value, n)
  {
    var p := PivotRow(s, n, k, n);
    if Abs(s.a[p][k]) < PIVOT_FLOOR then None
    else Some(ColumnCleared(Swapped(s, n, k, p), n, k, n))
  }

  /** The system after the first `k` columns, unless some pivot fell below the floor. */
  ghost function Eliminated(s: System, n: nat, k: nat): (r: Option<System>)
    requires Square(s, n) && k <= n
    ensures r.Some? ==> Square(r.value, n)
    decreases k
  {
    if k == 0 then Some(s)
    else
      match Eliminated(s, n, k - 1)
      case None => None
      case Some(t) => Stage(t, n, k - 1)
  }

  // ----- what each step keeps

  lemma SwappedKeepsSolutions(s: System, n: nat, k: nat, p: nat, x: seq<real>)
    requires Square(s, n) && k < n && p < n && |x| == n
    ensures Solves(s, x) <==> Solves(Swapped(s, n, k, p), x)
  {
    var t := Swapped(s, n, k, p);
    assert t.a[k] == s.a[p] && t.b[k] == s.b[p] && t.a[p] == s.a[k] && t.b[p] == s.b[k];
    if Solves(t, x) {
      forall i | 0 <= i < n
        ensures Dot(s.a[i], x, 0, n) == s.b[i]
      {
        var i' := if i == k then p else if i == p then k else i;
        assert Dot(t.a[i'], x, 0, n) == t.b[i'];
      }
    }
  }

  lemma RowClearedKeepsSolutions(s: System, n: nat, k: nat, i: nat, x: seq<real>)
    requires Square(s, n) && k < n && i < n && i != k && s.a[k][k] != 0.0 && |x| == n
    ensures Solves(s, x) <==> Solves(RowCleared(s, n, k, i), x)
  {
    var t := RowCleared(s, n, k, i);
    DotCombine(s.a[i], s.a[k], t.a[i], -(s.a[i][k] / s.a[k][k]), x, 0, n);
    assert forall r :: 0 <= r < n && r != i ==> t.a[r] == s.a[r] && t.b[r] == s.b[r];
    if Solves(t, x) {
      assert Dot(t.a[k], x, 0, n) == t.b[k];
      assert Dot(t.a[i], x, 0, n) == t.b[i];
      forall r | 0 <= r < n
        ensures Dot(s.a[r], x, 0, n) == s.b[r]
      {
        assert Dot(t.a[r], x, 0, n) == t.b[r];
      }
    }
  }

  lemma {:induction false} ColumnClearedKeepsSolutions(s: System, n: nat, k: nat, hi: nat, x: seq<real>)
    requires Square(s, n) && k < hi <= n && s.a[k][k] != 0.0 && |x| == n
    ensures Solves(s, x) <==> Solves(ColumnCleared(s, n, k, hi), x)
    decreases hi
  {
    hide RowCleared, Solves;
    if k + 1 < hi {
      ColumnClearedKeepsSolutions(s, n, k, hi - 1, x);
      RowClearedKeepsSolutions(ColumnCleared(s, n, k, hi - 1), n, k, hi - 1, x);
    }
  }

  lemma StageKeepsSolutions(s: System, n: nat, k: nat, x: seq<real>)
    requires Square(s, n) && k < n && Stage(s, n, k).Some? && |x| == n
    ensures Solves(s, x) <==> Solves(Stage(s, n, k).value, x)
  {
    hide ColumnCleared, Solves;
    var p := PivotRow(s, n, k, n);
    SwappedKeepsSolutions(s, n, k, p, x);
    ColumnClearedKeepsSolutions(Swapped(s, n, k, p), n, k, n, x);
  }

  /** Elimination neither adds nor loses a solution. */
  lemma {:induction false} EliminatedKeepsSolutions(s: System, n: nat, k: nat, x: seq<real>)
    requires Square(s, n) && k <= n && Eliminated(s, n, k).Some? && |x| == n
    ensures Solves(s, x) <==> Solves(Eliminated(s, n, k).value, x)
    decreases k
  {
    hide Stage, Solves;
    if k > 0 {
      EliminatedKeepsSolutions(s, n, k - 1, x);
      StageKeepsSolutions(Eliminated(s, n, k - 1).value, n, k - 1, x);
    }
  }

  lemma RowClearedZeros(s: System, n: nat, k: nat, i: nat)
    requires Square(s, n) && k < i < n && s.a[k][k] != 0.0 && ZeroBelow(s, n, k)
    ensures var t := RowCleared(s, n, k, i);
      && ZeroBelow(t, n, k) && t.a[i][k] == 0.0
      && forall r :: 0 <= r < n && r != i ==> t.a[r] == s.a[r]
  {
    var f := s.a[i][k] / s.a[k][k];
    assert s.a[i][k] - f * s.a[k][k] == 0.0;
    assert forall j :: 0 <= j < k ==> s.a[i][j] - f * s.a[k][j] == 0.0;
  }

  /** Clearing column `k` keeps the zeros already made and makes the new ones. */
  lemma {:induction false} ColumnClearedZeros(s: System, n: nat, k: nat, hi: nat)
    requires Square(s, n) && k < hi <= n && s.a[k][k] != 0.0 && ZeroBelow(s, n, k)
    ensures var t := ColumnCleared(s, n, k, hi);
      && ZeroBelow(t, n, k)
      && forall i :: k < i < hi ==> t.a[i][k] == 0.0
    decreases hi
  {
    hide RowCleared;
    if k + 1 < hi {
      ColumnClearedZeros(s, n, k, hi - 1);
      RowClearedZeros(ColumnCleared(s, n, k, hi - 1), n, k, hi - 1);
    }
  }

  lemma StageShape(s: System, n: nat, k: nat)
    requires Square(s, n) && k < n && Stage(s, n, k).Some? && ZeroBelow(s, n, k) && PivotsNonzero(s, n, k)
    ensures var t := Stage(s, n, k).value; ZeroBelow(t, n, k + 1) && PivotsNonzero(t, n, k + 1)
  {
    var u := Swapped(s, n, k, PivotRow(s, n, k, n));
    assert u.a[k][k] != 0.0;
    ColumnClearedZeros(u, n, k, n);
  }

  /** Elimination leaves an upper triangle with nonzero pivots. */
  lemma {:induction false} EliminatedShape(s: System, n: nat, k: nat)
    requires Square(s, n) && k <= n && Eliminated(s, n, k).Some?
    ensures var t := Eliminated(s, n, k).value; ZeroBelow(t, n, k) && PivotsNonzero(t, n, k)
    decreases k
  {
    hide Stage;
    if k > 0 {
      EliminatedShape(s, n, k - 1);
      StageShape(Eliminated(s, n, k - 1).value, n, k - 1);
    }
  }

  /** Two solutions of a triangular system agree from row `i` down. */
  lemma {:induction false} TriangularAgree(s: System, n: nat, x: seq<real>, y: seq<real>, i: nat)
    requires Square(s, n) && ZeroBelow(s, n, n) && PivotsNonzero(s, n, n) && |x| == n && |y| == n && i <= n
    requires Solves(s, x) && Solves(s, y)
    ensures forall j :: i <= j < n ==> x[j] == y[j]
    decreases n - i
  {
    hide Dot;
    if i < n {
      TriangularAgree(s, n, x, y, i + 1);
      PivotCancels(s.a[i], x, y, i);
    }
  }

  /** A row that starts at its pivot. */
  lemma DotFromIndex(u: seq<real>, x: seq<real>, i: nat)
    requires i < |u| == |x| && forall j :: 0 <= j < i ==> u[j] == 0.0
    ensures Dot(u, x, 0, |u|) == u[i] * x[i] + Dot(u, x, i + 1, |u|)
  {
    DotSplit(u, x, 0, i, |u|);
    DotZero(u, x, 0, i);
    DotSplit(u, x, i, i + 1, |u|);
    assert Dot(u, x, i, i + 1) == Dot(u, x, i, i) + u[i] * x[i];
  }

  lemma PivotCancels(u: seq<real>, x: seq<real>, y: seq<real>, i: nat)
    requires i < |u| == |x| == |y| && u[i] != 0.0 && forall j :: 0 <= j < i ==> u[j] == 0.0
    requires Dot(u, x, 0, |u|) == Dot(u, y, 0, |u|) && forall j :: i < j < |u| ==> x[j] == y[j]
    ensures x[i] == y[i]
  {
    hide Dot;
    DotFromIndex(u, x, i);
    DotFromIndex(u, y, i);
    DotAgree(u, u, x, y, i + 1, |u|);
    CancelFactor(u[i], x[i], y[i]);
  }

  lemma CancelFactor(d: real, x: real, y: real)
    requires d != 0.0 && d * x == d * y
    ensures x == y
  {
    assert d * (x - y) == 0.0;
  }

  /** A matrix that sends a nonzero vector to zero never has exactly one solution. */
  lemma KernelExcludesUnique(s: System, x: seq<real>, y: seq<real>)
    requires |x| == |y| && Square(s, |x|) && InKernel(s, y)
    ensures !UniqueSolution(s, x)
  {
    hide Dot;
    var z := seq(|x|, j requires 0 <= j < |x| => x[j] + y[j]);
    var j :| 0 <= j < |y| && y[j] != 0.0;
    assert z[j] != x[j];
    if Solves(s, x) {
      forall i | 0 <= i < |x|
        ensures Dot(s.a[i], z, 0, |z|) == s.b[i]
      {
        DotAdds(s.a[i], x, y, z, |x|);
      }
      assert Solves(s, z);
    }
  }

  lemma {:induction false} DotAdds(u: seq<real>, x: seq<real>, y: seq<real>, z: seq<real>, n: nat)
    requires n <= |u| && n <= |x| && n <= |y| && n <= |z| && forall j :: 0 <= j < n ==> z[j] == x[j] + y[j]
    ensures Dot(u, z, 0, n) == Dot(u, x, 0, n) + Dot(u, y, 0, n)
  {
    if n > 0 {
      DotAdds(u, x, y, z, n - 1);
      assert u[n - 1] * z[n - 1] == u[n - 1] * x[n - 1] + u[n - 1] * y[n - 1];
    }
  }

  ghost predicate InKernel(s: System, y: seq<real>) {
    && Square(s, |y|)
    && (exists j :: 0 <= j < |y| && y[j] != 0.0)
    && forall i :: 0 <= i < |y| ==> Dot(s.a[i], y, 0, |y|) == 0.0
  }

  // ----- the algorithm in place

  /** The working arrays hold the system `t`. */
  ghost predicate Holds(aa: array2<real>, bb: array<real>, t: System)
    reads aa, bb
  {
    && aa.Length0 == aa.Length1 == bb.Length && Square(t, bb.Length)
    && (forall i, j :: 0 <= i < bb.Length && 0 <= j < bb.Length ==> aa[i, j] == t.a[i][j])
    && (forall i :: 0 <= i < bb.Length ==> bb[i] == t.b[i])
  }

  method FindPivot(aa: array2<real>, bb: array<real>, k: nat, ghost t: System) returns (pivot: nat)
    requires Holds(aa, bb, t) && k < bb.Length
    ensures pivot == PivotRow(t, bb.Length, k, bb.Length)
  {
    pivot := k;
    for i := k + 1 to bb.Length
      invariant pivot == PivotRow(t, bb.Length, k, i)
    {
      if Abs(aa[i, k]) > Abs(aa[pivot, k]) {
        pivot := i;
      }
    }
  }

  /** Swaps columns `k..` of two rows; the columns before `k` hold zeros in both. */
  method SwapRows(aa: array2<real>, bb: array<real>, k: nat, p: nat, ghost t: System)
    requires Holds(aa, bb, t) && k < p < bb.Length && ZeroBelow(t, bb.Length, k)
    modifies aa, bb
    ensures Holds(aa, bb, Swapped(t, bb.Length, k, p))
  {
    var n := bb.Length;
    for j := k to n
      invariant forall i, c :: 0 <= i < n && 0 <= c < n ==>
        aa[i, c] == if k <= c < j && i == k then t.a[p][c] else if k <= c < j && i == p then t.a[k][c] else t.a[i][c]
      invariant forall i :: 0 <= i < n ==> bb[i] == t.b[i]
    {
      aa[k, j], aa[p, j] := aa[p, j], aa[k, j];
    }
    bb[k], bb[p] := bb[p], bb[k];
  }

  /** Subtracts from row `i` the multiple of row `k` that clears column `k`. */
  method ClearRow(aa: array2<real>, bb: array<real>, k: nat, i: nat, ghost t: System)
    requires Holds(aa, bb, t) && k < i < bb.Length && t.a[k][k] != 0.0 && ZeroBelow(t, bb.Length, k)
    modifies aa, bb
    ensures Holds(aa, bb, RowCleared(t, bb.Length, k, i))
  {
    var n := bb.Length;
    ghost var u := RowCleared(t, n, k, i);
    var f := aa[i, k] / aa[k, k];
    aa[i, k] := 0.0;
    assert u.a[i][k] == 0.0 by {
      assert t.a[i][k] - t.a[i][k] / t.a[k][k] * t.a[k][k] == 0.0;
    }
    assert forall c :: 0 <= c < k ==> u.a[i][c] == 0.0 - f * 0.0;
    for j := k + 1 to n
      invariant forall r, c :: 0 <= r < n && 0 <= c < n ==>
        aa[r, c] == if r == i && c < j then u.a[i][c] else t.a[r][c]
      invariant forall r :: 0 <= r < n ==> bb[r] == t.b[r]
    {
      aa[i, j] := aa[i, j] - f * aa[k, j];
    }
    bb[i] := bb[i] - f * bb[k];
  }

  method ClearColumn(aa: array2<real>, bb: array<real>, k: nat, ghost t: System)
    requires Holds(aa, bb, t) && k < bb.Length && t.a[k][k] != 0.0 && ZeroBelow(t, bb.Length, k)
    modifies aa, bb
    ensures Holds(aa, bb, ColumnCleared(t, bb.Length, k, bb.Length))
  {
    var n := bb.Length;
    for i := k + 1 to n
      invariant Holds(aa, bb, ColumnCleared(t, n, k, i))
    {
      ColumnClearedZeros(t, n, k, i);
      ClearRow(aa, bb, k, i, ColumnCleared(t, n, k, i));
    }
  }

  /** The pivot, swap and clear of one column; false when the pivot is below the floor. */
  method RunStage(aa: array2<real>, bb: array<real>, k: nat, ghost t: System) returns (regular: bool)
    requires Holds(aa, bb, t) && k < bb.Length && ZeroBelow(t, bb.Length, k)
    modifies aa, bb
    ensures regular <==> Stage(t, bb.Length, k).Some?
    ensures regular ==> Holds(aa, bb, Stage(t, bb.Length, k).value)
  {
    var pivot := FindPivot(aa, bb, k, t);
    if Abs(aa[pivot, k]) < PIVOT_FLOOR {
      return false;
    }
    ghost var u := Swapped(t, bb.Length, k, pivot);
    if pivot != k {
      SwapRows(aa, bb, k, pivot, t);
    } else {
      assert u == t;
    }
    ClearColumn(aa, bb, k, u);
    return true;
  }

  /** The right-hand side of row `i` less the terms already solved. */
  method Remainder(aa: array2<real>, bb: array<real>, i: nat, xx: array<real>, ghost t: System) returns (s: real)
    requires Holds(aa, bb, t) && i < bb.Length == xx.Length
    ensures s == t.b[i] - Dot(t.a[i], xx[..], i + 1, bb.Length)
  {
    s := bb[i];
    for j := i + 1 to bb.Length
      invariant s == t.b[i] - Dot(t.a[i], xx[..], i + 1, j)
    {
      s := s - aa[i, j] * xx[j];
    }
  }

  /** Back substitution from the last row up. */
  method BackSubstitute(aa: array2<real>, bb: array<real>, ghost t: System) returns (x: seq<real>)
    requires Holds(aa, bb, t) && ZeroBelow(t, bb.Length, bb.Length) && PivotsNonzero(t, bb.Length, bb.Length)
    ensures |x| == bb.Length && UniqueSolution(t, x)
  {
    var n := bb.Length;
    var xx := new real[n];
    for i := n downto 0
      invariant SolvedFrom(t, n, xx[..], i)
    {
      var s := Remainder(aa, bb, i, xx, t);
      ghost var before := xx[..];
      xx[i] := s / aa[i, i];
      Divided(s, t.a[i][i]);
      PivotSolves(t.a[i], before, xx[..], i, t.b[i], s);
      RowSolved(t, n, before, xx[..], i);
    }
    x := xx[..];
    TriangularUnique(t, n, x);
  }

  /** The row `u` read from its pivot `r` on meets its right-hand side. */
  ghost predicate RowHolds(u: seq<real>, x: seq<real>, r: nat, b: real)
    requires r < |u| == |x|
  {
    u[r] * x[r] + Dot(u, x, r + 1, |u|) == b
  }

  ghost predicate SolvedFrom(t: System, n: nat, x: seq<real>, i: nat)
    requires Square(t, n) && |x| == n
  {
    forall r :: i <= r < n ==> RowHolds(t.a[r], x, r, t.b[r])
  }

  lemma RowAgrees(u: seq<real>, x: seq<real>, y: seq<real>, r: nat, b: real)
    requires r < |u| == |x| == |y| && RowHolds(u, x, r, b)
    requires forall j :: r <= j < |u| ==> x[j] == y[j]
    ensures RowHolds(u, y, r, b)
  {
    hide Dot;
    DotAgree(u, u, x, y, r + 1, |u|);
    assert u[r] * x[r] == u[r] * y[r];
  }

  lemma PivotSolves(u: seq<real>, x: seq<real>, y: seq<real>, r: nat, b: real, s: real)
    requires r < |u| == |x| == |y| && u[r] * y[r] == s && s == b - Dot(u, x, r + 1, |u|)
    requires forall j :: r < j < |u| ==> x[j] == y[j]
    ensures RowHolds(u, y, r, b)
  {
    hide Dot;
    DotAgree(u, u, x, y, r + 1, |u|);
  }

  lemma RowSolved(t: System, n: nat, before: seq<real>, x: seq<real>, i: nat)
    requires Square(t, n) && |before| == |x| == n && i < n && SolvedFrom(t, n, before, i + 1)
    requires forall j :: 0 <= j < n && j != i ==> x[j] == before[j]
    requires RowHolds(t.a[i], x, i, t.b[i])
    ensures SolvedFrom(t, n, x, i)
  {
    hide RowHolds;
    forall r | i <= r < n
      ensures RowHolds(t.a[r], x, r, t.b[r])
    {
      if r > i {
        RowAgrees(t.a[r], before, x, r, t.b[r]);
      }
    }
  }

  lemma TriangularUnique(t: System, n: nat, x: seq<real>)
    requires Square(t, n) && |x| == n && ZeroBelow(t, n, n) && PivotsNonzero(t, n, n) && SolvedFrom(t, n, x, 0)
    ensures UniqueSolution(t, x)
  {
    hide Dot;
    forall i | 0 <= i < n
      ensures Dot(t.a[i], x, 0, n) == t.b[i]
    {
      assert RowHolds(t.a[i], x, i, t.b[i]);
      DotFromIndex(t.a[i], x, i);
    }
    forall y: seq<real> | |y| == n && Solves(t, y)
      ensures y == x
    {
      TriangularAgree(t, n, x, y, 0);
    }
  }

  /**
   Returns the only solution, or reports the first column whose pivot is below the floor.
   A matrix with a nonzero kernel vector is always reported.
   */
  method Solve(s: System) returns (r: Result<seq<real>, SolveError>)
    ensures r == Err(DimensionMismatch) <==> !Square(s, |s.a|)
    ensures r == Err(SingularTangent) <==> Square(s, |s.a|) && Eliminated(s, |s.a|, |s.a|).None?
    ensures r.Ok? ==> |r.value| == |s.a| && UniqueSolution(s, r.value)
    ensures (exists y :: |y| == |s.a| && InKernel(s, y)) ==> r == Err(SingularTangent)
  {
    var n := |s.a|;
    if !Square(s, n) {
      return Err(DimensionMismatch);
    }
    var aa := new real[n, n]((i: nat, j: nat) requires i < n && j < n => s.a[i][j]);
    var bb := new real[n](i requires 0 <= i < n => s.b[i]);
    var regular := EliminateAll(aa, bb, s);
    if !regular {
      return Err(SingularTangent);
    }
    EliminatedShape(s, n, n);
    var x := BackSubstitute(aa, bb, Eliminated(s, n, n).value);
    UniqueBeforeElimination(s, n, x);
    return Ok(x);
  }

  method EliminateAll(aa: array2<real>, bb: array<real>, ghost s: System) returns (regular: bool)
    requires Holds(aa, bb, s)
    modifies aa, bb
    ensures regular <==> Eliminated(s, bb.Length, bb.Length).Some?
    ensures regular ==> Holds(aa, bb, Eliminated(s, bb.Length, bb.Length).value)
  {
    var n := bb.Length;
    for k := 0 to n
      invariant Eliminated(s, n, k).Some? && Holds(aa, bb, Eliminated(s, n, k).value)
    {
      EliminatedShape(s, n, k);
      regular := RunStage(aa, bb, k, Eliminated(s, n, k).value);
      if !regular {
        SingularStays(s, n, k + 1, n);
        return;
      }
    }
    return true;
  }

  /** The unique solution after elimination is the unique solution before it, and the matrix has no kernel. */
  lemma UniqueBeforeElimination(s: System, n: nat, x: seq<real>)
    requires Square(s, n) && Eliminated(s, n, n).Some? && |x| == n && UniqueSolution(Eliminated(s, n, n).value, x)
    ensures UniqueSolution(s, x)
    ensures forall y :: |y| == n ==> !InKernel(s, y)
  {
    hide Eliminated, Solves;
    EliminatedKeepsSolutions(s, n, n, x);
    forall y: seq<real> | |y| == n && Solves(s, y)
      ensures y == x
    {
      EliminatedKeepsSolutions(s, n, n, y);
    }
    forall y | |y| == n
      ensures !InKernel(s, y)
    {
      if InKernel(s, y) {
        KernelExcludesUnique(s, x, y);
      }
    }
  }

  /** Once a pivot has failed, every later stage reports it. */
  lemma {:induction false} SingularStays(s: System, n: nat, k: nat, m: nat)
    requires Square(s, n) && k <= m <= n && Eliminated(s, n, k).None?
    ensures Eliminated(s, n, m).None?
    decreases m
  {
    hide Stage;
    if k < m {
      SingularStays(s, n, k, m - 1);
    }
  }

  // ----- systems that need no elimination

  lemma {:induction false} TriangularPivot(s: System, n: nat, k: nat, hi: nat)
    requires Square(s, n) && ZeroBelow(s, n, n) && k < hi <= n
    ensures PivotRow(s, n, k, hi) == k
    decreases hi
  {
    if k + 1 < hi {
      TriangularPivot(s, n, k, hi - 1);
    }
  }

  lemma {:induction false} TriangularCleared(s: System, n: nat, k: nat, hi: nat)
    requires Square(s, n) && ZeroBelow(s, n, n) && k < hi <= n && s.a[k][k] != 0.0
    ensures ColumnCleared(s, n, k, hi) == s
    decreases hi
  {
    if k + 1 < hi {
      TriangularCleared(s, n, k, hi - 1);
      NothingCleared(s, n, k, hi - 1);
    }
  }

  lemma NothingCleared(s: System, n: nat, k: nat, i: nat)
    requires Square(s, n) && k < n && i < n && s.a[k][k] != 0.0 && s.a[i][k] == 0.0
    ensures RowCleared(s, n, k, i) == s
  {
    var t := RowCleared(s, n, k, i);
    NoMultiple(s.a[i][k], s.a[k][k], s.b[i], s.b[k]);
    forall j | 0 <= j < n
      ensures t.a[i][j] == s.a[i][j]
    {
      NoMultiple(s.a[i][k], s.a[k][k], s.a[i][j], s.a[k][j]);
    }
    assert t.b[i] == s.b[i] && t.a[i] == s.a[i];
    assert t.a == s.a && t.b == s.b;
  }

  lemma NoMultiple(p: real, d: real, x: real, y: real)
    requires p == 0.0 && d != 0.0
    ensures x - p / d * y == x
  {
    var f := p / d;
    assert f == 0.0;
  }

  /** An upper triangular system passes unchanged exactly as far as no diagonal entry lies between -1e-24 and 1e-24. */
  lemma {:induction false} TriangularPasses(s: System, n: nat, k: nat)
    requires Square(s, n) && ZeroBelow(s, n, n) && k <= n
    ensures Eliminated(s, n, k).Some? <==> forall i :: 0 <= i < k ==> s.a[i][i] >= 1.0e-24 || s.a[i][i] <= -1.0e-24
    ensures Eliminated(s, n, k).Some? ==> Eliminated(s, n, k).value == s
    decreases k
  {
    hide PivotRow, ColumnCleared;
    if k > 0 {
      TriangularPasses(s, n, k - 1);
      TriangularPivot(s, n, k - 1, n);
      if s.a[k - 1][k - 1] != 0.0 {
        TriangularCleared(s, n, k - 1, n);
      }
      assert Swapped(s, n, k - 1, k - 1) == s;
    }
  }
}
