/**
 The C++ kernel's force mapping: `mapping_H3` stacks three rows per slice, `external_force`
 multiplies the stacked rows with the stacked slice forces. Both agree with the Python mapping
 on the uniform mesh, so the kernel conserves the same moments of the load.
 */
module KernelMapping {
  import opened Wrappers
  import opened Vectors
  import opened Hermite
  import opened ForceMapping

  datatype KernelError =
    | SliceOutsideLine
    | ForceDimensions
    | StateDimensions
    | DegenerateTangent
    | SingularMatrix
    | NotConverged

  /** The fields of the kernel's model that its step reads; `quadrature` holds (abscissa, weight) pairs. */
  datatype Model = Model(
    length: real, elements: nat, slices: nat, positions: seq<real>,
    ea: real, ei: real, quadrature: seq<(real, real)>,
    dt: real, beta: real, gamma: real, maxNewton: nat, tolerance: real)
  {
    /** What the request validation grants the kernel. */
    predicate Valid() {
      length > 0.0 && elements >= 2 && slices >= 1
    }

    function Ndof(): nat {
      6 * (elements + 1)
    }

    function ElementLength(): real
      requires elements > 0
    {
      length / elements as real
    }

    function Position(k: nat): real
      requires k < slices
    {
      if |positions| == slices then positions[k]
      else if slices == 1 then 0.0
      else length * k as real / (slices - 1) as real
    }

    predicate SlicesInside() {
      forall k :: 0 <= k < slices ==> 0.0 <= Position(k) <= length
    }

    lemma IsUniform()
      requires Valid()
      ensures Uniform(elements, length, ElementLength())
    {
      UniformDivision(elements, length);
    }
  }

  /** Component `c` of the block at slice `k`. */
  ghost function SliceRow(m: Model, k: nat, c: nat): (row: seq<real>)
    requires m.Valid() && k < m.slices && 0.0 <= m.Position(k) <= m.length && c < 3
    ensures |row| == m.Ndof()
  {
    m.IsUniform();
    KernelRow(m.elements, m.length, m.ElementLength(), m.Position(k), c)
  }

  /** Row `i` of the stack is component `i % 3` at slice `i / 3`. */
  ghost predicate StackedRows(m: Model, rows: seq<seq<real>>)
    requires m.Valid() && m.SlicesInside()
  {
    && |rows| == 3 * m.slices
    && forall i :: 0 <= i < |rows| ==> rows[i] == SliceRow(m, i / 3, i % 3)
  }

  method MappingH3(m: Model) returns (r: Result<seq<seq<real>>, KernelError>)
    requires m.Valid()
    ensures r.Ok? <==> m.SlicesInside()
    ensures r.Err? ==> r.error == SliceOutsideLine
    ensures r.Ok? ==> StackedRows(m, r.value)
  {
    hide SliceRow;
    var h := new real[3 * m.slices, m.Ndof()]((_, _) => 0.0);
    for k: nat := 0 to m.slices
      invariant forall i :: 0 <= i < k ==> 0.0 <= m.Position(i) <= m.length
      invariant forall i :: 0 <= i < 3 * k ==> MatrixRow(h, i) == SliceRow(m, i / 3, i % 3)
      invariant forall i :: 3 * k <= i < 3 * m.slices ==> MatrixRow(h, i) == Zeros(m.Ndof())
    {
      var s := m.Position(k);
      if s < 0.0 || s > m.length {
        return Err(SliceOutsideLine);
      }
      PlaceSlice(m, h, k);
    }
    return Ok(seq(3 * m.slices, i requires 0 <= i < 3 * m.slices reads h => MatrixRow(h, i)));
  }

  /** Writes the three rows of slice `k`. */
  method PlaceSlice(m: Model, h: array2<real>, k: nat)
    requires m.Valid() && h.Length0 == 3 * m.slices && h.Length1 == m.Ndof() && k < m.slices
    requires 0.0 <= m.Position(k) <= m.length
    requires forall i :: 3 * k <= i < 3 * k + 3 ==> MatrixRow(h, i) == Zeros(m.Ndof())
    modifies h
    ensures forall i :: 3 * k <= i < 3 * k + 3 ==> MatrixRow(h, i) == SliceRow(m, k, i - 3 * k)
    ensures forall i :: 0 <= i < h.Length0 && !(3 * k <= i < 3 * k + 3) ==> MatrixRow(h, i) == old(MatrixRow(h, i))
  {
    hide Row, KernelShape;
    m.IsUniform();
    var s, le := m.Position(k), m.ElementLength();
    forall i, j | 3 * k <= i < 3 * k + 3 && 0 <= j < m.Ndof()
      ensures h[i, j] == 0.0
    {
      assert MatrixRow(h, i)[j] == 0.0;
    }
    PlaceBlocks(h, KernelElement(m.elements, m.length, le, s), KernelShape(m.elements, m.length, le, s), 3 * k);
  }

  /** The stacked rows and forces regrouped slice by slice. */
  ghost function Regrouped(rows: seq<seq<real>>, force: seq<real>, slices: nat): (s: seq<Slice>)
    requires |rows| == |force| == 3 * slices
    ensures |s| == slices
  {
    seq(slices, k requires 0 <= k < slices => Slice(rows[3 * k..3 * k + 3], force[3 * k..3 * k + 3]))
  }

  ghost function PartialColumn(rows: seq<seq<real>>, force: seq<real>, j: nat, i: nat): real
    requires i <= |rows| && i <= |force| && forall r :: 0 <= r < |rows| ==> j < |rows[r]|
    decreases i
  {
    if i == 0 then 0.0 else PartialColumn(rows, force, j, i - 1) + rows[i - 1][j] * force[i - 1]
  }

  /** The rows and forces of slice `k`. */
  ghost predicate GroupAt(rows: seq<seq<real>>, force: seq<real>, s: Slice, k: nat)
    requires 3 * k + 3 <= |rows| == |force|
  {
    && s.h == [rows[3 * k], rows[3 * k + 1], rows[3 * k + 2]]
    && s.force == [force[3 * k], force[3 * k + 1], force[3 * k + 2]]
  }

  lemma RegroupedSlice(rows: seq<seq<real>>, force: seq<real>, slices: nat, k: nat)
    requires |rows| == |force| == 3 * slices && k < slices
    ensures GroupAt(rows, force, Regrouped(rows, force, slices)[k], k)
  {
  }

  /** Three more stacked rows are one more slice. */
  lemma OneGroup(rows: seq<seq<real>>, force: seq<real>, s: Slice, ndof: nat, j: nat, k: nat)
    requires 3 * k + 3 <= |rows| == |force| && (forall r :: 0 <= r < |rows| ==> |rows[r]| == ndof) && j < ndof
    requires |s.h| == 3 == |s.force| && (forall r :: 0 <= r < 3 ==> |s.h[r]| == ndof) && GroupAt(rows, force, s, k)
    ensures PartialColumn(rows, force, j, 3 * k + 3)
      == PartialColumn(rows, force, j, 3 * k) + Contribution(s.h, s.force, ndof)[j]
  {
    var b := 3 * k;
    assert PartialColumn(rows, force, j, b + 2) == PartialColumn(rows, force, j, b + 1) + rows[b + 1][j] * force[b + 1];
  }

  lemma NoColumn(rows: seq<seq<real>>, force: seq<real>, s: seq<Slice>, ndof: nat, j: nat)
    requires (forall r :: 0 <= r < |rows| ==> |rows[r]| == ndof) && WellShaped(s, ndof) && j < ndof
    ensures PartialColumn(rows, force, j, 0) == 0.0 == Generalized(s, ndof, 0)[j]
  {
  }

  lemma OneMoreSlice(s: seq<Slice>, ndof: nat, k: nat, j: nat)
    requires WellShaped(s, ndof) && 0 < k <= |s| && j < ndof
    ensures Generalized(s, ndof, k)[j]
      == Generalized(s, ndof, k - 1)[j] + Contribution(s[k - 1].h, s[k - 1].force, ndof)[j]
  {
    hide Contribution;
  }

  /** Summing the stacked products column by column is accumulating the slices one by one. */
  lemma {:induction false} ColumnIsGeneralized(
    rows: seq<seq<real>>, force: seq<real>, s: seq<Slice>, ndof: nat, j: nat, k: nat)
    requires |rows| == |force| == 3 * |s| && (forall r :: 0 <= r < |rows| ==> |rows[r]| == ndof)
    requires j < ndof && k <= |s| && WellShaped(s, ndof)
    requires forall i :: 0 <= i < |s| ==> GroupAt(rows, force, s[i], i)
    ensures PartialColumn(rows, force, j, 3 * k) == Generalized(s, ndof, k)[j]
    decreases k
  {
    hide GroupAt, PartialColumn, Contribution, Generalized;
    if k > 0 {
      ColumnIsGeneralized(rows, force, s, ndof, j, k - 1);
      OneGroup(rows, force, s[k - 1], ndof, j, k - 1);
      OneMoreSlice(s, ndof, k, j);
    } else {
      NoColumn(rows, force, s, ndof, j);
    }
  }

  /** `H^T` times the slice forces, one column at a time. */
  method ExternalForce(m: Model, force: seq<real>) returns (r: Result<seq<real>, KernelError>)
    requires m.Valid()
    ensures r == Err(ForceDimensions) <==> |force| != 3 * m.slices
    ensures r == Err(SliceOutsideLine) <==> |force| == 3 * m.slices && !m.SlicesInside()
    ensures r.Ok? ==>
      && |force| == 3 * m.slices && m.SlicesInside() && |r.value| == m.Ndof()
      && exists rows :: IsExternal(m, rows, force, r.value)
    ensures r.Err? ==> r.error in {ForceDimensions, SliceOutsideLine}
  {
    if |force| != 3 * m.slices {
      return Err(ForceDimensions);
    }
    var h := MappingH3(m);
    if h.Err? {
      return Err(h.error);
    }
    RowsRegular(m, h.value);
    var q := MultiplyTransposed(h.value, force, m.Ndof());
    Collected(m, h.value, force, q);
    assert IsExternal(m, h.value, force, q);
    return Ok(q);
  }

  lemma RowsRegular(m: Model, rows: seq<seq<real>>)
    requires m.Valid() && m.SlicesInside() && StackedRows(m, rows)
    ensures forall i :: 0 <= i < |rows| ==> |rows[i]| == m.Ndof()
  {
  }

  method MultiplyTransposed(rows: seq<seq<real>>, force: seq<real>, ndof: nat) returns (q: seq<real>)
    requires |rows| == |force| && forall i :: 0 <= i < |rows| ==> |rows[i]| == ndof
    ensures |q| == ndof && forall c :: 0 <= c < ndof ==> q[c] == PartialColumn(rows, force, c, |rows|)
  {
    var out := new real[ndof](_ => 0.0);
    for j := 0 to ndof
      invariant forall c :: 0 <= c < j ==> out[c] == PartialColumn(rows, force, c, |rows|)
      invariant forall c :: j <= c < ndof ==> out[c] == 0.0
    {
      for i := 0 to |rows|
        invariant forall c :: 0 <= c < j ==> out[c] == PartialColumn(rows, force, c, |rows|)
        invariant forall c :: j < c < ndof ==> out[c] == 0.0
        invariant out[j] == PartialColumn(rows, force, j, i)
      {
        out[j] := out[j] + rows[i][j] * force[i];
      }
    }
    q := out[..];
  }

  lemma Collected(m: Model, rows: seq<seq<real>>, force: seq<real>, q: seq<real>)
    requires m.Valid() && |rows| == |force| == 3 * m.slices && (forall r :: 0 <= r < |rows| ==> |rows[r]| == m.Ndof())
    requires |q| == m.Ndof() && forall c :: 0 <= c < |q| ==> q[c] == PartialColumn(rows, force, c, 3 * m.slices)
    ensures WellShaped(Regrouped(rows, force, m.slices), m.Ndof())
    ensures q == Generalized(Regrouped(rows, force, m.slices), m.Ndof(), m.slices)
  {
    hide PartialColumn, Generalized;
    var s := Regrouped(rows, force, m.slices);
    assert WellShaped(s, m.Ndof());
    forall k | 0 <= k < |s|
      ensures GroupAt(rows, force, s[k], k)
    {
      RegroupedSlice(rows, force, m.slices, k);
    }
    forall c | 0 <= c < m.Ndof()
      ensures q[c] == Generalized(s, m.Ndof(), m.slices)[c]
    {
      ColumnIsGeneralized(rows, force, s, m.Ndof(), c, m.slices);
    }
  }

  ghost predicate IsExternal(m: Model, rows: seq<seq<real>>, force: seq<real>, q: seq<real>)
    requires m.Valid() && m.SlicesInside() && |force| == 3 * m.slices
  {
    && StackedRows(m, rows)
    && WellShaped(Regrouped(rows, force, m.slices), m.Ndof())
    && q == Generalized(Regrouped(rows, force, m.slices), m.Ndof(), m.slices)
  }

  ghost function Positions(m: Model): (p: seq<real>)
    ensures |p| == m.slices
  {
    seq(m.slices, k requires 0 <= k < m.slices => m.Position(k))
  }

  /** The kernel's external force conserves every moment of the slice forces up to the third. */
  lemma ExternalConservesMoments(m: Model, rows: seq<seq<real>>, force: seq<real>, q: seq<real>, p: Cubic, c: nat)
    requires m.Valid() && m.SlicesInside() && |force| == 3 * m.slices && IsExternal(m, rows, force, q) && c < 3
    ensures var nodes := UniformMesh(m.elements, m.ElementLength());
      NodalMoment(q, ValuesOf(nodes, p), SlopesOf(nodes, p), c, |nodes|)
      == ForceMoment(Regrouped(rows, force, m.slices), ValuesOf(Positions(m), p), c, m.slices)
  {
    hide Row, Shape, KernelRow, PythonRow;
    m.IsUniform();
    var nodes := UniformMesh(m.elements, m.ElementLength());
    UniformMeshValid(m.elements, m.length, m.ElementLength());
    var s := Regrouped(rows, force, m.slices);
    forall k: nat, d: nat | k < m.slices && d < 3
      ensures s[k].h[d] == PythonRow(nodes, Positions(m)[k], d, m.Ndof())
    {
      assert (3 * k + d) / 3 == k && (3 * k + d) % 3 == d;
      assert rows[3 * k + d] == SliceRow(m, k, d);
      KernelRowIsPythonRow(m.elements, m.length, m.ElementLength(), m.Position(k), d);
    }
    MomentsConserved(s, Positions(m), nodes, p, c, m.Ndof());
  }

  // ----- where the slices act

  /** A slice acts at its given position; without positions a single slice acts at the bottom. */
  lemma GivenPositions(m: Model, k: nat)
    requires m.Valid() && k < m.slices
    ensures |m.positions| == m.slices ==> m.Position(k) == m.positions[k]
    ensures |m.positions| != m.slices == 1 ==> m.Position(k) == 0.0
  {
  }

  /** Without positions, two or more slices act from the bottom to the top of the line at equal distances, and all of
      them inside it. */
  lemma SpacedPositions(m: Model)
    requires m.Valid() && |m.positions| != m.slices && m.slices >= 2
    ensures m.Position(0) == 0.0 && m.Position(m.slices - 1) == m.length
    ensures forall k: nat :: 0 < k < m.slices ==>
      (m.slices - 1) as real * (m.Position(k) - m.Position(k - 1)) == m.length
    ensures m.SlicesInside()
  {
    var gaps := (m.slices - 1) as real;
    forall k: nat | k < m.slices
      ensures gaps * m.Position(k) == m.length * k as real && 0.0 <= m.Position(k) <= m.length
    {
      Divided(m.length * k as real, gaps);
      BetweenEnds(m.length, k as real, gaps, m.Position(k));
    }
    hide Model.Position;
    Cancelled(gaps, m.Position(0), 0.0);
    Cancelled(gaps, m.Position(m.slices - 1), m.length);
    forall k: nat | 0 < k < m.slices
      ensures gaps * (m.Position(k) - m.Position(k - 1)) == m.length
    {
      OneGap(m.length, gaps, (k - 1) as real, k as real, m.Position(k - 1), m.Position(k));
    }
  }

  lemma BetweenEnds(length: real, k: real, gaps: real, x: real)
    requires length > 0.0 && gaps > 0.0 && 0.0 <= k <= gaps && gaps * x == length * k
    ensures 0.0 <= x <= length
  {
    assert length * (gaps - k) >= 0.0;
    assert x < 0.0 ==> gaps * x < 0.0;
    assert x > length ==> gaps * (x - length) > 0.0;
  }

  lemma Cancelled(f: real, a: real, b: real)
    requires f > 0.0 && f * a == f * b
    ensures a == b
  {
    assert f * (a - b) == 0.0;
  }

  lemma OneGap(length: real, gaps: real, j: real, k: real, x: real, y: real)
    requires k == j + 1.0 && gaps * x == length * j && gaps * y == length * k
    ensures gaps * (y - x) == length
  {
    assert gaps * (y - x) == gaps * y - gaps * x;
    assert length * k == length * j + length;
  }

  /** Every slice lies on the line exactly when, where positions are given, each one does. */
  lemma InsideIff(m: Model)
    requires m.Valid()
    ensures m.SlicesInside()
      <==> (|m.positions| == m.slices ==> forall k :: 0 <= k < m.slices ==> 0.0 <= m.positions[k] <= m.length)
  {
    if |m.positions| == m.slices {
      assert forall k: nat :: k < m.slices ==> m.Position(k) == m.positions[k];
    } else if m.slices >= 2 {
      SpacedPositions(m);
    } else {
      GivenPositions(m, 0);
    }
  }
}
