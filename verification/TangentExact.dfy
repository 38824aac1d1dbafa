/**
 The assembled tangent against the rate of the assembled force. Along the line's own coordinates the two differ by a sum
 over the points whose terms all have one sign, so the tangent is the derivative of the force only where no point
 bends; symmetrizing it changes nothing about that.
 */
module TangentExact {
  import opened Vectors
  import opened Vec3
  import opened InternalForce
  import opened TangentRate
  import opened ForceRate
  import Tangent

  // ----- rows and columns at one point

  /** The blocks seen from the columns of the matrix. */
  function Mirror(h: Hessian): Hessian {
    Hessian(Transpose(h.aa), h.ab, Transpose(h.bb))
  }

  function Side(h: Hessian, mirrored: bool): Hessian {
    if mirrored then Mirror(h) else h
  }

  function Row(m: M3, r: nat): V3
    requires r < 3
  {
    if r == 0 then m.x else if r == 1 then m.y else m.z
  }

  lemma PointMirror(first: seq<real>, second: seq<real>, h: Hessian, i: nat, j: nat)
    requires |first| == |second| == 4 && i < 12 && j < 12
    ensures Tangent.PointEntry(first, second, h, j, i) == Tangent.PointEntry(first, second, Mirror(h), i, j)
  {
    var p, r, q, t := i / 3, i % 3, j / 3, j % 3;
    assert Mirror(h).aa.At(r, t) == h.aa.At(t, r) && Mirror(h).bb.At(r, t) == h.bb.At(t, r);
    Swapped(first[p], second[p], first[q], second[q], h.aa.At(t, r), h.ab.At(t, r), h.ab.At(r, t), h.bb.At(t, r));
  }

  lemma Swapped(f: real, g: real, f': real, g': real, aa: real, ab: real, ba: real, bb: real)
    ensures f' * aa * f + f' * ab * g + g' * ba * f + g' * bb * g
      == f * aa * f' + f * ba * g' + g * ab * f' + g * bb * g'
  {
  }

  /** Row `r` of block `p`, by the shape values of the column's block. */
  function RowPair(first: real, second: real, h: Hessian, r: nat): (V3, V3)
    requires r < 3
  {
    (Add(Scale(Row(h.aa, r), first), Scale(Row(Transpose(h.ab), r), second)),
     Add(Scale(Row(h.ab, r), first), Scale(Row(h.bb, r), second)))
  }

  lemma PointRow(first: seq<real>, second: seq<real>, h: Hessian, i: nat, b: nat)
    requires |first| == |second| == 4 && i < 12 && b < 4
    ensures var (u, v) := RowPair(first[i / 3], second[i / 3], h, i % 3);
      V3(Tangent.PointEntry(first, second, h, i, 3 * b), Tangent.PointEntry(first, second, h, i, 3 * b + 1),
         Tangent.PointEntry(first, second, h, i, 3 * b + 2))
      == Add(Scale(u, first[b]), Scale(v, second[b]))
  {
    hide Tangent.PointEntry, RowPair, Add, Scale;
    var (u, v) := RowPair(first[i / 3], second[i / 3], h, i % 3);
    RowEntry(first, second, h, i, b, 0);
    RowEntry(first, second, h, i, b, 1);
    RowEntry(first, second, h, i, b, 2);
    assert Add(Scale(u, first[b]), Scale(v, second[b])).At(0) == Tangent.PointEntry(first, second, h, i, 3 * b);
  }

  lemma RowEntry(first: seq<real>, second: seq<real>, h: Hessian, i: nat, b: nat, c: nat)
    requires |first| == |second| == 4 && i < 12 && b < 4 && c < 3
    ensures var (u, v) := RowPair(first[i / 3], second[i / 3], h, i % 3);
      Tangent.PointEntry(first, second, h, i, 3 * b + c) == Add(Scale(u, first[b]), Scale(v, second[b])).At(c)
  {
    hide Add, Scale;
    var p, r := i / 3, i % 3;
    var (u, v) := RowPair(first[p], second[p], h, r);
    assert (3 * b + c) / 3 == b && (3 * b + c) % 3 == c;
    PairAt(Row(h.aa, r), Row(Transpose(h.ab), r), first[p], second[p], c);
    PairAt(Row(h.ab, r), Row(h.bb, r), first[p], second[p], c);
    PairAt(u, v, first[b], second[b], c);
    FourTerms(first[p], second[p], first[b], second[b], h.aa.At(r, c), h.ab.At(r, c), h.ab.At(c, r), h.bb.At(r, c),
              u.At(c), v.At(c));
  }

  lemma PairAt(u: V3, v: V3, f: real, g: real, c: nat)
    requires c < 3
    ensures Add(Scale(u, f), Scale(v, g)).At(c) == f * u.At(c) + g * v.At(c)
  {
  }

  lemma FourTerms(f: real, g: real, f': real, g': real, aa: real, ab: real, ba: real, bb: real, u: real, v: real)
    requires u == f * aa + g * ba && v == f * ab + g * bb
    ensures f * aa * f' + f * ab * g' + g * ba * f' + g * bb * g' == f' * u + g' * v
  {
  }

  // ----- rows and columns of an element

  /** Entry `i` of a sequence of blocks read as a flat vector. */
  function Coordinate(f: seq<V3>, i: nat): real
    requires i < 3 * |f|
  {
    f[i / 3].At(i % 3)
  }

  ghost function ElementSide(s: Section, q: seq<V3>, e: nat, k: nat, i: nat, j: nat, mirrored: bool): real
    requires s.le != 0.0 && 2 * e + 4 <= |q| && Tangent.Regular(s, q, e, k) && i < 12 && j < 12
  {
    if mirrored then Tangent.ElementEntry(s, q, e, k, j, i) else Tangent.ElementEntry(s, q, e, k, i, j)
  }

  /** Row `i` of the element tangent, or column `i`, in blocks of three. */
  ghost function ElementRow(s: Section, q: seq<V3>, e: nat, k: nat, i: nat, mirrored: bool): (f: seq<V3>)
    requires s.le != 0.0 && 2 * e + 4 <= |q| && Tangent.Regular(s, q, e, k) && i < 12
    ensures |f| == 4
  {
    seq(4, b requires 0 <= b < 4 =>
      V3(ElementSide(s, q, e, k, i, 3 * b, mirrored), ElementSide(s, q, e, k, i, 3 * b + 1, mirrored),
         ElementSide(s, q, e, k, i, 3 * b + 2, mirrored)))
  }

  function BlocksAt(s: Section, q: seq<V3>, e: nat, k: nat, mirrored: bool): Hessian
    requires OnLine(s, q, e, k)
  {
    var (a, b) := Tangent.Tangents(s, q, e, k);
    Side(HessianAt(a, b, s.ea, s.ei), mirrored)
  }

  lemma SideNext(s: Section, q: seq<V3>, e: nat, k: nat, i: nat, j: nat, mirrored: bool)
    requires s.le != 0.0 && 2 * e + 4 <= |q| && k < |s.quadrature| && i < 12 && j < 12
    requires Tangent.Regular(s, q, e, k) && Tangent.Regular(s, q, e, k + 1) && OnLine(s, q, e, k)
    ensures ElementSide(s, q, e, k + 1, i, j, mirrored) == ElementSide(s, q, e, k, i, j, mirrored)
      + Twofold(Weight(s, k), Tangent.PointEntry(Shapes(s, k).0, Shapes(s, k).1, BlocksAt(s, q, e, k, mirrored), i, j))
  {
    hide Inner, Tangent.PointEntry, Tangent.Regular, Shapes, Weight, HessianAt, Mirror, Tangent.Tangents;
    var (a, b) := Tangent.Tangents(s, q, e, k);
    PointMirror(Shapes(s, k).0, Shapes(s, k).1, HessianAt(a, b, s.ea, s.ei), i, j);
  }

  /** One more point adds to a row what it adds to a force. */
  lemma RowNext(s: Section, q: seq<V3>, e: nat, k: nat, i: nat, mirrored: bool)
    requires s.le != 0.0 && 2 * e + 4 <= |q| && k < |s.quadrature| && i < 12
    requires Tangent.Regular(s, q, e, k) && Tangent.Regular(s, q, e, k + 1) && OnLine(s, q, e, k)
    ensures var (first, second) := Shapes(s, k);
      var (u, v) := RowPair(first[i / 3], second[i / 3], BlocksAt(s, q, e, k, mirrored), i % 3);
      ElementRow(s, q, e, k + 1, i, mirrored)
      == WithPoint(ElementRow(s, q, e, k, i, mirrored), Weight(s, k), first, second, u, v)
  {
    hide Inner, Tangent.Regular, Shapes, Weight, BlocksAt, RowPair, ElementSide, OnLine, PointForce, Add;
    forall b: nat | b < 4
      ensures var (first, second) := Shapes(s, k);
        var (u, v) := RowPair(first[i / 3], second[i / 3], BlocksAt(s, q, e, k, mirrored), i % 3);
        ElementRow(s, q, e, k + 1, i, mirrored)[b]
        == Add(ElementRow(s, q, e, k, i, mirrored)[b], PointForce(Weight(s, k), first[b], second[b], u, v))
    {
      RowBlockNext(s, q, e, k, i, mirrored, b);
    }
  }

  lemma RowBlockNext(s: Section, q: seq<V3>, e: nat, k: nat, i: nat, mirrored: bool, b: nat)
    requires s.le != 0.0 && 2 * e + 4 <= |q| && k < |s.quadrature| && i < 12 && b < 4
    requires Tangent.Regular(s, q, e, k) && Tangent.Regular(s, q, e, k + 1) && OnLine(s, q, e, k)
    ensures var (first, second) := Shapes(s, k);
      var (u, v) := RowPair(first[i / 3], second[i / 3], BlocksAt(s, q, e, k, mirrored), i % 3);
      ElementRow(s, q, e, k + 1, i, mirrored)[b]
      == Add(ElementRow(s, q, e, k, i, mirrored)[b], PointForce(Weight(s, k), first[b], second[b], u, v))
  {
    hide Inner, Tangent.PointEntry, Tangent.Regular, Shapes, Weight, BlocksAt, RowPair, ElementSide, OnLine, PointForce,
         Add, Scale, Twofold;
    var (first, second) := Shapes(s, k);
    var h := BlocksAt(s, q, e, k, mirrored);
    var (u, v) := RowPair(first[i / 3], second[i / 3], h, i % 3);
    SideNext(s, q, e, k, i, 3 * b, mirrored);
    SideNext(s, q, e, k, i, 3 * b + 1, mirrored);
    SideNext(s, q, e, k, i, 3 * b + 2, mirrored);
    PointRow(first, second, h, i, b);
    AddWeighted(ElementRow(s, q, e, k, i, mirrored)[b], Weight(s, k), first[b], second[b], u, v,
                V3(Tangent.PointEntry(first, second, h, i, 3 * b), Tangent.PointEntry(first, second, h, i, 3 * b + 1),
                   Tangent.PointEntry(first, second, h, i, 3 * b + 2)));
  }

  lemma AddWeighted(f: V3, w: real, first: real, second: real, u: V3, v: V3, p: V3)
    requires p == Add(Scale(u, first), Scale(v, second))
    ensures V3(f.x + Twofold(w, p.x), f.y + Twofold(w, p.y), f.z + Twofold(w, p.z))
      == Add(f, PointForce(w, first, second, u, v))
  {
    AddScaled(f, w, p);
    hide Add, Scale;
  }

  lemma AddScaled(f: V3, w: real, p: V3)
    ensures V3(f.x + Twofold(w, p.x), f.y + Twofold(w, p.y), f.z + Twofold(w, p.z)) == Add(f, Scale(p, w))
  {
  }

  /** What the blocks of one point do to the displacement of the point. */
  function BlockPair(h: Hessian, x: V3, y: V3): (V3, V3) {
    (Add(Apply(h.aa, x), Apply(h.ab, y)), Add(Apply(Transpose(h.ab), x), Apply(h.bb, y)))
  }

  lemma RowOnPair(first: real, second: real, h: Hessian, r: nat, x: V3, y: V3)
    requires r < 3
    ensures var (u, v) := RowPair(first, second, h, r);
      var (ga, gb) := BlockPair(h, x, y);
      Inner(u, x) + Inner(v, y) == first * ga.At(r) + second * gb.At(r)
  {
    hide Inner, Scale, Add, Transpose;
    var t := Transpose(h.ab);
    InnerAdd(Scale(Row(h.aa, r), first), Scale(Row(t, r), second), x);
    InnerScale(Row(h.aa, r), first, x);
    InnerScale(Row(t, r), second, x);
    InnerAdd(Scale(Row(h.ab, r), first), Scale(Row(h.bb, r), second), y);
    InnerScale(Row(h.ab, r), first, y);
    InnerScale(Row(h.bb, r), second, y);
    AddComponent(Apply(h.aa, x), Apply(h.ab, y), r);
    AddComponent(Apply(t, x), Apply(h.bb, y), r);
    TimesSum(first, Inner(Row(h.aa, r), x), Inner(Row(h.ab, r), y), Inner(Row(h.aa, r), x) + Inner(Row(h.ab, r), y));
    TimesSum(second, Inner(Row(t, r), x), Inner(Row(h.bb, r), y), Inner(Row(t, r), x) + Inner(Row(h.bb, r), y));
  }

  lemma AddComponent(u: V3, w: V3, r: nat)
    requires r < 3
    ensures Add(u, w).At(r) == u.At(r) + w.At(r)
  {
  }

  lemma PointForceAt(w: real, first: real, second: real, ga: V3, gb: V3, r: nat)
    requires r < 3
    ensures PointForce(w, first, second, ga, gb).At(r) == w * (first * ga.At(r) + second * gb.At(r))
  {
    hide Add;
    PairAt(ga, gb, first, second, r);
  }

  /** What the blocks do to a direction at one point; zero by convention where there is none. */
  function ResponsePair(s: Section, q: seq<V3>, d: seq<V3>, e: nat, k: nat, mirrored: bool): (V3, V3) {
    if OnLine(s, q, e, k) && |d| == |q| then
      var (x, y) := Tangent.Tangents(s, d, e, k);
      BlockPair(BlocksAt(s, q, e, k, mirrored), x, y)
    else (ZERO, ZERO)
  }

  function Responses(s: Section, q: seq<V3>, d: seq<V3>, mirrored: bool): Field {
    (e: nat, k: nat) => ResponsePair(s, q, d, e, k, mirrored)
  }

  /** What row `i` of the blocks of one point does to a direction. */
  ghost function PointPart(s: Section, q: seq<V3>, d: seq<V3>, e: nat, k: nat, i: nat, mirrored: bool): real
    requires OnLine(s, q, e, k) && |d| == |q| && i < 12
  {
    var (first, second) := Shapes(s, k);
    var (x, y) := Tangent.Tangents(s, d, e, k);
    var (u, v) := RowPair(first[i / 3], second[i / 3], BlocksAt(s, q, e, k, mirrored), i % 3);
    Inner(u, x) + Inner(v, y)
  }

  lemma RowWorkNext(s: Section, q: seq<V3>, d: seq<V3>, e: nat, k: nat, i: nat, mirrored: bool, part: real)
    requires OnLine(s, q, e, k) && |d| == |q| && i < 12 && part == PointPart(s, q, d, e, k, i, mirrored)
    requires Tangent.Regular(s, q, e, k) && Tangent.Regular(s, q, e, k + 1)
    ensures FourWork(ElementRow(s, q, e, k + 1, i, mirrored), d, 2 * e)
      == FourWork(ElementRow(s, q, e, k, i, mirrored), d, 2 * e) + Twofold(Weight(s, k), part)
  {
    hide Inner, Combine, Shapes, WithPoint, Weight, FourWork, Tangent.Regular, ElementRow, RowPair, BlocksAt;
    var (first, second) := Shapes(s, k);
    var (u, v) := RowPair(first[i / 3], second[i / 3], BlocksAt(s, q, e, k, mirrored), i % 3);
    RowNext(s, q, e, k, i, mirrored);
    PointWork(ElementRow(s, q, e, k, i, mirrored), Weight(s, k), first, second, u, v, d, 2 * e);
  }

  lemma ResponsePart(s: Section, q: seq<V3>, d: seq<V3>, e: nat, k: nat, i: nat, mirrored: bool)
    requires OnLine(s, q, e, k) && |d| == |q| && i < 12
    ensures SpreadPart(s, Responses(s, q, d, mirrored), e, k, i) == PointPart(s, q, d, e, k, i, mirrored)
  {
    hide Inner, Shapes, RowPair, BlockPair, BlocksAt, Tangent.Tangents;
    var (first, second) := Shapes(s, k);
    var (x, y) := Tangent.Tangents(s, d, e, k);
    RowOnPair(first[i / 3], second[i / 3], BlocksAt(s, q, e, k, mirrored), i % 3, x, y);
  }

  function SpreadPart(s: Section, g: Field, e: nat, k: nat, i: nat): real
    requires s.le != 0.0 && k < |s.quadrature| && i < 12
  {
    Shapes(s, k).0[i / 3] * g(e, k).0.At(i % 3) + Shapes(s, k).1[i / 3] * g(e, k).1.At(i % 3)
  }

  lemma RowWorkStep(s: Section, q: seq<V3>, d: seq<V3>, e: nat, k: nat, i: nat, mirrored: bool)
    requires OnLine(s, q, e, k) && |d| == |q| && i < 12
    requires Tangent.Regular(s, q, e, k) && Tangent.Regular(s, q, e, k + 1)
    requires FourWork(ElementRow(s, q, e, k, i, mirrored), d, 2 * e)
      == Coordinate(ElementSpread(s, Responses(s, q, d, mirrored), e, k), i)
    ensures FourWork(ElementRow(s, q, e, k + 1, i, mirrored), d, 2 * e)
      == Coordinate(ElementSpread(s, Responses(s, q, d, mirrored), e, k + 1), i)
  {
    hide Responses, ResponsePair, PointPart, SpreadPart, Coordinate, Twofold, ElementSpread, ElementRow, FourWork,
         Weight, Inner, Tangent.Tangents, Tangent.Regular;
    RowWorkNext(s, q, d, e, k, i, mirrored, PointPart(s, q, d, e, k, i, mirrored));
    SpreadNext(s, Responses(s, q, d, mirrored), e, k, i);
    ResponsePart(s, q, d, e, k, i, mirrored);
  }

  lemma {:induction false} ElementRowWork(s: Section, q: seq<V3>, d: seq<V3>, e: nat, k: nat, i: nat, mirrored: bool)
    requires s.le != 0.0 && 2 * e + 4 <= |q| == |d| && Tangent.Regular(s, q, e, k) && i < 12
    requires k <= |s.quadrature|
    ensures FourWork(ElementRow(s, q, e, k, i, mirrored), d, 2 * e)
      == Coordinate(ElementSpread(s, Responses(s, q, d, mirrored), e, k), i)
    decreases k
  {
    hide *;
    if k == 0 {
      NoRow(s, q, d, e, i, mirrored);
    } else {
      RegularOnLine(s, q, e, k, k - 1);
      Tangent.RegularPoint(s, q, e, k);
      ElementRowWork(s, q, d, e, k - 1, i, mirrored);
      RowWorkStep(s, q, d, e, k - 1, i, mirrored);
    }
  }

  lemma NoRow(s: Section, q: seq<V3>, d: seq<V3>, e: nat, i: nat, mirrored: bool)
    requires s.le != 0.0 && 2 * e + 4 <= |q| == |d| && Tangent.Regular(s, q, e, 0) && i < 12
    ensures FourWork(ElementRow(s, q, e, 0, i, mirrored), d, 2 * e) == 0.0
    ensures Coordinate(ElementSpread(s, Responses(s, q, d, mirrored), e, 0), i) == 0.0
  {
    assert ElementRow(s, q, e, 0, i, mirrored) == [ZERO, ZERO, ZERO, ZERO];
    FourNoForce(d, 2 * e);
  }

  lemma SpreadNext(s: Section, g: Field, e: nat, k: nat, i: nat)
    requires s.le != 0.0 && k < |s.quadrature| && i < 12
    ensures Coordinate(ElementSpread(s, g, e, k + 1), i)
      == Coordinate(ElementSpread(s, g, e, k), i) + Twofold(Weight(s, k), SpreadPart(s, g, e, k, i))
  {
    hide Shapes, Weight, PointForce, Add;
    var (first, second) := Shapes(s, k);
    var p := i / 3;
    var (ga, gb) := g(e, k);
    AddComponent(ElementSpread(s, g, e, k)[p], PointForce(Weight(s, k), first[p], second[p], ga, gb), i % 3);
    PointForceAt(Weight(s, k), first[p], second[p], ga, gb, i % 3);
  }

  // ----- rows and columns of the line

  ghost function LineSide(s: Section, q: seq<V3>, n: nat, i: nat, j: nat, mirrored: bool): real
    requires s.le != 0.0 && 2 * n + 2 <= |q| && Tangent.Formed(s, q, n)
  {
    if mirrored then Tangent.Entry(s, q, n, j, i) else Tangent.Entry(s, q, n, i, j)
  }

  /** Row `i` of the assembled tangent, or column `i`, in blocks of three. */
  ghost function LineRow(s: Section, q: seq<V3>, n: nat, i: nat, mirrored: bool): (f: seq<V3>)
    requires s.le != 0.0 && 2 * n + 2 <= |q| && Tangent.Formed(s, q, n)
    ensures |f| == |q|
  {
    seq(|q|, b requires 0 <= b < |q| =>
      V3(LineSide(s, q, n, i, 3 * b, mirrored), LineSide(s, q, n, i, 3 * b + 1, mirrored),
         LineSide(s, q, n, i, 3 * b + 2, mirrored)))
  }

  ghost function LocalRow(s: Section, q: seq<V3>, e: nat, i: nat, mirrored: bool): (f: seq<V3>)
    requires s.le != 0.0 && 2 * e + 4 <= |q| && Tangent.Regular(s, q, e, |s.quadrature|)
    ensures |f| == 4
  {
    if Tangent.Inside(e, i) then ElementRow(s, q, e, |s.quadrature|, i - 6 * e, mirrored) else [ZERO, ZERO, ZERO, ZERO]
  }

  lemma LineSideNext(s: Section, q: seq<V3>, n: nat, i: nat, j: nat, mirrored: bool)
    requires s.le != 0.0 && 2 * n + 4 <= |q| && Tangent.Formed(s, q, n) && Tangent.Formed(s, q, n + 1)
    requires Tangent.Regular(s, q, n, |s.quadrature|)
    ensures LineSide(s, q, n + 1, i, j, mirrored) == LineSide(s, q, n, i, j, mirrored)
      + if Tangent.Inside(n, i) && Tangent.Inside(n, j)
        then ElementSide(s, q, n, |s.quadrature|, i - 6 * n, j - 6 * n, mirrored) else 0.0
  {
    hide Tangent.ElementEntry, Tangent.Regular, Tangent.Formed;
  }

  lemma InsideBlock(e: nat, b: nat, c: nat)
    requires c < 3
    ensures Tangent.Inside(e, 3 * b + c) <==> 2 * e <= b < 2 * e + 4
  {
  }

  lemma LineBlockNext(s: Section, q: seq<V3>, n: nat, i: nat, mirrored: bool, b: nat)
    requires s.le != 0.0 && 2 * n + 4 <= |q| && Tangent.Formed(s, q, n) && Tangent.Formed(s, q, n + 1) && b < |q|
    requires Tangent.Regular(s, q, n, |s.quadrature|)
    ensures LineRow(s, q, n + 1, i, mirrored)[b]
      == if 2 * n <= b < 2 * n + 4
         then Add(LineRow(s, q, n, i, mirrored)[b], LocalRow(s, q, n, i, mirrored)[b - 2 * n])
         else LineRow(s, q, n, i, mirrored)[b]
  {
    hide Tangent.Inside, Tangent.Formed, Tangent.Regular, LineSide, ElementSide;
    LineSideNext(s, q, n, i, 3 * b, mirrored);
    LineSideNext(s, q, n, i, 3 * b + 1, mirrored);
    LineSideNext(s, q, n, i, 3 * b + 2, mirrored);
    InsideBlock(n, b, 0);
    InsideBlock(n, b, 1);
    InsideBlock(n, b, 2);
    assert 3 * b - 6 * n == 3 * (b - 2 * n);
  }

  /** One more element adds to a row what it adds to a force. */
  lemma LineRowNext(s: Section, q: seq<V3>, n: nat, i: nat, mirrored: bool)
    requires s.le != 0.0 && 2 * n + 4 <= |q| && Tangent.Formed(s, q, n) && Tangent.Formed(s, q, n + 1)
    requires Tangent.Regular(s, q, n, |s.quadrature|)
    ensures LineRow(s, q, n + 1, i, mirrored)
      == AddAt(LineRow(s, q, n, i, mirrored), 2 * n, LocalRow(s, q, n, i, mirrored))
  {
    hide Tangent.Formed, Tangent.Regular, LineRow, LocalRow, Add;
    forall b: nat | b < |q|
      ensures LineRow(s, q, n + 1, i, mirrored)[b]
        == AddAt(LineRow(s, q, n, i, mirrored), 2 * n, LocalRow(s, q, n, i, mirrored))[b]
    {
      LineBlockNext(s, q, n, i, mirrored, b);
    }
  }

  lemma CoordinateAdds(f: seq<V3>, e: nat, fe: seq<V3>, i: nat)
    requires |fe| == 4 && 2 * e + 4 <= |f| && i < 3 * |f|
    ensures Coordinate(AddAt(f, 2 * e, fe), i)
      == Coordinate(f, i) + if Tangent.Inside(e, i) then Coordinate(fe, i - 6 * e) else 0.0
  {
    hide Add;
    var b, c := i / 3, i % 3;
    InsideBlock(e, b, c);
    if Tangent.Inside(e, i) {
      assert (i - 6 * e) / 3 == b - 2 * e && (i - 6 * e) % 3 == c;
      AddComponent(f[b], fe[b - 2 * e], c);
    }
  }

  lemma LocalRowWork(s: Section, q: seq<V3>, d: seq<V3>, e: nat, i: nat, mirrored: bool)
    requires s.le != 0.0 && 2 * e + 4 <= |q| == |d| && Tangent.Regular(s, q, e, |s.quadrature|)
    ensures FourWork(LocalRow(s, q, e, i, mirrored), d, 2 * e)
      == if Tangent.Inside(e, i)
         then Coordinate(ElementSpread(s, Responses(s, q, d, mirrored), e, |s.quadrature|), i - 6 * e) else 0.0
  {
    hide Tangent.Regular, ElementRow, ElementSpread, Responses, Coordinate, FourWork;
    if Tangent.Inside(e, i) {
      ElementRowWork(s, q, d, e, |s.quadrature|, i - 6 * e, mirrored);
    } else {
      FourNoForce(d, 2 * e);
    }
  }

  lemma LineWorkStep(s: Section, q: seq<V3>, d: seq<V3>, n: nat, i: nat, mirrored: bool)
    requires s.le != 0.0 && 2 * n + 4 <= |q| == |d| && Tangent.Formed(s, q, n) && Tangent.Formed(s, q, n + 1)
    requires Tangent.Regular(s, q, n, |s.quadrature|) && i < 3 * |q|
    requires Work(LineRow(s, q, n, i, mirrored), d, |q|)
      == Coordinate(Spread(s, Responses(s, q, d, mirrored), n, |q|), i)
    ensures Work(LineRow(s, q, n + 1, i, mirrored), d, |q|)
      == Coordinate(Spread(s, Responses(s, q, d, mirrored), n + 1, |q|), i)
  {
    hide Tangent.Formed, Tangent.Regular, LineRow, LocalRow, AddAt, Work, FourWork, Coordinate, Responses,
         ElementSpread;
    var g := Responses(s, q, d, mirrored);
    LineRowNext(s, q, n, i, mirrored);
    LocalRowWork(s, q, d, n, i, mirrored);
    AddAtWork(LineRow(s, q, n, i, mirrored), 2 * n, LocalRow(s, q, n, i, mirrored), d, |q|);
    CoordinateAdds(Spread(s, g, n, |q|), n, ElementSpread(s, g, n, |s.quadrature|), i);
  }

  lemma NoLine(s: Section, q: seq<V3>, d: seq<V3>, i: nat, mirrored: bool)
    requires s.le != 0.0 && 2 <= |q| == |d| && Tangent.Formed(s, q, 0) && i < 3 * |q|
    ensures Work(LineRow(s, q, 0, i, mirrored), d, |q|) == 0.0
    ensures Coordinate(Spread(s, Responses(s, q, d, mirrored), 0, |q|), i) == 0.0
  {
    assert LineRow(s, q, 0, i, mirrored) == seq(|q|, _ => ZERO);
    ZeroWork(d, |q|, |q|);
  }

  /** What row `i` of the tangent, or column `i`, does to a direction. */
  lemma {:induction false} LineRowWork(s: Section, q: seq<V3>, d: seq<V3>, n: nat, i: nat, mirrored: bool)
    requires s.le != 0.0 && 2 * n + 2 <= |q| == |d| && Tangent.Formed(s, q, n) && i < 3 * |q|
    ensures Work(LineRow(s, q, n, i, mirrored), d, |q|)
      == Coordinate(Spread(s, Responses(s, q, d, mirrored), n, |q|), i)
    decreases n
  {
    hide LineRow, Work, Spread, Coordinate, Responses, Tangent.Regular;
    if n == 0 {
      NoLine(s, q, d, i, mirrored);
    } else {
      assert Tangent.Regular(s, q, n - 1, |s.quadrature|);
      LineRowWork(s, q, d, n - 1, i, mirrored);
      LineWorkStep(s, q, d, n - 1, i, mirrored);
    }
  }

  // ----- the matrices

  function Flat(d: seq<V3>): (y: seq<real>)
    ensures |y| == 3 * |d|
  {
    seq(3 * |d|, i requires 0 <= i < 3 * |d| => Coordinate(d, i))
  }

  /** The tangent before it is symmetrized, or its mirror image. */
  ghost function Matrix(s: Section, q: seq<V3>, n: nat, mirrored: bool): (m: seq<seq<real>>)
    requires s.le != 0.0 && |q| == 2 * n + 2 && Tangent.Formed(s, q, n)
    ensures |m| == 3 * |q| && forall i :: 0 <= i < |m| ==> |m[i]| == |m|
  {
    seq(3 * |q|, i requires 0 <= i < 3 * |q| =>
      seq(3 * |q|, j requires 0 <= j < 3 * |q| => LineSide(s, q, n, i, j, mirrored)))
  }

  lemma {:induction false} DotIsWork(u: seq<real>, f: seq<V3>, d: seq<V3>, m: nat)
    requires |f| == |d| && |u| == 3 * |d| && m <= |d|
    requires forall b :: 0 <= b < |f| ==> f[b] == V3(u[3 * b], u[3 * b + 1], u[3 * b + 2])
    ensures Dot(u, Flat(d), 0, 3 * m) == Work(f, d, m)
    decreases m
  {
    hide Coordinate;
    if m > 0 {
      DotIsWork(u, f, d, m - 1);
      var b, y := m - 1, Flat(d);
      CoordinatesOf(d, b);
      assert Dot(u, y, 0, 3 * b + 2) == Dot(u, y, 0, 3 * b) + u[3 * b] * y[3 * b] + u[3 * b + 1] * y[3 * b + 1];
    }
  }

  lemma CoordinatesOf(d: seq<V3>, b: nat)
    requires b < |d|
    ensures Coordinate(d, 3 * b) == d[b].x && Coordinate(d, 3 * b + 1) == d[b].y && Coordinate(d, 3 * b + 2) == d[b].z
  {
    assert (3 * b) / 3 == b && (3 * b + 1) / 3 == b && (3 * b + 2) / 3 == b;
  }

  lemma MatrixRow(s: Section, q: seq<V3>, d: seq<V3>, n: nat, i: nat, mirrored: bool)
    requires s.le != 0.0 && |q| == 2 * n + 2 == |d| && Tangent.Formed(s, q, n) && i < 3 * |q|
    ensures Dot(Matrix(s, q, n, mirrored)[i], Flat(d), 0, 3 * |q|)
      == Coordinate(Spread(s, Responses(s, q, d, mirrored), n, |q|), i)
  {
    hide Tangent.Formed, LineSide, Dot, Flat, Work, Spread, Responses, Coordinate;
    DotIsWork(Matrix(s, q, n, mirrored)[i], LineRow(s, q, n, i, mirrored), d, |q|);
    LineRowWork(s, q, d, n, i, mirrored);
  }

  /** The symmetrized tangent gives the mean of what rows and columns give. */
  lemma EvenRow(s: Section, q: seq<V3>, d: seq<V3>, n: nat, i: nat)
    requires s.le != 0.0 && |q| == 2 * n + 2 == |d| && Tangent.Formed(s, q, n) && i < 3 * |q|
    ensures Dot(Tangent.EvenMatrix(s, q, n)[i], Flat(d), 0, 3 * |q|)
      == 0.5 * (Coordinate(Spread(s, Responses(s, q, d, false), n, |q|), i)
                + Coordinate(Spread(s, Responses(s, q, d, true), n, |q|), i))
  {
    hide Tangent.Formed, Tangent.Entry, Dot, Flat, Spread, Responses, Coordinate;
    MatrixRow(s, q, d, n, i, false);
    MatrixRow(s, q, d, n, i, true);
    var u, v := Matrix(s, q, n, false)[i], Matrix(s, q, n, true)[i];
    var w := seq(|u|, j requires 0 <= j < |u| => u[j] + v[j]);
    DotSum(u, v, w, Flat(d), 0, |u|);
    DotScale(w, 0.5, Tangent.EvenMatrix(s, q, n)[i], Flat(d), 0, |u|);
  }

  /** The matrix times a direction is the rate of the force along it. */
  ghost predicate DerivesAlong(s: Section, q: seq<V3>, n: nat, m: seq<seq<real>>, d: seq<V3>)
    requires s.le != 0.0 && |q| == 2 * n + 2 == |d| && Tangent.Formed(s, q, n)
    requires |m| == 3 * |q| && forall i :: 0 <= i < |m| ==> |m[i]| == |m|
  {
    forall i: nat :: i < |m| ==> Dot(m[i], Flat(d), 0, |m|) == Flat(RateOfForce(s, q, d, n))[i]
  }

  /** The matrix is the derivative of the assembled force. */
  ghost predicate Derives(s: Section, q: seq<V3>, n: nat, m: seq<seq<real>>)
    requires s.le != 0.0 && |q| == 2 * n + 2 && Tangent.Formed(s, q, n)
    requires |m| == 3 * |q| && forall i :: 0 <= i < |m| ==> |m[i]| == |m|
  {
    forall d: seq<V3> :: |d| == |q| ==> DerivesAlong(s, q, n, m, d)
  }

  // ----- one point on its own coordinates

  /** Nine times the stiffness times the bend: eighteen times the bending energy. */
  function Overstated(ei: real, bend: real): real {
    9.0 * (ei * bend)
  }

  lemma NothingOverstated(ei: real)
    ensures Overstated(ei, 0.0) == 0.0
  {
  }

  lemma TurningOnItself(a: V3, b: V3)
    ensures Inner(Cross(a, Cross(a, b)), b) == -Inner(Cross(a, b), Cross(a, b))
    ensures Turning(a, b, a, b) == 2.0 * Inner(Cross(a, b), Cross(a, b))
  {
    hide Inner, Cross, Scale;
    var v := Cross(a, b);
    InnerSymmetric(Cross(b, v), a);
    ScalarTriple(a, b, v);
    InnerSymmetric(Cross(a, v), b);
    ScalarTriple(b, a, v);
    CrossAnti(b, a);
    InnerScale(v, -1.0, v);
  }

  /** Along the line's own coordinates the blocks claim more than the gradients change, in proportion to the bend. */
  lemma MissOnItself(a: V3, b: V3, ei: real)
    requires Inner(a, a) != 0.0
    ensures Inner(Scale(a, TangentMiss(a, b, a, b, ei)), a)
        + Inner(Scale(Cross(a, Cross(a, b)), CurvatureMiss(a, a, ei)), b)
      == -Overstated(ei, Bend(a, b))
  {
    hide Inner, Cross, Scale, InversePower, Turning;
    var a2, v2, w := Inner(a, a), Inner(Cross(a, b), Cross(a, b)), Cross(a, Cross(a, b));
    TurningOnItself(a, b);
    InnerScale(a, TangentMiss(a, b, a, b, ei), a);
    InnerScale(w, CurvatureMiss(a, a, ei), b);
    CubeOfFourth(a2);
    MissTerms(ei, a2, v2, InversePower(a2, 4), InversePower(a2, 3), Turning(a, b, a, b), Inner(w, b),
              TangentMiss(a, b, a, b, ei), CurvatureMiss(a, a, ei));
  }

  lemma CubeOfFourth(x: real)
    requires x != 0.0
    ensures InversePower(x, 4) * x == InversePower(x, 3)
  {
    PowerNonzero(x, 3);
    PowerNonzero(x, 4);
    Shortened(x, Power(x, 3), Power(x, 4));
  }

  lemma Shortened(x: real, p: real, px: real)
    requires px == x * p && p != 0.0 && px != 0.0
    ensures (1.0 / px) * x == 1.0 / p
  {
    var r := 1.0 / px;
    assert r * px == 1.0;
    assert (r * x) * p == 1.0;
  }

  lemma MissTerms(ei: real, a2: real, v2: real, p4: real, p3: real, turning: real, wb: real, tm: real, cm: real)
    requires p4 * a2 == p3 && turning == 2.0 * v2 && wb == -v2
    requires tm == -3.0 * (ei * (p4 * turning)) && cm == 3.0 * (ei * (p4 * a2))
    ensures tm * a2 + cm * wb == -9.0 * (ei * (v2 * p3))
  {
    assert p4 * turning == 2.0 * (p4 * v2);
    assert tm * a2 == -6.0 * (ei * (v2 * (p4 * a2)));
    assert cm * wb == -3.0 * (ei * (v2 * p3));
  }

  /** Tested with the point's own vectors, the mirrored blocks give what the blocks give. */
  lemma MirrorOnItself(h: Hessian, a: V3, b: V3, mirrored: bool)
    ensures Inner(BlockPair(Side(h, mirrored), a, b).0, a) + Inner(BlockPair(Side(h, mirrored), a, b).1, b)
      == Inner(BlockPair(h, a, b).0, a) + Inner(BlockPair(h, a, b).1, b)
  {
    hide Inner, Apply, Add, Transpose;
    if mirrored {
      InnerAdd(Apply(h.aa, a), Apply(h.ab, b), a);
      InnerAdd(Apply(Transpose(h.aa), a), Apply(h.ab, b), a);
      InnerAdd(Apply(Transpose(h.ab), a), Apply(h.bb, b), b);
      InnerAdd(Apply(Transpose(h.ab), a), Apply(Transpose(h.bb), b), b);
      RowProduct(a, h.aa, a);
      InnerSymmetric(a, Apply(h.aa, a));
      RowProduct(b, h.bb, b);
      InnerSymmetric(b, Apply(h.bb, b));
    }
  }

  /** The true rates against the blocks, tested with the point's own vectors. */
  lemma PairOnItself(a: V3, b: V3, ea: real, ei: real, mirrored: bool)
    requires Inner(a, a) != 0.0
    ensures var h := Side(HessianAt(a, b, ea, ei), mirrored);
      Inner(MovingTangentGradient(Moving(a, a), Moving(b, b), ea, ei).rate, a)
      + Inner(MovingCurvatureGradient(Moving(a, a), Moving(b, b), ei).rate, b)
      == Inner(BlockPair(h, a, b).0, a) + Inner(BlockPair(h, a, b).1, b) - Overstated(ei, Bend(a, b))
  {
    hide Inner, Cross, Scale, Add, Apply, Transpose, HessianAt, Side, TangentMiss, CurvatureMiss, Bend, Overstated,
         MovingTangentGradient, MovingCurvatureGradient;
    var h := HessianAt(a, b, ea, ei);
    TangentMisses(a, b, a, b, ea, ei);
    CurvatureMisses(a, b, a, b, ea, ei);
    MissOnItself(a, b, ei);
    MirrorOnItself(h, a, b, mirrored);
    InnerAdd(Add(Apply(h.aa, a), Apply(h.ab, b)), Scale(a, TangentMiss(a, b, a, b, ei)), a);
    InnerAdd(Add(Apply(Transpose(h.ab), a), Apply(h.bb, b)), Scale(Cross(a, Cross(a, b)), CurvatureMiss(a, a, ei)), b);
  }

  // ----- the line on its own coordinates

  /** The bend at one point; zero by convention where there is none. */
  function PointBend(s: Section, q: seq<V3>, e: nat, k: nat): real {
    if OnLine(s, q, e, k) then Bend(Tangent.Tangents(s, q, e, k).0, Tangent.Tangents(s, q, e, k).1) else 0.0
  }

  function ElementBend(s: Section, q: seq<V3>, e: nat, k: nat): real
    requires k <= |s.quadrature|
    decreases k
  {
    if k == 0 then 0.0 else ElementBend(s, q, e, k - 1) + Weight(s, k - 1) * PointBend(s, q, e, k - 1)
  }

  /** The weighted bend of the first `n` elements. */
  function LineBend(s: Section, q: seq<V3>, n: nat): real
    decreases n
  {
    if n == 0 then 0.0 else LineBend(s, q, n - 1) + ElementBend(s, q, n - 1, |s.quadrature|)
  }

  lemma PointOnItself(s: Section, q: seq<V3>, e: nat, k: nat, mirrored: bool)
    requires s.le != 0.0 && k < |s.quadrature| && 2 * e + 4 <= |q|
    ensures PairPower(s, RatePair(s, q, q, e, k), q, e, k)
      == PairPower(s, ResponsePair(s, q, q, e, k, mirrored), q, e, k) - Overstated(s.ei, PointBend(s, q, e, k))
  {
    hide Inner, Tangent.Tangents, HessianAt, BlockPair, Bend, Side, MovingTangentGradient, MovingCurvatureGradient;
    var (a, b) := Tangent.Tangents(s, q, e, k);
    if OnLine(s, q, e, k) {
      PairOnItself(a, b, s.ea, s.ei, mirrored);
    } else {
      NoForce(a);
      NoForce(b);
    }
  }

  lemma {:induction false} ElementOnItself(s: Section, q: seq<V3>, e: nat, k: nat, mirrored: bool)
    requires s.le != 0.0 && k <= |s.quadrature| && 2 * e + 4 <= |q|
    ensures ElementPower(s, Rates(s, q, q), q, e, k)
      == ElementPower(s, Responses(s, q, q, mirrored), q, e, k) - Overstated(s.ei, ElementBend(s, q, e, k))
    decreases k
  {
    hide PairPower, RatePair, ResponsePair, PointBend, Weight, Overstated;
    NothingOverstated(s.ei);
    if k > 0 {
      ElementOnItself(s, q, e, k - 1, mirrored);
      PointOnItself(s, q, e, k - 1, mirrored);
      WeightedMiss(Weight(s, k - 1), s.ei, PairPower(s, RatePair(s, q, q, e, k - 1), q, e, k - 1),
                   PairPower(s, ResponsePair(s, q, q, e, k - 1, mirrored), q, e, k - 1), PointBend(s, q, e, k - 1),
                   ElementBend(s, q, e, k - 1), ElementBend(s, q, e, k));
    }
  }

  lemma WeightedMiss(w: real, ei: real, rate: real, response: real, bend: real, before: real, after: real)
    requires rate == response - Overstated(ei, bend) && after == before + w * bend
    ensures w * rate == w * response - Overstated(ei, after) + Overstated(ei, before)
  {
    assert ei * after == ei * before + ei * (w * bend);
    assert w * rate == w * response - 9.0 * (w * (ei * bend));
  }

  /** Tested with the line's own coordinates, the tangent overstates the rate of the force by its bend. */
  lemma {:induction false} LineOnItself(s: Section, q: seq<V3>, n: nat, mirrored: bool)
    requires s.le != 0.0 && 2 * n + 2 <= |q|
    ensures FieldPower(s, Rates(s, q, q), q, n)
      == FieldPower(s, Responses(s, q, q, mirrored), q, n) - Overstated(s.ei, LineBend(s, q, n))
    decreases n
  {
    hide ElementPower, ElementBend, Rates, Responses, Overstated;
    NothingOverstated(s.ei);
    if n > 0 {
      var m, g, h := |s.quadrature|, Rates(s, q, q), Responses(s, q, q, mirrored);
      LineOnItself(s, q, n - 1, mirrored);
      ElementOnItself(s, q, n - 1, m, mirrored);
      MissAdds(s.ei, FieldPower(s, g, q, n - 1), FieldPower(s, h, q, n - 1), LineBend(s, q, n - 1),
               ElementPower(s, g, q, n - 1, m), ElementPower(s, h, q, n - 1, m), ElementBend(s, q, n - 1, m),
               LineBend(s, q, n));
    }
  }

  lemma MissAdds(ei: real, r: real, p: real, b: real, r': real, p': real, b': real, sum: real)
    requires r == p - Overstated(ei, b) && r' == p' - Overstated(ei, b') && sum == b + b'
    ensures r + r' == p + p' - Overstated(ei, sum)
  {
    TimesSum(ei, b, b', sum);
  }

  // ----- when the tangent is the derivative

  /** Weights and element length are positive, as in the rules and meshes the kernel uses. */
  ghost predicate Positive(s: Section) {
    s.le > 0.0 && forall k :: 0 <= k < |s.quadrature| ==> s.quadrature[k].1 > 0.0
  }

  /** Tangent and curvature vector are parallel at every point of the first `n` elements. */
  ghost predicate Unbent(s: Section, q: seq<V3>, n: nat)
    requires s.le != 0.0 && 2 * n + 2 <= |q|
  {
    forall e: nat, k: nat :: e < n && k < |s.quadrature| ==> UnbentAt(s, q, e, k)
  }

  predicate UnbentAt(s: Section, q: seq<V3>, e: nat, k: nat)
    requires s.le != 0.0 && k < |s.quadrature| && 2 * e + 4 <= |q|
  {
    Cross(Tangent.Tangents(s, q, e, k).0, Tangent.Tangents(s, q, e, k).1) == ZERO
  }

  lemma SelfInnerPositive(a: V3)
    ensures Inner(a, a) >= 0.0
  {
    hide Inner, Square;
    SumOfSquares(a);
    SquarePositive(a.x);
    SquarePositive(a.y);
    SquarePositive(a.z);
  }

  lemma {:induction false} PowerPositive(x: real, n: nat)
    requires x > 0.0
    ensures Power(x, n) > 0.0
  {
    if n > 0 {
      PowerPositive(x, n - 1);
      PositiveProduct(x, Power(x, n - 1), Power(x, n));
    }
  }

  lemma InversePositive(x: real, n: nat)
    requires x > 0.0
    ensures InversePower(x, n) > 0.0
  {
    PowerPositive(x, n);
    var p, r := Power(x, n), InversePower(x, n);
    assert r * p == 1.0;
  }

  /** A bend is never negative and vanishes with the normal alone. */
  lemma BendPositive(a: V3, b: V3)
    requires Inner(a, a) != 0.0
    ensures Bend(a, b) >= 0.0 && (Cross(a, b) != ZERO ==> Bend(a, b) > 0.0)
  {
    hide Inner, Cross, InversePower;
    var v := Cross(a, b);
    SelfInnerPositive(a);
    SelfInnerPositive(v);
    InversePositive(Inner(a, a), 3);
    if Inner(v, v) == 0.0 {
      SquareIsZero(v);
    } else {
      PositiveProduct(Inner(v, v), InversePower(Inner(a, a), 3), Bend(a, b));
    }
  }

  lemma WeightPositive(s: Section, k: nat)
    requires Positive(s) && k < |s.quadrature|
    ensures Weight(s, k) > 0.0
  {
    PositiveProduct(s.quadrature[k].1, s.le, s.quadrature[k].1 * s.le);
  }

  lemma {:induction false} ElementBendPositive(s: Section, q: seq<V3>, e: nat, m: nat)
    requires Positive(s) && m <= |s.quadrature| && 2 * e + 4 <= |q|
    requires forall k: nat :: k < m ==> OnLine(s, q, e, k)
    ensures ElementBend(s, q, e, m) >= 0.0
    ensures ElementBend(s, q, e, m) == 0.0 ==> forall k: nat :: k < m ==> UnbentAt(s, q, e, k)
    decreases m
  {
    hide Inner, Cross, Bend, Weight, Tangent.Tangents;
    if m > 0 {
      ElementBendPositive(s, q, e, m - 1);
      assert OnLine(s, q, e, m - 1);
      BendPositive(Tangent.Tangents(s, q, e, m - 1).0, Tangent.Tangents(s, q, e, m - 1).1);
      WeightPositive(s, m - 1);
      WeightedBend(Weight(s, m - 1), PointBend(s, q, e, m - 1), Weight(s, m - 1) * PointBend(s, q, e, m - 1));
    }
  }

  lemma WeightedBend(w: real, bend: real, product: real)
    requires w > 0.0 && bend >= 0.0 && product == w * bend
    ensures product >= 0.0 && (bend > 0.0 ==> product > 0.0)
  {
  }

  lemma {:induction false} LineBendPositive(s: Section, q: seq<V3>, n: nat)
    requires Positive(s) && 2 * n + 2 <= |q| && Tangent.Formed(s, q, n)
    ensures LineBend(s, q, n) >= 0.0
    ensures LineBend(s, q, n) == 0.0 ==> Unbent(s, q, n)
    decreases n
  {
    hide ElementBend, UnbentAt, Tangent.Regular, OnLine;
    if n > 0 {
      LineBendPositive(s, q, n - 1);
      var e := n - 1;
      forall k: nat | k < |s.quadrature|
        ensures OnLine(s, q, e, k)
      {
        FormedOnLine(s, q, n, e, k);
      }
      ElementBendPositive(s, q, e, |s.quadrature|);
    }
  }

  // ----- the iff

  predicate Even(m: M3) {
    Transpose(m) == m
  }

  lemma EvenPlus(m: M3, n: M3)
    requires Even(m) && Even(n)
    ensures Even(Plus(m, n))
  {
    TransposePlus(m, n);
  }

  lemma EvenTimes(m: M3, f: real)
    requires Even(m)
    ensures Even(Times(m, f))
  {
    hide Times;
    TransposeTimes(m, f);
  }

  lemma EvenOuter(u: V3)
    ensures Even(Outer(u, u))
  {
    hide Outer;
    TransposeOuter(u, u);
  }

  lemma EvenSquare(u: V3)
    ensures Even(Product(CrossMatrix(u), CrossMatrix(u)))
  {
    hide Product, CrossMatrix, Transpose, Times;
    var x, t := CrossMatrix(u), Times(CrossMatrix(u), -1.0);
    RowsOfProduct(x, x);
    TransposeCross(u);
    SignsCancel(x);
  }

  lemma SignsCancel(m: M3)
    ensures Product(Times(m, -1.0), Times(m, -1.0)) == Product(m, m)
  {
  }

  lemma OuterZero(a: V3)
    ensures Even(Outer(ZERO, a)) && Even(Outer(a, ZERO)) && Outer(ZERO, a) == Outer(a, ZERO)
  {
  }

  lemma TimesNothing(m: M3)
    ensures Even(Times(m, 0.0))
  {
    hide Scale;
    ScaleNone(m.x);
    ScaleNone(m.y);
    ScaleNone(m.z);
  }

  lemma EvenBending(a: V3, b: V3)
    requires Inner(a, a) != 0.0 && Cross(a, b) == ZERO
    ensures Even(BendingAA(a, b))
  {
    hide Inner, Cross, Even, Plus, Times, Outer, Product, CrossMatrix, Apply, InversePower, SpreadFactor, StretchFactor;
    var a2, v, x := Inner(a, a), Cross(a, b), CrossMatrix(b);
    var v2, p4 := Inner(v, v), InversePower(a2, 4);
    ApplyCross(b, v);
    CrossZero(b);
    var t0, t1 := Times(Product(x, x), -InversePower(a2, 3)), Times(Outer(ZERO, a), -6.0 * p4);
    var t2, t3 := Times(Outer(a, ZERO), -3.0 * p4), Times(Outer(a, a), SpreadFactor(a2, v2));
    var t4 := Times(IDENTITY, StretchFactor(a2, v2));
    assert BendingAA(a, b) == Plus(Plus(Plus(Plus(t0, t1), t2), t3), t4);
    EvenSquare(b);
    EvenTimes(Product(x, x), -InversePower(a2, 3));
    OuterZero(a);
    EvenTimes(Outer(ZERO, a), -6.0 * p4);
    EvenTimes(Outer(a, ZERO), -3.0 * p4);
    EvenOuter(a);
    EvenTimes(Outer(a, a), SpreadFactor(a2, v2));
    EvenIdentity(StretchFactor(a2, v2));
    EvenPlus(t0, t1);
    EvenPlus(Plus(t0, t1), t2);
    EvenPlus(Plus(Plus(t0, t1), t2), t3);
    EvenPlus(Plus(Plus(Plus(t0, t1), t2), t3), t4);
  }

  lemma EvenIdentity(f: real)
    ensures Even(Times(IDENTITY, f))
  {
    hide Times;
    assert Even(IDENTITY);
    EvenTimes(IDENTITY, f);
  }

  /** Where no bend or no stiffness is, the blocks are their own mirror image. */
  lemma MirrorsItself(a: V3, b: V3, ea: real, ei: real)
    requires Inner(a, a) != 0.0 && (ei == 0.0 || Cross(a, b) == ZERO)
    ensures Mirror(HessianAt(a, b, ea, ei)) == HessianAt(a, b, ea, ei)
  {
    hide Inner, Cross, Plus, Times, Outer, Product, CrossMatrix, BendingAA, BendingAB, Even, Transpose, InversePower;
    var eps, x := 0.5 * (Inner(a, a) - 1.0), CrossMatrix(a);
    EvenOuter(a);
    EvenIdentity(eps);
    EvenPlus(Outer(a, a), Times(IDENTITY, eps));
    EvenTimes(Plus(Outer(a, a), Times(IDENTITY, eps)), ea);
    if ei == 0.0 {
      TimesNothing(BendingAA(a, b));
    } else {
      EvenBending(a, b);
      EvenTimes(BendingAA(a, b), ei);
    }
    EvenPlus(Times(Plus(Outer(a, a), Times(IDENTITY, eps)), ea), Times(BendingAA(a, b), ei));
    EvenSquare(a);
    EvenTimes(Product(x, x), -InversePower(Inner(a, a), 3));
    EvenTimes(BendingBB(a), ei);
    EvenIs(HessianAt(a, b, ea, ei).aa);
    EvenIs(HessianAt(a, b, ea, ei).bb);
  }

  lemma EvenIs(m: M3)
    ensures Even(m) <==> Transpose(m) == m
  {
  }

  lemma NothingMissedAt(s: Section, q: seq<V3>, d: seq<V3>, e: nat, k: nat, mirrored: bool)
    requires OnLine(s, q, e, k) && |d| == |q| && (s.ei == 0.0 || UnbentAt(s, q, e, k))
    ensures ResponsePair(s, q, d, e, k, mirrored) == RatePair(s, q, d, e, k)
  {
    hide Inner, Cross, Scale, Tangent.Tangents, HessianAt, Mirror, Apply, Add, Transpose, TangentMiss, CurvatureMiss,
         MovingTangentGradient, MovingCurvatureGradient;
    var ((a, b), (x, y)) := (Tangent.Tangents(s, q, e, k), Tangent.Tangents(s, d, e, k));
    NothingToMiss(a, b, s.ei, x, y);
    ExactAlongIff(a, b, s.ea, s.ei, x, y);
    MirrorsItself(a, b, s.ea, s.ei);
  }

  lemma UnbentIsExact(s: Section, q: seq<V3>, d: seq<V3>, n: nat, mirrored: bool)
    requires s.le != 0.0 && 2 * n + 2 <= |q| == |d| && Tangent.Formed(s, q, n) && (s.ei == 0.0 || Unbent(s, q, n))
    ensures Spread(s, Responses(s, q, d, mirrored), n, |q|) == Spread(s, Rates(s, q, d), n, |q|)
  {
    hide ResponsePair, RatePair, UnbentAt, OnLine, Tangent.Formed, Spread;
    forall e: nat, k: nat | e < n && k < |s.quadrature|
      ensures Responses(s, q, d, mirrored)(e, k) == Rates(s, q, d)(e, k)
    {
      FormedOnLine(s, q, n, e, k);
      NothingMissedAt(s, q, d, e, k, mirrored);
    }
    SpreadAlike(s, Responses(s, q, d, mirrored), Rates(s, q, d), n, |q|);
  }

  /** Read as a flat vector, a sequence of blocks is determined. */
  lemma FlatDetermines(f: seq<V3>, g: seq<V3>)
    requires |f| == |g| && forall i: nat :: i < 3 * |f| ==> Coordinate(f, i) == Coordinate(g, i)
    ensures f == g
  {
    hide Coordinate;
    forall b | 0 <= b < |f|
      ensures f[b] == g[b]
    {
      CoordinatesOf(f, b);
      CoordinatesOf(g, b);
    }
  }

  ghost function Halves(f: seq<V3>, g: seq<V3>): (h: seq<V3>)
    requires |f| == |g|
    ensures |h| == |f|
  {
    seq(|f|, b requires 0 <= b < |f| => Scale(Add(f[b], g[b]), 0.5))
  }

  lemma CoordinateHalves(f: seq<V3>, g: seq<V3>, i: nat)
    requires |f| == |g| && i < 3 * |f|
    ensures Coordinate(Halves(f, g), i) == 0.5 * (Coordinate(f, i) + Coordinate(g, i))
  {
  }

  lemma {:induction false} HalvesWork(f: seq<V3>, g: seq<V3>, d: seq<V3>, m: nat)
    requires |f| == |g| == |d| && m <= |d|
    ensures Work(Halves(f, g), d, m) == 0.5 * (Work(f, d, m) + Work(g, d, m))
    decreases m
  {
    hide Inner, Add, Scale;
    if m > 0 {
      var b := m - 1;
      HalvesWork(f, g, d, b);
      InnerScale(Add(f[b], g[b]), 0.5, d[b]);
      InnerAdd(f[b], g[b], d[b]);
    }
  }

  /** Tested with the line's own coordinates, the rate of the force is what either reading of the tangent gives, less
      what the tangent overstates. */
  lemma RateOnItself(s: Section, q: seq<V3>, n: nat, mirrored: bool)
    requires s.le != 0.0 && 2 * n + 2 <= |q| && Tangent.Formed(s, q, n)
    ensures Work(RateOfForce(s, q, q, n), q, |q|)
      == Work(Spread(s, Responses(s, q, q, mirrored), n, |q|), q, |q|) - Overstated(s.ei, LineBend(s, q, n))
  {
    hide RateOfForce, Work, Spread, FieldPower, Rates, Responses, LineBend, Overstated, Tangent.Formed;
    RateSpreads(s, q, q, n);
    SpreadWork(s, Rates(s, q, q), q, n);
    SpreadWork(s, Responses(s, q, q, mirrored), q, n);
    LineOnItself(s, q, n, mirrored);
  }

  /** On its own coordinates a tangent that is exact overstates nothing. */
  lemma ExactOnItself(s: Section, q: seq<V3>, n: nat)
    requires s.le != 0.0 && |q| == 2 * n + 2 && Tangent.Formed(s, q, n)
    requires DerivesAlong(s, q, n, Matrix(s, q, n, false), q) || DerivesAlong(s, q, n, Tangent.EvenMatrix(s, q, n), q)
    ensures Overstated(s.ei, LineBend(s, q, n)) == 0.0
  {
    hide Matrix, Tangent.EvenMatrix, Dot, RateOfForce, Work, Spread, Responses, LineBend, Overstated, Coordinate,
         Halves, Tangent.Formed;
    var f, g := Spread(s, Responses(s, q, q, false), n, |q|), Spread(s, Responses(s, q, q, true), n, |q|);
    RateOnItself(s, q, n, false);
    RateOnItself(s, q, n, true);
    if DerivesAlong(s, q, n, Matrix(s, q, n, false), q) {
      forall i: nat | i < 3 * |q|
        ensures Coordinate(f, i) == Coordinate(RateOfForce(s, q, q, n), i)
      {
        MatrixRow(s, q, q, n, i, false);
      }
      FlatDetermines(f, RateOfForce(s, q, q, n));
    } else {
      forall i: nat | i < 3 * |q|
        ensures Coordinate(Halves(f, g), i) == Coordinate(RateOfForce(s, q, q, n), i)
      {
        EvenRow(s, q, q, n, i);
        CoordinateHalves(f, g, i);
      }
      FlatDetermines(Halves(f, g), RateOfForce(s, q, q, n));
      HalvesWork(f, g, q, |q|);
    }
  }

  lemma ExactWhereUnbent(s: Section, q: seq<V3>, n: nat, d: seq<V3>)
    requires s.le != 0.0 && |q| == 2 * n + 2 == |d| && Tangent.Formed(s, q, n)
    requires s.ei == 0.0 || Unbent(s, q, n)
    ensures DerivesAlong(s, q, n, Matrix(s, q, n, false), d) && DerivesAlong(s, q, n, Tangent.EvenMatrix(s, q, n), d)
  {
    hide Matrix, Tangent.EvenMatrix, Dot, RateOfForce, Spread, Responses, Coordinate, Tangent.Formed, Unbent;
    UnbentIsExact(s, q, d, n, false);
    UnbentIsExact(s, q, d, n, true);
    RateSpreads(s, q, d, n);
    forall i: nat | i < 3 * |q|
      ensures Dot(Matrix(s, q, n, false)[i], Flat(d), 0, 3 * |q|) == Flat(RateOfForce(s, q, d, n))[i]
      ensures Dot(Tangent.EvenMatrix(s, q, n)[i], Flat(d), 0, 3 * |q|) == Flat(RateOfForce(s, q, d, n))[i]
    {
      MatrixRow(s, q, d, n, i, false);
      EvenRow(s, q, d, n, i);
    }
  }

  lemma NothingToOverstate(ei: real, bend: real)
    ensures Overstated(ei, bend) == 0.0 <==> ei == 0.0 || bend == 0.0
  {
  }

  /** For positive weights the assembled tangent, symmetrized or not, is the derivative of the assembled force if and
      only if there is no bending stiffness or tangent and curvature vector are parallel at every quadrature point. */
  lemma TangentIsDerivative(s: Section, q: seq<V3>, n: nat)
    requires Positive(s) && |q| == 2 * n + 2 && Tangent.Formed(s, q, n)
    ensures Derives(s, q, n, Matrix(s, q, n, false)) <==> s.ei == 0.0 || Unbent(s, q, n)
    ensures Derives(s, q, n, Tangent.EvenMatrix(s, q, n)) <==> s.ei == 0.0 || Unbent(s, q, n)
  {
    hide Matrix, Tangent.EvenMatrix, Tangent.Formed, DerivesAlong, Unbent, LineBend, Overstated;
    if s.ei == 0.0 || Unbent(s, q, n) {
      forall d: seq<V3> | |d| == |q|
        ensures DerivesAlong(s, q, n, Matrix(s, q, n, false), d)
        ensures DerivesAlong(s, q, n, Tangent.EvenMatrix(s, q, n), d)
      {
        ExactWhereUnbent(s, q, n, d);
      }
    } else {
      LineBendPositive(s, q, n);
      NothingToOverstate(s.ei, LineBend(s, q, n));
      if DerivesAlong(s, q, n, Matrix(s, q, n, false), q) || DerivesAlong(s, q, n, Tangent.EvenMatrix(s, q, n), q) {
        ExactOnItself(s, q, n);
      }
    }
  }

  // ----- a line that bends

  /** One element of length one, from the origin to (1, 0, 0), its far slope turned. */
  const BENT: seq<V3> := [ZERO, V3(1.0, 0.0, 0.0), V3(1.0, 0.0, 0.0), V3(1.0, 1.0, 0.0)]

  lemma BentTangents(s: Section, k: nat)
    requires s.le == 1.0 && k < |s.quadrature|
    ensures Tangent.Tangents(s, BENT, 0, k).0 == V3(1.0, Shapes(s, k).0[3], 0.0)
    ensures Tangent.Tangents(s, BENT, 0, k).1 == V3(0.0, Shapes(s, k).1[3], 0.0)
  {
    hide Shapes;
    ShapesMoments(s, k);
  }

  lemma {:induction false} BentIsRegular(s: Section, k: nat)
    requires s.le == 1.0 && k <= |s.quadrature|
    ensures Tangent.Regular(s, BENT, 0, k)
    decreases k
  {
    hide Tangent.Tangents, Tangent.Regular, Inner;
    if k == 0 {
      Tangent.RegularStart(s, BENT, 0);
    } else {
      BentIsRegular(s, k - 1);
      BentTangents(s, k - 1);
      LongEnough(Shapes(s, k - 1).0[3]);
      Tangent.RegularNext(s, BENT, 0, k - 1);
    }
  }

  lemma LongEnough(y: real)
    ensures Inner(V3(1.0, y, 0.0), V3(1.0, y, 0.0)) >= EPS
  {
    SquarePositive(y);
  }

  /** With any rule that has the mid point, as both of the kernel's rules do, the tangent of this line is not the
      derivative of its force. */
  lemma BentTangentIsNotDerivative(s: Section, k: nat)
    requires Positive(s) && s.le == 1.0 && s.ei != 0.0 && k < |s.quadrature| && s.quadrature[k].0 == 0.0
    ensures Tangent.Formed(s, BENT, 1)
    ensures !Derives(s, BENT, 1, Matrix(s, BENT, 1, false)) && !Derives(s, BENT, 1, Tangent.EvenMatrix(s, BENT, 1))
  {
    hide Derives, Matrix, Tangent.EvenMatrix, Tangent.Regular, Tangent.Tangents;
    BentIsRegular(s, |s.quadrature|);
    TangentIsDerivative(s, BENT, 1);
    BentTangents(s, k);
    assert Shapes(s, k).1[3] == 1.0;
    assert !UnbentAt(s, BENT, 0, k);
  }
}
