/** Three-component vectors with the dot and cross products the kernel uses. */
module Vec3 {

  datatype V3 = V3(x: real, y: real, z: real) {
    function At(c: nat): real
      requires c < 3
    {
      if c == 0 then x else if c == 1 then y else z
    }
  }

  const ZERO := V3(0.0, 0.0, 0.0)

  function Add(a: V3, b: V3): V3 {
    V3(a.x + b.x, a.y + b.y, a.z + b.z)
  }

  function Scale(a: V3, s: real): V3 {
    V3(s * a.x, s * a.y, s * a.z)
  }

  function Inner(a: V3, b: V3): real {
    a.x * b.x + a.y * b.y + a.z * b.z
  }

  function Cross(a: V3, b: V3): V3 {
    V3(a.y * b.z - a.z * b.y, a.z * b.x - a.x * b.z, a.x * b.y - a.y * b.x)
  }

  // ----- products of scalars: compound factors are parameters, so that callers need no arithmetic

  lemma TimesSum(w: real, a: real, b: real, sum: real)
    requires sum == a + b
    ensures w * sum == w * a + w * b && sum * w == a * w + b * w
  {
  }

  lemma TimesProduct(w: real, s: real, a: real, product: real)
    requires product == s * a
    ensures product * w == s * (a * w) && w * product == s * (w * a)
  {
  }

  lemma Commute(a: real, b: real)
    ensures a * b == b * a
  {
  }

  // ----- vectors

  lemma InnerSymmetric(a: V3, b: V3)
    ensures Inner(a, b) == Inner(b, a)
  {
    Commute(a.x, b.x);
    Commute(a.y, b.y);
    Commute(a.z, b.z);
  }

  lemma InnerAdd(a: V3, b: V3, w: V3)
    ensures Inner(Add(a, b), w) == Inner(a, w) + Inner(b, w)
  {
    var c := Add(a, b);
    TimesSum(w.x, a.x, b.x, c.x);
    TimesSum(w.y, a.y, b.y, c.y);
    TimesSum(w.z, a.z, b.z, c.z);
  }

  lemma InnerScale(a: V3, s: real, w: V3)
    ensures Inner(Scale(a, s), w) == s * Inner(a, w)
  {
    var c := Scale(a, s);
    TimesProduct(w.x, s, a.x, c.x);
    TimesProduct(w.y, s, a.y, c.y);
    TimesProduct(w.z, s, a.z, c.z);
    var x, y, z := a.x * w.x, a.y * w.y, a.z * w.z;
    TimesSum(s, x, y, x + y);
    TimesSum(s, x + y, z, Inner(a, w));
  }

  lemma CrossAdd(t: V3, a: V3, b: V3)
    ensures Cross(t, Add(a, b)) == Add(Cross(t, a), Cross(t, b))
  {
    var c := Add(a, b);
    TimesSum(t.y, a.x, b.x, c.x);
    TimesSum(t.z, a.x, b.x, c.x);
    TimesSum(t.x, a.y, b.y, c.y);
    TimesSum(t.z, a.y, b.y, c.y);
    TimesSum(t.x, a.z, b.z, c.z);
    TimesSum(t.y, a.z, b.z, c.z);
  }

  lemma CrossScale(t: V3, a: V3, s: real)
    ensures Cross(t, Scale(a, s)) == Scale(Cross(t, a), s)
  {
    var c, m := Scale(a, s), Cross(t, a);
    MinorScale(t.y, a.z, t.z, a.y, s, c.z, c.y, m.x);
    MinorScale(t.z, a.x, t.x, a.z, s, c.x, c.z, m.y);
    MinorScale(t.x, a.y, t.y, a.x, s, c.y, c.x, m.z);
  }

  lemma MinorScale(p: real, q: real, r: real, u: real, s: real, sq: real, su: real, minor: real)
    requires sq == s * q && su == s * u && minor == p * q - r * u
    ensures p * sq - r * su == s * minor
  {
  }

  /** The axes renamed in a cycle: every statement about one component becomes one about the next. */
  function Turned(a: V3): V3 {
    V3(a.y, a.z, a.x)
  }

  lemma TurnedScale(a: V3, s: real)
    ensures Turned(Scale(a, s)) == Scale(Turned(a), s)
  {
  }

  lemma TurnedCross(a: V3, b: V3)
    ensures Turned(Cross(a, b)) == Cross(Turned(a), Turned(b))
  {
  }

  lemma TurnedInner(a: V3, b: V3)
    ensures Inner(Turned(a), Turned(b)) == Inner(a, b)
  {
  }

  lemma CrossIsNormal(a: V3, b: V3)
    ensures Inner(Cross(a, b), a) == 0.0 && Inner(Cross(a, b), b) == 0.0
  {
    var m := Cross(a, b);
    Cyclic(a.x, a.y, a.z, b.x, b.y, b.z, m.x, m.y, m.z);
  }

  lemma Cyclic(a0: real, a1: real, a2: real, b0: real, b1: real, b2: real, m0: real, m1: real, m2: real)
    requires m0 == a1 * b2 - a2 * b1 && m1 == a2 * b0 - a0 * b2 && m2 == a0 * b1 - a1 * b0
    ensures m0 * a0 + m1 * a1 + m2 * a2 == 0.0 && m0 * b0 + m1 * b1 + m2 * b2 == 0.0
  {
  }

  lemma SelfCross(t: V3, a: V3)
    ensures Inner(a, Cross(t, a)) == 0.0
  {
    CrossIsNormal(t, a);
    InnerSymmetric(a, Cross(t, a));
  }

  lemma ScalarTriple(a: V3, b: V3, c: V3)
    ensures Inner(Cross(a, b), c) == Inner(a, Cross(b, c))
  {
    var m, n := Cross(a, b), Cross(b, c);
    TripleTerms(a.x, a.y, a.z, b.x, b.y, b.z, c.x, c.y, c.z, m.x, m.y, m.z, n.x, n.y, n.z);
  }

  lemma TripleTerms(a0: real, a1: real, a2: real, b0: real, b1: real, b2: real, c0: real, c1: real, c2: real,
                    m0: real, m1: real, m2: real, n0: real, n1: real, n2: real)
    requires m0 == a1 * b2 - a2 * b1 && m1 == a2 * b0 - a0 * b2 && m2 == a0 * b1 - a1 * b0
    requires n0 == b1 * c2 - b2 * c1 && n1 == b2 * c0 - b0 * c2 && n2 == b0 * c1 - b1 * c0
    ensures m0 * c0 + m1 * c1 + m2 * c2 == a0 * n0 + a1 * n1 + a2 * n2
  {
  }

  /** A vector normal to `a` turns `Cross(t, a)` back onto the line of `a`. */
  lemma NormalTurn(v: V3, t: V3, a: V3)
    requires Inner(v, a) == 0.0
    ensures Cross(v, Cross(t, a)) == Scale(a, -Inner(v, t))
  {
    hide Cross, Scale, Inner;
    var w := Cross(t, a);
    NormalTurnX(v, t, a);
    TurnedInner(v, a);
    TurnedInner(v, t);
    NormalTurnX(Turned(v), Turned(t), Turned(a));
    TurnedInner(Turned(v), Turned(a));
    TurnedInner(Turned(v), Turned(t));
    NormalTurnX(Turned(Turned(v)), Turned(Turned(t)), Turned(Turned(a)));
    TurnedCross(t, a);
    TurnedCross(Turned(t), Turned(a));
    TurnedCross(v, w);
    TurnedCross(Turned(v), Turned(w));
    TurnedScale(a, -Inner(v, t));
    TurnedScale(Turned(a), -Inner(v, t));
  }

  lemma NormalTurnX(v: V3, t: V3, a: V3)
    requires Inner(v, a) == 0.0
    ensures Cross(v, Cross(t, a)).x == Scale(a, -Inner(v, t)).x
  {
    var m, d := Cross(t, a), Inner(v, t);
    NormalTurnTerm(v.x, v.y, v.z, t.x, t.y, t.z, a.x, a.y, a.z, m.y, m.z, d, -d);
  }

  lemma NormalTurnTerm(v0: real, v1: real, v2: real, t0: real, t1: real, t2: real, a0: real, a1: real, a2: real,
                       m1: real, m2: real, d: real, e: real)
    requires v0 * a0 + v1 * a1 + v2 * a2 == 0.0 && d == v0 * t0 + v1 * t1 + v2 * t2 && e == -d
    requires m1 == t2 * a0 - t0 * a2 && m2 == t0 * a1 - t1 * a0
    ensures v1 * m2 - v2 * m1 == e * a0
  {
    TurnExpands(v0, v1, v2, t0, t1, t2, a0, a1, a2);
    var z := v0 * a0 + v1 * a1 + v2 * a2;
    assert t0 * z == 0.0;
  }

  lemma TurnExpands(v0: real, v1: real, v2: real, t0: real, t1: real, t2: real, a0: real, a1: real, a2: real)
    ensures v1 * (t0 * a1 - t1 * a0) - v2 * (t2 * a0 - t0 * a2)
      == t0 * (v0 * a0 + v1 * a1 + v2 * a2) - (v0 * t0 + v1 * t1 + v2 * t2) * a0
  {
  }
}
