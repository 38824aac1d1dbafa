/** Reals and real vectors: absolute value, maximum, quotient, sums, and inner products over an index range. */
module Vectors {

  function Abs(x: real): real {
    if x < 0.0 then -x else x
  }

  function Max(x: real, y: real): real {
    if x < y then y else x
  }

  lemma Divided(s: real, d: real)
    requires d != 0.0
    ensures d * (s / d) == s
  {
  }

  /** The sum of what `f` takes from each element. */
  function SumOf<T>(s: seq<T>, f: T -> real): real {
    if s == [] then 0.0 else SumOf(s[..|s| - 1], f) + f(s[|s| - 1])
  }

  function Zeros(n: nat): (z: seq<real>)
    ensures |z| == n
  {
    seq(n, _ => 0.0)
  }

  /** The inner product of `u` and `x` over the indices `lo..hi`. */
  function Dot(u: seq<real>, x: seq<real>, lo: nat, hi: nat): real
    requires hi <= |u| && hi <= |x|
    decreases hi
  {
    if hi <= lo then 0.0 else Dot(u, x, lo, hi - 1) + u[hi - 1] * x[hi - 1]
  }

  lemma {:induction false} DotSplit(u: seq<real>, x: seq<real>, lo: nat, mid: nat, hi: nat)
    requires lo <= mid <= hi <= |u| && hi <= |x|
    ensures Dot(u, x, lo, hi) == Dot(u, x, lo, mid) + Dot(u, x, mid, hi)
    decreases hi
  {
    if mid < hi {
      DotSplit(u, x, lo, mid, hi - 1);
    }
  }

  lemma {:induction false} DotAgree(u: seq<real>, v: seq<real>, x: seq<real>, y: seq<real>, lo: nat, hi: nat)
    requires hi <= |u| && hi <= |v| && hi <= |x| && hi <= |y|
    requires forall j :: lo <= j < hi ==> u[j] == v[j] && x[j] == y[j]
    ensures Dot(u, x, lo, hi) == Dot(v, y, lo, hi)
    decreases hi
  {
    if lo < hi {
      DotAgree(u, v, x, y, lo, hi - 1);
    }
  }

  lemma {:induction false} DotZero(u: seq<real>, x: seq<real>, lo: nat, hi: nat)
    requires hi <= |u| && hi <= |x|
    requires forall j :: lo <= j < hi ==> u[j] == 0.0
    ensures Dot(u, x, lo, hi) == 0.0
    decreases hi
  {
    if lo < hi {
      DotZero(u, x, lo, hi - 1);
    }
  }

  /** The inner product is linear in its first argument. */
  lemma {:induction false} DotCombine(u: seq<real>, v: seq<real>, w: seq<real>, f: real, x: seq<real>, lo: nat, hi: nat)
    requires hi <= |u| && hi <= |v| && hi <= |w| && hi <= |x|
    requires forall j :: lo <= j < hi ==> w[j] == u[j] + f * v[j]
    ensures Dot(w, x, lo, hi) == Dot(u, x, lo, hi) + f * Dot(v, x, lo, hi)
    decreases hi
  {
    if lo < hi {
      DotCombine(u, v, w, f, x, lo, hi - 1);
      assert w[hi - 1] * x[hi - 1] == u[hi - 1] * x[hi - 1] + f * (v[hi - 1] * x[hi - 1]);
    }
  }

  lemma {:induction false} DotSum(u: seq<real>, v: seq<real>, w: seq<real>, x: seq<real>, lo: nat, hi: nat)
    requires hi <= |u| && hi <= |v| && hi <= |w| && hi <= |x|
    requires forall j :: lo <= j < hi ==> w[j] == u[j] + v[j]
    ensures Dot(w, x, lo, hi) == Dot(u, x, lo, hi) + Dot(v, x, lo, hi)
    decreases hi
  {
    if lo < hi {
      DotSum(u, v, w, x, lo, hi - 1);
      assert w[hi - 1] * x[hi - 1] == u[hi - 1] * x[hi - 1] + v[hi - 1] * x[hi - 1];
    }
  }

  lemma {:induction false} DotScale(u: seq<real>, f: real, w: seq<real>, x: seq<real>, lo: nat, hi: nat)
    requires hi <= |u| && hi <= |w| && hi <= |x|
    requires forall j :: lo <= j < hi ==> w[j] == u[j] * f
    ensures Dot(w, x, lo, hi) == f * Dot(u, x, lo, hi)
    decreases hi
  {
    if lo < hi {
      DotScale(u, f, w, x, lo, hi - 1);
      assert w[hi - 1] * x[hi - 1] == f * (u[hi - 1] * x[hi - 1]);
    }
  }

  lemma {:induction false} DotSymmetric(u: seq<real>, x: seq<real>, lo: nat, hi: nat)
    requires hi <= |u| && hi <= |x|
    ensures Dot(u, x, lo, hi) == Dot(x, u, lo, hi)
    decreases hi
  {
    if lo < hi {
      DotSymmetric(u, x, lo, hi - 1);
    }
  }

  /** Overwriting one entry changes the inner product by the change of that entry alone. */
  lemma {:induction false} DotUpdate(u: seq<real>, x: seq<real>, i: nat, v: real, hi: nat)
    requires i < hi <= |u| && hi <= |x|
    ensures Dot(u[i := v], x, 0, hi) == Dot(u, x, 0, hi) + (v - u[i]) * x[i]
    decreases hi
  {
    if i == hi - 1 {
      DotAgree(u[i := v], u, x, x, 0, i);
    } else {
      DotUpdate(u, x, i, v, hi - 1);
    }
  }

  /** Setting an entry that was zero adds one product. */
  lemma DotSet(u: seq<real>, x: seq<real>, i: nat, v: real, hi: nat)
    requires i < hi <= |u| && hi <= |x| && u[i] == 0.0
    ensures Dot(u[i := v], x, 0, hi) == Dot(u, x, 0, hi) + v * x[i]
  {
    hide Dot;
    DotUpdate(u, x, i, v, hi);
    var w := v - u[i];
    assert w == v;
  }
}
