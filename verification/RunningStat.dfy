/**
 Running mean and sum of squared deviations without storing the data, from priors or from nothing, with an
 optional cap on the count. Rounding is not modelled: the data are real numbers.
 */
module RunningStat {
  import opened Reals

  /** The mean, the sum of squared deviations and the count they stand for. */
  datatype Stat = Stat(m: real, s: real, n: nat)

  const EMPTY := Stat(0.0, 0.0, 0)

  function Sq(a: real): real {
    Prod(a, a)
  }

  // ----- One datum -----

  /** A negative cap is none. */
  function Count(n: nat, cap: int): nat {
    if cap < 0 || n < cap then n + 1 else n
  }

  function Push(st: Stat, cap: int, x: real): Stat {
    var n := Count(st.n, cap);
    if n == 0 then Stat(x, st.s, 0)
    else
      var m := st.m + (x - st.m) / n as real;
      Stat(m, st.s + Prod(x - st.m, x - m), n)
  }

  function PushAll(st: Stat, cap: int, xs: seq<real>): Stat {
    if xs == [] then st else Push(PushAll(st, cap, xs[..|xs| - 1]), cap, xs[|xs| - 1])
  }

  class RunningStat {
    const maxTrackable: int
    var m: real
    var s: real
    var mLast: real
    var sLast: real
    var n: nat

    function Snapshot(): Stat
      reads this
    {
      Stat(m, s, n)
    }

    /** The saved values agree with the current ones, unless the cap keeps the count at zero. */
    predicate Valid()
      reads this
    {
      (maxTrackable == 0 && n == 0) || (mLast == m && sLast == s)
    }

    constructor (maxTrackable: int)
      ensures Valid() && Snapshot() == EMPTY && this.maxTrackable == maxTrackable
    {
      this.maxTrackable := maxTrackable;
      m, s, mLast, sLast, n := 0.0, 0.0, 0.0, 0.0, 0;
    }

    constructor FromPriors(prior: Stat, maxTrackable: int)
      ensures Valid() && Snapshot() == prior && this.maxTrackable == maxTrackable
    {
      this.maxTrackable := maxTrackable;
      m, s, n := prior.m, prior.s, prior.n;
      mLast, sLast := prior.m, prior.s;
    }

    method Reset()
      modifies this
      ensures Valid() && Snapshot() == EMPTY
    {
      m, s, mLast, sLast, n := 0.0, 0.0, 0.0, 0.0, 0;
    }

    method PushData(x: real)
      requires Valid()
      modifies this
      ensures Valid() && Snapshot() == Push(old(Snapshot()), maxTrackable, x)
    {
      if maxTrackable < 0 || n < maxTrackable {
        n := n + 1;
      }
      if n == 0 {
        mLast := x;
        m := mLast;
        sLast := 0.0;
      } else {
        m := mLast + (x - mLast) / n as real;
        s := sLast + Prod(x - mLast, x - m);
        mLast := m;
        sLast := s;
      }
    }

    /** The variance of at least two data, with the sample's divisor. */
    method Variance() returns (v: real)
      ensures n >= 2 ==> Prod(v, n as real - 1.0) == s
      ensures n < 2 ==> v == 0.0
    {
      v := if n >= 2 then s / (n as real - 1.0) else 0.0;
    }
  }

  // ----- Without a cap: the closed form -----

  /** The squared deviations from a mean. */
  function Deviations(xs: seq<real>, mean: real): real {
    if xs == [] then 0.0 else Deviations(xs[..|xs| - 1], mean) + Sq(xs[|xs| - 1] - mean)
  }

  function SumOfSquares(xs: seq<real>): real {
    if xs == [] then 0.0 else SumOfSquares(xs[..|xs| - 1]) + Sq(xs[|xs| - 1])
  }

  /** One datum adds itself to the weighted mean, and its square to the sum of squares. */
  lemma PushMoments(st: Stat, x: real)
    ensures var p := Push(st, -1, x);
            && p.n == st.n + 1
            && Prod(p.n as real, p.m) == Prod(st.n as real, st.m) + x
            && p.s + Prod(p.n as real, Sq(p.m)) == st.s + Prod(st.n as real, Sq(st.m)) + Sq(x)
  {
    var p := Push(st, -1, x);
    NewMean(st.n as real, st.m, x, p.m);
    SquaresAdd(st.n as real, st.m, x, p.m);
  }

  lemma NewMean(n: real, m: real, x: real, m1: real)
    requires n >= 0.0 && m1 == m + (x - m) / (n + 1.0)
    ensures Prod(n + 1.0, m1) == Prod(n, m) + x
  {
    var d := (x - m) / (n + 1.0);
    assert d * (n + 1.0) == x - m;
    assert (n + 1.0) * (m + d) == (n + 1.0) * m + (n + 1.0) * d;
  }

  lemma SquaresAdd(n: real, m: real, x: real, m1: real)
    requires Prod(n + 1.0, m1) == Prod(n, m) + x
    ensures Prod(x - m, x - m1) + Prod(n + 1.0, Sq(m1)) == Prod(n, Sq(m)) + Sq(x)
  {
    calc {
      Prod(n + 1.0, Sq(m1));
      m1 * ((n + 1.0) * m1);
      m1 * (n * m + x);
    }
    calc {
      m * ((n + 1.0) * m1);
      m * (n * m + x);
    }
    assert (x - m) * (x - m1) == x * x - m * x - x * m1 + m * m1;
  }

  lemma {:induction false} Moments(st: Stat, xs: seq<real>)
    ensures var p := PushAll(st, -1, xs);
            && p.n == st.n + |xs|
            && Prod(p.n as real, p.m) == Prod(st.n as real, st.m) + Sum(xs)
            && p.s + Prod(p.n as real, Sq(p.m)) == st.s + Prod(st.n as real, Sq(st.m)) + SumOfSquares(xs)
  {
    if xs != [] {
      Moments(st, xs[..|xs| - 1]);
      PushMoments(PushAll(st, -1, xs[..|xs| - 1]), xs[|xs| - 1]);
    }
  }

  /** Deviations expanded about any mean. */
  lemma {:induction false} DeviationsExpand(xs: seq<real>, mean: real)
    ensures Deviations(xs, mean) == SumOfSquares(xs) - 2.0 * Prod(mean, Sum(xs)) + Prod(|xs| as real, Sq(mean))
  {
    if xs != [] {
      var init, x := xs[..|xs| - 1], xs[|xs| - 1];
      DeviationsExpand(init, mean);
      ExpandOne(Sum(init), |init| as real, x, mean);
    }
  }

  lemma ExpandOne(sum: real, n: real, x: real, mean: real)
    ensures Sq(x - mean) - 2.0 * Prod(mean, sum) + Prod(n, Sq(mean))
            == Sq(x) - 2.0 * Prod(mean, sum + x) + Prod(n + 1.0, Sq(mean))
  {
    assert (x - mean) * (x - mean) == x * x - 2.0 * (mean * x) + mean * mean;
    assert mean * (sum + x) == mean * sum + mean * x;
    assert (n + 1.0) * (mean * mean) == n * (mean * mean) + mean * mean;
  }

  /** The running values are the mean and the squared deviations of the prior and all the data, about that mean. */
  lemma {:induction false} ClosedForm(prior: Stat, xs: seq<real>)
    ensures var p := PushAll(prior, -1, xs);
            && p.n == prior.n + |xs|
            && Prod(p.n as real, p.m) == Prod(prior.n as real, prior.m) + Sum(xs)
            && p.s == prior.s + Prod(prior.n as real, Sq(prior.m - p.m)) + Deviations(xs, p.m)
  {
    var p := PushAll(prior, -1, xs);
    Moments(prior, xs);
    DeviationsExpand(xs, p.m);
    AboutTheMean(prior.n as real, prior.m, p.m, |xs| as real, Sum(xs));
  }

  lemma AboutTheMean(n0: real, m0: real, m: real, k: real, sum: real)
    requires Prod(n0 + k, m) == Prod(n0, m0) + sum
    ensures Prod(n0, Sq(m0 - m)) - 2.0 * Prod(m, sum) + Prod(k, Sq(m)) == Prod(n0, Sq(m0)) - Prod(n0 + k, Sq(m))
  {
    calc {
      Prod(n0 + k, Sq(m));
      m * ((n0 + k) * m);
      m * (n0 * m0 + sum);
      n0 * (m0 * m) + m * sum;
    }
    calc {
      Prod(n0, Sq(m0 - m));
      n0 * (m0 * m0 - 2.0 * (m0 * m) + m * m);
      n0 * (m0 * m0) - 2.0 * (n0 * (m0 * m)) + n0 * (m * m);
    }
    assert (n0 + k) * (m * m) == n0 * (m * m) + k * (m * m);
  }

  // ----- With any cap -----

  /** The count grows with the data up to the cap, and stays where it was if it was there already. */
  lemma {:induction false} CountIsCapped(prior: Stat, cap: int, xs: seq<real>)
    ensures PushAll(prior, cap, xs).n ==
            if cap < 0 || prior.n + |xs| <= cap then prior.n + |xs| else if prior.n < cap then cap else prior.n
  {
    if xs != [] {
      CountIsCapped(prior, cap, xs[..|xs| - 1]);
    }
  }

  /** The datum weighs one part in the count, and at the cap one in it; the mean takes all of a first datum. */
  lemma PushWeighs(st: Stat, cap: int, x: real)
    ensures var p := Push(st, cap, x);
            && (p.n > 0 ==> Prod(p.n as real, p.m - st.m) == x - st.m)
            && (p.n == 0 ==> p.m == x && p.s == st.s)
            && (p.n > 0 ==> p.s - st.s == Prod(x - st.m, x - p.m))
  {
    var n := Count(st.n, cap);
    if n > 0 {
      Quotient(x - st.m, n as real);
    }
  }

  /** The new mean lies between the old one and the datum, so the product added to the sum is not negative. */
  lemma PushBetween(st: Stat, cap: int, x: real)
    ensures var p := Push(st, cap, x);
            && Min(st.m, x) <= p.m <= Max(st.m, x) && p.s >= st.s && p.n >= st.n
            && (st.n == 0 ==> p.m == x)
  {
    var n := Count(st.n, cap) as real;
    if Count(st.n, cap) > 0 {
      Between(st.m, x, n);
    }
  }

  lemma Between(m: real, x: real, n: real)
    requires n >= 1.0
    ensures var m1 := m + (x - m) / n;
            Min(m, x) <= m1 <= Max(m, x) && Prod(x - m, x - m1) >= 0.0
    ensures n == 1.0 ==> m + (x - m) / n == x
  {
    Quotient(x - m, n);
    var d := (x - m) / n;
    if x >= m {
      ProductSign(x - m, x - m - d);
    } else {
      ProductSign(m - x, m - x + d);
      assert (m - x) * (m - x + d) == (x - m) * (x - m - d);
    }
    assert x - (m + d) == x - m - d;
  }

  /** A share of a quantity lies between none and all of it. */
  lemma Quotient(y: real, n: real)
    requires n >= 1.0
    ensures if y >= 0.0 then 0.0 <= y / n <= y else y <= y / n <= 0.0
    ensures n == 1.0 ==> y / n == y
  {
    var d := y / n;
    assert d * n == y;
    if y >= 0.0 && d < 0.0 {
      ProductSign(-d, n);
    }
    if y >= 0.0 && d >= 0.0 {
      ProductSign(d, n - 1.0);
    }
    if y < 0.0 && d > 0.0 {
      ProductSign(d, n);
    }
    if y < 0.0 && d <= 0.0 {
      ProductSign(-d, n - 1.0);
    }
  }

  lemma ProductSign(a: real, b: real)
    requires a >= 0.0 && b >= 0.0
    ensures a * b >= 0.0
  {
  }

  predicate Within(xs: seq<real>, lo: real, hi: real) {
    forall i :: 0 <= i < |xs| ==> lo <= xs[i] <= hi
  }

  /** Whatever the cap, the sum never decreases and the mean stays among the prior's and the data. */
  lemma {:induction false} CappedStaysInHull(prior: Stat, cap: int, xs: seq<real>, lo: real, hi: real)
    requires Within(xs, lo, hi) && (prior.n > 0 || xs == [] ==> lo <= prior.m <= hi)
    ensures lo <= PushAll(prior, cap, xs).m <= hi
    ensures PushAll(prior, cap, xs).s >= prior.s
    ensures xs != [] ==> PushAll(prior, cap, xs).s >= PushAll(prior, cap, xs[..|xs| - 1]).s
  {
    if xs != [] {
      var init, x := xs[..|xs| - 1], xs[|xs| - 1];
      assert lo <= x <= hi;
      if init == [] {
        assert PushAll(prior, cap, init) == prior;
      } else {
        CappedStaysInHull(prior, cap, init, lo, hi);
      }
      PushBetween(PushAll(prior, cap, init), cap, x);
    }
  }
}
