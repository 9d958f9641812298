/**
 The transform size search: the least number at least n whose prime factors are among 2, 3, 5, 7 and 11.
 Five nested loops walk over the products, all pruned by a `best` that the innermost loop lowers.
 */
module FftSize {

  function Pow(b: nat, e: nat): nat {
    if e == 0 then 1 else Pow(b, e - 1) * b
  }

  function F23(a: nat, b: nat): nat {
    Pow(2, a) * Pow(3, b)
  }

  function F235(a: nat, b: nat, c: nat): nat {
    F23(a, b) * Pow(5, c)
  }

  function F2357(a: nat, b: nat, c: nat, d: nat): nat {
    F235(a, b, c) * Pow(7, d)
  }

  function F235711(a: nat, b: nat, c: nat, d: nat, e: nat): nat {
    F2357(a, b, c, d) * Pow(11, e)
  }

  ghost predicate Smooth(m: nat) {
    exists a: nat, b: nat, c: nat, d: nat, e: nat :: m == F235711(a, b, c, d, e)
  }

  ghost predicate IsNextGoodSize(n: int, r: int) {
    0 <= n <= r && Smooth(r) && forall m: nat :: n <= m && Smooth(m) ==> r <= m
  }

  // ----- Growth -----

  lemma {:induction false} PowGrows(b: nat, e: nat, e': nat)
    requires 1 <= b && e <= e'
    ensures 1 <= Pow(b, e) <= Pow(b, e')
  {
    if e < e' {
      PowGrows(b, e, e' - 1);
      assert Pow(b, e' - 1) * 1 <= Pow(b, e' - 1) * b;
    } else if e > 0 {
      PowGrows(b, e - 1, e - 1);
    }
  }

  lemma {:induction false} ScaledGrows(f: nat, b: nat, e: nat, e': nat)
    requires 1 <= b && e <= e'
    ensures f <= f * Pow(b, e) <= f * Pow(b, e')
  {
    PowGrows(b, e, e');
    MulGrows(f, 1, Pow(b, e));
    MulGrows(f, Pow(b, e), Pow(b, e'));
  }

  lemma MulGrows(f: nat, x: nat, y: nat)
    requires x <= y
    ensures f * x <= f * y
  {
  }

  /** Any product is at least each of its leading parts. */
  lemma {:induction false} ProductsExceedParts(a: nat, b: nat, c: nat, d: nat, e: nat)
    ensures Pow(2, a) <= F23(a, b) <= F235(a, b, c) <= F2357(a, b, c, d) <= F235711(a, b, c, d, e)
  {
    ScaledGrows(Pow(2, a), 3, b, b);
    ScaledGrows(F23(a, b), 5, c, c);
    ScaledGrows(F235(a, b, c), 7, d, d);
    ScaledGrows(F2357(a, b, c, d), 11, e, e);
  }

  // ----- What the loops have covered -----

  /** The order in which the nested loops visit the exponents. */
  predicate Before(a: nat, b: nat, c: nat, d: nat, e: nat, i: nat, j: nat, k: nat, l: nat, m: nat) {
    a < i || (a == i && (b < j || (b == j && (c < k || (c == k && (d < l || (d == l && e < m)))))))
  }

  /** No product visited before position (i, j, k, l, m) lies in [n, best). */
  ghost predicate Covered(n: int, best: int, i: nat, j: nat, k: nat, l: nat, m: nat) {
    forall a: nat, b: nat, c: nat, d: nat, e: nat {:trigger F235711(a, b, c, d, e)} ::
      Before(a, b, c, d, e, i, j, k, l, m) ==> F235711(a, b, c, d, e) < n || best <= F235711(a, b, c, d, e)
  }

  lemma Finish11(n: int, best: int, i: nat, j: nat, k: nat, l: nat, m: nat)
    requires Covered(n, best, i, j, k, l, m) && best <= F235711(i, j, k, l, m)
    ensures Covered(n, best, i, j, k, l + 1, 0)
  {
    forall e: nat | m <= e
      ensures best <= F235711(i, j, k, l, e)
    {
      ScaledGrows(F2357(i, j, k, l), 11, m, e);
    }
  }

  lemma Finish7(n: int, best: int, i: nat, j: nat, k: nat, l: nat)
    requires Covered(n, best, i, j, k, l, 0) && best <= F2357(i, j, k, l)
    ensures Covered(n, best, i, j, k + 1, 0, 0)
  {
    forall d: nat, e: nat | l <= d
      ensures best <= F235711(i, j, k, d, e)
    {
      ScaledGrows(F235(i, j, k), 7, l, d);
      ProductsExceedParts(i, j, k, d, e);
    }
  }

  lemma Finish5(n: int, best: int, i: nat, j: nat, k: nat)
    requires Covered(n, best, i, j, k, 0, 0) && best <= F235(i, j, k)
    ensures Covered(n, best, i, j + 1, 0, 0, 0)
  {
    forall c: nat, d: nat, e: nat | k <= c
      ensures best <= F235711(i, j, c, d, e)
    {
      ScaledGrows(F23(i, j), 5, k, c);
      ProductsExceedParts(i, j, c, d, e);
    }
  }

  lemma Finish3(n: int, best: int, i: nat, j: nat)
    requires Covered(n, best, i, j, 0, 0, 0) && best <= F23(i, j)
    ensures Covered(n, best, i + 1, 0, 0, 0, 0)
  {
    forall b: nat, c: nat, d: nat, e: nat | j <= b
      ensures best <= F235711(i, b, c, d, e)
    {
      ScaledGrows(Pow(2, i), 3, j, b);
      ProductsExceedParts(i, b, c, d, e);
    }
  }

  /** When the outer loop ends, no smooth number lies in [n, best). */
  lemma {:induction false} Finish2(n: int, best: int, i: nat)
    requires Covered(n, best, i, 0, 0, 0, 0) && best <= Pow(2, i)
    ensures forall m: nat :: n <= m && Smooth(m) ==> best <= m
  {
    forall m: nat | n <= m && Smooth(m)
      ensures best <= m
    {
      var a: nat, b: nat, c: nat, d: nat, e: nat :| m == F235711(a, b, c, d, e);
      if i <= a {
        PowGrows(2, i, a);
        ProductsExceedParts(a, b, c, d, e);
      }
    }
  }

  // ----- The starting bound -----

  lemma {:induction false} PowerOfTwoIsSmooth(k: nat)
    ensures Smooth(Pow(2, k))
  {
    assert Pow(3, 0) == Pow(5, 0) == Pow(7, 0) == Pow(11, 0) == 1;
    assert F235711(k, 0, 0, 0, 0) == Pow(2, k);
  }

  /** There is a power of two in [n, 2n), so the starting bound 2n is always beaten. */
  lemma {:induction false} PowerOfTwoBelowDouble(n: nat) returns (k: nat)
    requires 1 <= n
    ensures n <= Pow(2, k) < 2 * n
  {
    if n == 1 {
      k := 0;
    } else {
      k := PowerOfTwoBelowDouble((n + 1) / 2);
      k := k + 1;
    }
  }

  lemma SmallNumbersAreSmooth(n: nat)
    requires 1 <= n <= 6
    ensures Smooth(n)
  {
    assert F235711(0, 0, 0, 0, 0) == 1 && F235711(1, 0, 0, 0, 0) == 2 && F235711(0, 1, 0, 0, 0) == 3;
    assert F235711(2, 0, 0, 0, 0) == 4 && F235711(0, 0, 1, 0, 0) == 5 && F235711(1, 1, 0, 0, 0) == 6;
  }

  // ----- The search -----

  /** The best size so far: the unproved starting bound, or a smooth number that is large enough. */
  ghost predicate Candidate(n: int, best: int) {
    0 <= n <= best <= 2 * n && (best == 2 * n || Smooth(best))
  }

  /** The numbers from 1 on get their least smooth upper bound; every other n is returned as it is. */
  method FftNextGoodSize(n: int) returns (best: int)
    ensures n <= 6 ==> best == n
    ensures 1 <= n ==> IsNextGoodSize(n, best)
  {
    if n <= 6 {
      if 1 <= n {
        SmallNumbersAreSmooth(n);
      }
      return n;
    }
    var f2: nat := 1;
    best := 2 * n;
    ghost var i: nat := 0;
    while f2 < best
      invariant f2 == Pow(2, i) && 1 <= f2
      invariant Candidate(n, best) && Covered(n, best, i, 0, 0, 0, 0)
      decreases 2 * n - f2
    {
      var f23 := f2;
      ghost var j: nat := 0;
      while f23 < best
        invariant f23 == F23(i, j) && 1 <= f23
        invariant Candidate(n, best) && Covered(n, best, i, j, 0, 0, 0)
        decreases 2 * n - f23
      {
        var f235 := f23;
        ghost var k: nat := 0;
        while f235 < best
          invariant f235 == F235(i, j, k) && 1 <= f235
          invariant Candidate(n, best) && Covered(n, best, i, j, k, 0, 0)
          decreases 2 * n - f235
        {
          var f2357 := f235;
          ghost var l: nat := 0;
          while f2357 < best
            invariant f2357 == F2357(i, j, k, l) && 1 <= f2357
            invariant Candidate(n, best) && Covered(n, best, i, j, k, l, 0)
            decreases 2 * n - f2357
          {
            var f235711 := f2357;
            ghost var m: nat := 0;
            while f235711 < best
              invariant f235711 == F235711(i, j, k, l, m) && 1 <= f235711
              invariant Candidate(n, best) && Covered(n, best, i, j, k, l, m)
              decreases 2 * n - f235711
            {
              best := if f235711 >= n then f235711 else best;
              NextPower(F2357(i, j, k, l), 11, m);
              f235711 := f235711 * 11;
              m := m + 1;
            }
            Finish11(n, best, i, j, k, l, m);
            NextPower(F235(i, j, k), 7, l);
            f2357 := f2357 * 7;
            l := l + 1;
          }
          Finish7(n, best, i, j, k, l);
          NextPower(F23(i, j), 5, k);
          f235 := f235 * 5;
          k := k + 1;
        }
        Finish5(n, best, i, j, k);
        NextPower(Pow(2, i), 3, j);
        f23 := f23 * 3;
        j := j + 1;
      }
      Finish3(n, best, i, j);
      f2 := f2 * 2;
      i := i + 1;
    }
    Finish2(n, best, i);
    var k := PowerOfTwoBelowDouble(n);
    PowerOfTwoIsSmooth(k);
  }

  lemma NextPower(f: nat, b: nat, e: nat)
    ensures f * Pow(b, e) * b == f * Pow(b, e + 1)
  {
  }
}