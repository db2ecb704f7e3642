/** The smaller of two numbers, finite sums over an index range, and how one changed term changes the total. */
module Sums {

  function Min(a: int, b: int): int {
    if a <= b then a else b
  }

  function SumTo(n: nat, f: int -> int): int {
    if n == 0 then 0 else SumTo(n - 1, f) + f(n - 1)
  }

  lemma {:induction false} SumAgrees(n: nat, f: int -> int, g: int -> int)
    requires forall i | 0 <= i < n :: f(i) == g(i)
    ensures SumTo(n, f) == SumTo(n, g)
  {
    if n > 0 {
      SumAgrees(n - 1, f, g);
    }
  }

  /** Only the term at k may differ. */
  lemma {:induction false} SumDiffersAt(n: nat, f: int -> int, g: int -> int, k: int)
    requires 0 <= k < n
    requires forall i | 0 <= i < n && i != k :: f(i) == g(i)
    ensures SumTo(n, g) == SumTo(n, f) - f(k) + g(k)
  {
    if k == n - 1 {
      SumAgrees(n - 1, f, g);
    } else {
      SumDiffersAt(n - 1, f, g, k);
    }
  }

  lemma {:induction false} SumMonotone(n: nat, f: int -> int, g: int -> int)
    requires forall i | 0 <= i < n :: f(i) <= g(i)
    ensures SumTo(n, f) <= SumTo(n, g)
  {
    if n > 0 {
      SumMonotone(n - 1, f, g);
    }
  }

  /** A sum of non-negative terms bounds each of its terms, hence is non-negative itself. */
  lemma {:induction false} SumBoundsTerm(n: nat, f: int -> int, k: int)
    requires forall i | 0 <= i < n :: 0 <= f(i)
    ensures 0 <= SumTo(n, f)
    ensures 0 <= k < n ==> f(k) <= SumTo(n, f)
  {
    if n > 0 {
      SumBoundsTerm(n - 1, f, k);
    }
  }

  lemma {:induction false} SumAdds(n: nat, f: int -> int, g: int -> int, h: int -> int)
    requires forall i | 0 <= i < n :: h(i) == f(i) + g(i)
    ensures SumTo(n, h) == SumTo(n, f) + SumTo(n, g)
  {
    if n > 0 {
      SumAdds(n - 1, f, g, h);
    }
  }

  lemma {:induction false} SumStrict(n: nat, f: int -> int, g: int -> int, k: int)
    requires forall i | 0 <= i < n :: f(i) <= g(i)
    requires 0 <= k < n && f(k) < g(k)
    ensures SumTo(n, f) < SumTo(n, g)
  {
    if k == n - 1 {
      SumMonotone(n - 1, f, g);
    } else {
      SumStrict(n - 1, f, g, k);
    }
  }

  lemma {:induction false} SumScales(n: nat, f: int -> int, g: int -> int, c: int)
    requires forall i | 0 <= i < n :: g(i) == c * f(i)
    ensures SumTo(n, g) == c * SumTo(n, f)
  {
    if n > 0 {
      SumScales(n - 1, f, g, c);
    }
  }
}
