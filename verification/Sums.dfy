/** Finite sums over 0..n, used to count draws and to weigh samples. */
module Sums {

  ghost function Sum(n: nat, f: int -> int): int {
    if n == 0 then 0 else Sum(n - 1, f) + f(n - 1)
  }

  ghost function One(b: bool): int {
    if b then 1 else 0
  }

  lemma {:induction false} SumExt(n: nat, f: int -> int, g: int -> int)
    requires forall k | 0 <= k < n :: f(k) == g(k)
    ensures Sum(n, f) == Sum(n, g)
  {
    if n != 0 {
      SumExt(n - 1, f, g);
    }
  }

  lemma {:induction false} SumAdd(n: nat, f: int -> int, g: int -> int, h: int -> int)
    requires forall k | 0 <= k < n :: h(k) == f(k) + g(k)
    ensures Sum(n, h) == Sum(n, f) + Sum(n, g)
  {
    if n != 0 {
      SumAdd(n - 1, f, g, h);
    }
  }

  lemma {:induction false} SumLe(n: nat, f: int -> int, g: int -> int)
    requires forall k | 0 <= k < n :: f(k) <= g(k)
    ensures Sum(n, f) <= Sum(n, g)
  {
    if n != 0 {
      SumLe(n - 1, f, g);
    }
  }

  lemma {:induction false} SumConst(n: nat, f: int -> int, c: int)
    requires forall k | 0 <= k < n :: f(k) == c
    ensures Sum(n, f) == n * c
  {
    if n != 0 {
      SumConst(n - 1, f, c);
    }
  }

  /** A sum with at most one nonzero term. */
  lemma {:induction false} SumSingle(n: nat, x: int, f: int -> int)
    requires forall k | 0 <= k < n && k != x :: f(k) == 0
    ensures Sum(n, f) == if 0 <= x < n then f(x) else 0
  {
    if n != 0 {
      SumSingle(n - 1, x, f);
    }
  }

  /** The order of summation does not matter. */
  lemma {:induction false} SumSwap(m: nat, n: nat, f: (int, int) -> int)
    ensures Sum(m, i => Sum(n, j => f(i, j))) == Sum(n, j => Sum(m, i => f(i, j)))
  {
    if m == 0 {
      SumConst(n, j => Sum(m, i => f(i, j)), 0);
    } else {
      SumSwap(m - 1, n, f);
      SumAdd(n, j => Sum(m - 1, i => f(i, j)), j => f(m - 1, j), j => Sum(m, i => f(i, j)));
      SumExt(m - 1, i => Sum(n, j => f(i, j)), i => Sum(n, j => f(i, j)));
    }
  }

  ghost function RealSum(n: nat, f: int -> real): real {
    if n == 0 then 0.0 else RealSum(n - 1, f) + f(n - 1)
  }

  lemma {:induction false} RealSumScale(n: nat, f: int -> real, c: real, g: int -> real)
    requires forall k | 0 <= k < n :: g(k) == c * f(k)
    ensures RealSum(n, g) == c * RealSum(n, f)
  {
    if n != 0 {
      RealSumScale(n - 1, f, c, g);
    }
  }
}
