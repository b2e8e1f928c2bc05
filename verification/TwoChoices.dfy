/**
 * Power of two choices: which backend wins how many of the n(n-1) equally likely draws.
 * `scores` are the scores of the healthy snapshot, at least two of them.
 */
module TwoChoices {
  import opened Sums

  /** The second draw skips the first: from 0..n-2 onto the indices other than i. */
  function Skip(i: int, j: int): (k: int)
    ensures k != i
  {
    if j >= i then j + 1 else j
  }

  /** The first candidate wins ties. */
  function Winner(scores: seq<real>, a: nat, b: nat): (w: nat)
    requires a < |scores| && b < |scores|
    ensures w in {a, b}
    ensures scores[w] <= scores[a] && scores[w] <= scores[b]
  {
    if scores[a] <= scores[b] then a else b
  }

  /** The winner of draw (i, j), where i ranges over 0..n and j over 0..n-1. */
  function DrawWinner(scores: seq<real>, i: nat, j: nat): (w: nat)
    requires i < |scores| && j + 1 < |scores|
    ensures w < |scores|
  {
    Winner(scores, i, Skip(i, j))
  }

  /** The draws are in bijection with the ordered pairs of distinct indices. */
  lemma {:induction false} DrawsArePairs(n: nat, i: nat, k: nat)
    requires i < n && k < n && i != k
    ensures exists j: nat :: j + 1 < n && Skip(i, j) == k && forall j': nat | Skip(i, j') == k :: j' == j
    ensures forall j: nat | j + 1 < n :: Skip(i, j) < n && Skip(i, j) != i
  {
    var j := if k > i then k - 1 else k;
    assert Skip(i, j) == k;
  }

  ghost predicate Wins(scores: seq<real>, x: int, i: int, j: int) {
    0 <= i < |scores| && 0 <= j < |scores| - 1 && DrawWinner(scores, i, j) == x
  }

  /** How many second draws x wins once the first draw is i. */
  ghost function RowWins(scores: seq<real>, x: int, i: int): int {
    if |scores| < 2 then 0 else Sum(|scores| - 1, j => One(Wins(scores, x, i, j)))
  }

  /** How many of the n(n-1) draws x wins. */
  ghost function WinCount(scores: seq<real>, x: int): int {
    Sum(|scores|, i => RowWins(scores, x, i))
  }

  ghost predicate Worse(scores: seq<real>, x: int, y: int) {
    0 <= x < |scores| && 0 <= y < |scores| && scores[y] > scores[x]
  }

  ghost predicate Tied(scores: seq<real>, x: int, y: int) {
    0 <= x < |scores| && 0 <= y < |scores| && y != x && scores[y] == scores[x]
  }

  ghost function WorseCount(scores: seq<real>, x: int): int {
    Sum(|scores|, y => One(Worse(scores, x, y)))
  }

  ghost function TiedCount(scores: seq<real>, x: int): int {
    Sum(|scores|, y => One(Tied(scores, x, y)))
  }

  ghost function Skipping(i: int, f: int -> int): int -> int {
    j => f(Skip(i, j))
  }

  /** Summing over the skipping draw leaves out exactly index i. */
  lemma {:induction false} SkipSum(m: nat, i: nat, f: int -> int)
    ensures Sum(m, Skipping(i, f)) == if m <= i then Sum(m, f) else Sum(m + 1, f) - f(i)
  {
    var g := Skipping(i, f);
    if m == 0 {
      assert Sum(0, g) == 0 == Sum(0, f);
    } else {
      SkipSum(m - 1, i, f);
      assert Sum(m, g) == Sum(m - 1, g) + f(Skip(i, m - 1));
      assert Sum(m + 1, f) == Sum(m, f) + f(m);
      assert Sum(m, f) == Sum(m - 1, f) + f(m - 1);
    }
  }

  /** Does x win when the ordered pair (i, k) is compared? */
  ghost predicate WinsPair(scores: seq<real>, x: int, i: int, k: int) {
    0 <= i < |scores| && 0 <= k < |scores| && i != k && Winner(scores, i, k) == x
  }

  ghost function PairWins(scores: seq<real>, x: int, i: int): int -> int {
    k => One(WinsPair(scores, x, i, k))
  }

  /** The draws of a row are the pairs with its first candidate. */
  lemma {:induction false} RowIsPairs(scores: seq<real>, x: nat, i: nat)
    requires |scores| >= 2 && i < |scores|
    ensures RowWins(scores, x, i) == Sum(|scores|, PairWins(scores, x, i))
  {
    var f := PairWins(scores, x, i);
    SumExt(|scores| - 1, j => One(Wins(scores, x, i, j)), Skipping(i, f));
    SkipSum(|scores| - 1, i, f);
  }

  /** Fixing the first candidate i, the wins of x: all it does not lose if i is x, else one win if i is worse. */
  lemma {:induction false} RowCount(scores: seq<real>, x: nat, i: nat)
    requires |scores| >= 2 && x < |scores| && i < |scores|
    ensures RowWins(scores, x, i)
            == if i == x then WorseCount(scores, x) + TiedCount(scores, x) else One(Worse(scores, x, i))
  {
    RowIsPairs(scores, x, i);
    if i == x {
      SumAdd(|scores|, y => One(Worse(scores, x, y)), y => One(Tied(scores, x, y)), PairWins(scores, x, i));
    } else {
      SumSingle(|scores|, x, PairWins(scores, x, i));
    }
  }

  /** The exact number of draws a backend wins. */
  lemma {:induction false} WinCountExact(scores: seq<real>, x: nat)
    requires |scores| >= 2 && x < |scores|
    ensures WinCount(scores, x) == 2 * WorseCount(scores, x) + TiedCount(scores, x)
  {
    var n := |scores|;
    var rows := (i: int) => RowWins(scores, x, i);
    var extra := (i: int) => if i == x then WorseCount(scores, x) + TiedCount(scores, x) else 0;
    forall i | 0 <= i < n
      ensures rows(i) == extra(i) + One(Worse(scores, x, i))
    {
      RowCount(scores, x, i);
    }
    SumAdd(n, extra, i => One(Worse(scores, x, i)), rows);
    SumSingle(n, x, extra);
  }

  /** Every draw has one winner. */
  lemma {:induction false} RowTotal(scores: seq<real>, i: nat)
    requires |scores| >= 2 && i < |scores|
    ensures Sum(|scores|, x => RowWins(scores, x, i)) == |scores| - 1
  {
    var n := |scores|;
    var cell := (x: int, j: int) => One(Wins(scores, x, i, j));
    var column := (j: int) => Sum(n, x => cell(x, j));
    SumSwap(n, n - 1, cell);
    forall x | 0 <= x < n
      ensures RowWins(scores, x, i) == Sum(n - 1, j => cell(x, j))
    {
      SumExt(n - 1, j => One(Wins(scores, x, i, j)), j => cell(x, j));
    }
    SumExt(n, x => RowWins(scores, x, i), x => Sum(n - 1, j => cell(x, j)));
    forall j | 0 <= j < n - 1
      ensures column(j) == 1
    {
      SumSingle(n, DrawWinner(scores, i, j), x => cell(x, j));
    }
    SumConst(n - 1, column, 1);
    SumExt(n - 1, column, j => Sum(n, x => cell(x, j)));
  }

  /** So the wins add up to all n(n-1) draws. */
  lemma {:induction false} WinCountsTotal(scores: seq<real>)
    requires |scores| >= 2
    ensures Sum(|scores|, x => WinCount(scores, x)) == |scores| * (|scores| - 1)
  {
    var n := |scores|;
    var row := (x: int, i: int) => RowWins(scores, x, i);
    var column := (i: int) => Sum(n, x => row(x, i));
    SumSwap(n, n, row);
    forall x | 0 <= x < n
      ensures WinCount(scores, x) == Sum(n, i => row(x, i))
    {
      SumExt(n, i => RowWins(scores, x, i), i => row(x, i));
    }
    SumExt(n, x => WinCount(scores, x), x => Sum(n, i => row(x, i)));
    forall i | 0 <= i < n
      ensures column(i) == n - 1
    {
      RowTotal(scores, i);
      SumExt(n, x => RowWins(scores, x, i), x => row(x, i));
    }
    SumConst(n, column, n - 1);
    SumExt(n, column, i => Sum(n, x => row(x, i)));
  }

  /** A strictly lower score wins strictly more draws; equal scores win equally many. */
  lemma {:induction false} LowerScoreWinsMore(scores: seq<real>, x: nat, y: nat)
    requires |scores| >= 2 && x < |scores| && y < |scores| && scores[x] <= scores[y]
    ensures WinCount(scores, y) <= WinCount(scores, x)
    ensures scores[x] < scores[y] ==> WinCount(scores, y) + 2 <= WinCount(scores, x)
  {
    var n := |scores|;
    WinCountExact(scores, x);
    WinCountExact(scores, y);
    var notBetter := (k: int) => One(Worse(scores, y, k)) + One(Tied(scores, y, k));
    SumAdd(n, k => One(Worse(scores, y, k)), k => One(Tied(scores, y, k)), notBetter);
    SumLe(n, k => 0, k => One(Tied(scores, y, k)));
    SumConst(n, k => 0, 0);
    if scores[x] < scores[y] {
      var self := (k: int) => One(k == y);
      SumSingle(n, y, self);
      SumAdd(n, notBetter, self, k => notBetter(k) + self(k));
      SumLe(n, k => notBetter(k) + self(k), k => One(Worse(scores, x, k)));
      SumLe(n, k => 0, k => One(Tied(scores, x, k)));
    } else {
      SumExt(n, k => One(Worse(scores, x, k)), k => One(Worse(scores, y, k)));
      var others := (k: int) => One(Worse(scores, x, k)) + One(Tied(scores, x, k));
      SumAdd(n, k => One(Worse(scores, x, k)), k => One(Tied(scores, x, k)), others);
      TieCount(scores, x);
      TieCount(scores, y);
      SumExt(n, k => One(SameScore(scores, x, k)), k => One(SameScore(scores, y, k)));
    }
  }

  ghost predicate SameScore(scores: seq<real>, x: int, y: int) {
    0 <= x < |scores| && 0 <= y < |scores| && scores[y] == scores[x]
  }

  lemma {:induction false} TieCount(scores: seq<real>, x: nat)
    requires x < |scores|
    ensures Sum(|scores|, k => One(SameScore(scores, x, k))) == TiedCount(scores, x) + 1
  {
    var self := (k: int) => if k == x then 1 else 0;
    SumSingle(|scores|, x, self);
    SumAdd(|scores|, k => One(Tied(scores, x, k)), self, k => One(SameScore(scores, x, k)));
  }

  /** All scores equal: every backend wins n-1 draws. */
  lemma {:induction false} EqualScoresUniform(scores: seq<real>, x: nat)
    requires |scores| >= 2 && x < |scores|
    requires forall y | 0 <= y < |scores| :: scores[y] == scores[x]
    ensures WinCount(scores, x) == |scores| - 1
  {
    WinCountExact(scores, x);
    TieCount(scores, x);
    SumConst(|scores|, y => One(Worse(scores, x, y)), 0);
    SumConst(|scores|, k => One(SameScore(scores, x, k)), 1);
  }

  /**
   * A backend never wins exactly when it is strictly the worst, and wins 2(n-1) draws, all it is in, exactly when
   * strictly the best.
   */
  lemma {:induction false} ExtremesExact(scores: seq<real>, x: nat)
    requires |scores| >= 2 && x < |scores|
    ensures WinCount(scores, x) == 0 <==> forall y | 0 <= y < |scores| && y != x :: scores[y] < scores[x]
    ensures WinCount(scores, x) == 2 * (|scores| - 1)
            <==> forall y | 0 <= y < |scores| && y != x :: scores[x] < scores[y]
  {
    var n := |scores|;
    WinCountExact(scores, x);
    var f := (y: int) => 2 * One(Worse(scores, x, y)) + One(Tied(scores, x, y));
    SumAdd(n, y => One(Worse(scores, x, y)), y => One(Worse(scores, x, y)), y => 2 * One(Worse(scores, x, y)));
    SumAdd(n, y => 2 * One(Worse(scores, x, y)), y => One(Tied(scores, x, y)), f);
    SumZeroIff(n, f);
    var lost := (y: int) => 2 * One(y != x) - f(y);
    SumZeroIff(n, lost);
    SumAdd(n, f, lost, y => 2 * One(y != x));
    SumSingle(n, x, y => 2 * One(y == x));
    SumConst(n, y => 2, 2);
    SumAdd(n, y => 2 * One(y != x), y => 2 * One(y == x), y => 2);
    assert forall y | 0 <= y < n && y != x :: f(y) == 0 <==> scores[y] < scores[x];
    assert forall y | 0 <= y < n && y != x :: lost(y) == 0 <==> scores[x] < scores[y];
  }

  lemma {:induction false} SumZeroIff(n: nat, f: int -> int)
    requires forall k | 0 <= k < n :: f(k) >= 0
    ensures Sum(n, f) >= 0
    ensures Sum(n, f) == 0 <==> forall k | 0 <= k < n :: f(k) == 0
  {
    if n != 0 {
      SumZeroIff(n - 1, f);
    }
  }
}
