/** Backends and pools: the mutable objects the balancer, the health checker and the proxy share. */
module Pools {
  import Ewma
  import opened TwoChoices

  /** An average of zero counts as one millisecond. */
  function Score(ewmaMs: real, inflight: int): (s: real)
    ensures 0.0 <= ewmaMs && 0 <= inflight ==> 0.0 < s
  {
    (if ewmaMs == 0.0 then 1.0 else ewmaMs) * (inflight + 1) as real
  }

  /**
   * n requests in flight multiply the idle score by n + 1, which is the average, or one millisecond when it is zero.
   */
  lemma {:induction false} ScoreMeaning(ewmaMs: real, n: nat)
    ensures Score(ewmaMs, n) == (n + 1) as real * Score(ewmaMs, 0)
    ensures ewmaMs > 0.0 ==> Score(ewmaMs, 0) == ewmaMs
    ensures Score(0.0, n) == Score(1.0, n) && Score(1.0, 0) == 1.0
  {
    Commutes(if ewmaMs == 0.0 then 1.0 else ewmaMs, (n + 1) as real);
  }

  lemma {:induction false} Commutes(a: real, b: real)
    ensures a * b == b * a
  {
  }

  lemma {:induction false} ProductGrows(a: real, b: real, k: real)
    requires a < b && k > 0.0
    ensures a * k < b * k && k * a < k * b
  {
  }

  /**
   * Of two loads, a lower average at the same in-flight count, or fewer in flight at the same average, scores lower.
   */
  lemma {:induction false} ScoreOrders(e1: real, n1: nat, e2: real, n2: nat)
    ensures n1 == n2 && 0.0 < e1 < e2 ==> Score(e1, n1) < Score(e2, n2)
    ensures e1 == e2 && 0.0 <= e1 && n1 < n2 ==> Score(e1, n1) < Score(e2, n2)
  {
    if n1 == n2 && 0.0 < e1 < e2 {
      ProductGrows(e1, e2, (n1 + 1) as real);
    }
    if e1 == e2 && 0.0 <= e1 && n1 < n2 {
      ProductGrows((n1 + 1) as real, (n2 + 1) as real, if e1 == 0.0 then 1.0 else e1);
    }
  }

  /** The first load is no worse than the second, on the averages and in-flight counts themselves. */
  ghost predicate NoWorse(e1: real, n1: int, e2: real, n2: int) {
    && (n1 == n2 && 0.0 < e1 && 0.0 < e2 ==> e1 <= e2)
    && (e1 == e2 ==> n1 <= n2)
  }

  lemma {:induction false} LowerScoreNoWorse(e1: real, n1: nat, e2: real, n2: nat)
    requires 0.0 <= e1 && 0.0 <= e2 && Score(e1, n1) <= Score(e2, n2)
    ensures NoWorse(e1, n1, e2, n2)
  {
    ScoreOrders(e2, n2, e1, n1);
  }

  class Backend {
    const ID: string
    const Addr: string
    var healthy: bool
    var inflight: int
    var ewmaMs: real
    var hasStats: bool

    constructor (id: string, addr: string)
      ensures ID == id && Addr == addr && inflight == 0 && View() == Ewma.Fresh
    {
      ID := id;
      Addr := addr;
      healthy := true;
      inflight := 0;
      ewmaMs := 0.0;
      hasStats := false;
    }

    function View(): (s: Ewma.Stats)
      reads this
    {
      Ewma.Stats(healthy, ewmaMs, hasStats)
    }

    function CurrentScore(): (s: real)
      reads this
    {
      Score(ewmaMs, inflight)
    }

    /** The atomic swap of the bit. */
    method SwapHealthy(up: bool) returns (prev: bool)
      modifies this
      ensures prev == old(healthy) && View() == old(View()).(healthy := up) && inflight == old(inflight)
    {
      prev := healthy;
      healthy := up;
    }

    /** The wipe, under the backend's mutex. */
    method WipeStats()
      modifies this
      ensures View() == Ewma.Stats(old(healthy), 0.0, false) && inflight == old(inflight)
    {
      ewmaMs := 0.0;
      hasStats := false;
    }

    /** Both steps with nothing in between. */
    method SetHealthy(up: bool)
      modifies this
      ensures View() == Ewma.Next(old(View()), Ewma.SetHealthy(up)) && inflight == old(inflight)
    {
      var prev := SwapHealthy(up);
      if up && !prev {
        WipeStats();
      }
    }

    method Acquire()
      modifies this
      ensures inflight == old(inflight) + 1 && View() == old(View())
    {
      inflight := inflight + 1;
    }

    method Release()
      modifies this
      ensures inflight == old(inflight) - 1 && View() == old(View())
    {
      inflight := inflight - 1;
    }

    method RecordLatency(nanos: int)
      modifies this
      ensures View() == Ewma.Next(old(View()), Ewma.Record(nanos)) && inflight == old(inflight)
    {
      var sample := Ewma.Sample(nanos);
      if !hasStats {
        ewmaMs := sample;
        hasStats := true;
        return;
      }
      ewmaMs := 0.3 * sample + (1.0 - 0.3) * ewmaMs;
    }
  }

  datatype BackendConfig = BackendConfig(id: string, addr: string)

  /** The healthy members of a slice of backends, in order. */
  function HealthyOf(bs: seq<Backend>): (h: seq<Backend>)
    reads bs
    ensures forall b | b in h :: b in bs && b.healthy
    ensures forall b | b in bs && b.healthy :: b in h
  {
    if bs == [] then []
    else HealthyOf(bs[..|bs| - 1]) + (if bs[|bs| - 1].healthy then [bs[|bs| - 1]] else [])
  }

  lemma {:induction false} HealthyPrefix(bs: seq<Backend>, i: nat)
    requires i <= |bs|
    ensures HealthyOf(bs[..i]) <= HealthyOf(bs)
  {
    if i == |bs| {
      assert bs[..i] == bs;
    } else {
      var before := bs[..|bs| - 1];
      HealthyPrefix(before, i);
      assert before[..i] == bs[..i];
    }
  }

  /**
   * The healthy members keep their order and their number: member i stands after exactly the healthy ones before it.
   */
  lemma {:induction false} HealthyInOrder(bs: seq<Backend>, i: nat)
    requires i < |bs|
    ensures var rank := |HealthyOf(bs[..i])|;
            && |HealthyOf(bs[..i + 1])| == (if bs[i].healthy then rank + 1 else rank)
            && (bs[i].healthy ==> rank < |HealthyOf(bs)| && HealthyOf(bs)[rank] == bs[i])
  {
    HealthyPrefix(bs, i + 1);
    var upTo := bs[..i + 1];
    assert upTo[..i] == bs[..i] && upTo[i] == bs[i];
    assert HealthyOf(upTo) == HealthyOf(bs[..i]) + (if bs[i].healthy then [bs[i]] else []);
  }

  function ScoresOf(bs: seq<Backend>): (scores: seq<real>)
    reads bs
    ensures |scores| == |bs|
    ensures forall k | 0 <= k < |bs| :: scores[k] == bs[k].CurrentScore()
  {
    if bs == [] then [] else ScoresOf(bs[..|bs| - 1]) + [bs[|bs| - 1].CurrentScore()]
  }

  /** The candidate that a draw prefers, on the fields of the backends: the first on a tie. */
  ghost predicate Preferred(w: Backend, x: Backend, y: Backend)
    reads w, x, y
  {
    && (w == x || w == y)
    && (x.inflight == y.inflight && 0.0 < x.ewmaMs && 0.0 < y.ewmaMs ==>
          w == if x.ewmaMs <= y.ewmaMs then x else y)
    && (x.ewmaMs == y.ewmaMs ==> w == if x.inflight <= y.inflight then x else y)
  }

  /** The winner of a draw is the preferred candidate. */
  lemma {:induction false} WinnerPreferred(h: seq<Backend>, i: nat, k: nat)
    requires i < |h| && k < |h|
    requires 0 <= h[i].inflight && 0 <= h[k].inflight && 0.0 <= h[i].ewmaMs && 0.0 <= h[k].ewmaMs
    ensures Preferred(h[Winner(ScoresOf(h), i, k)], h[i], h[k])
  {
    var x, y := h[i], h[k];
    ScoreOrders(x.ewmaMs, x.inflight, y.ewmaMs, y.inflight);
    ScoreOrders(y.ewmaMs, y.inflight, x.ewmaMs, x.inflight);
  }

  /** So what Pick returns from two draws is the preferred one of its two candidates. */
  lemma {:induction false} DrawPreferred(h: seq<Backend>, i: nat, j: nat)
    requires i < |h| && j + 1 < |h| && forall x | x in h :: 0 <= x.inflight && 0.0 <= x.ewmaMs
    ensures Preferred(h[DrawWinner(ScoresOf(h), i, j)], h[i], h[Skip(i, j)])
  {
    assert h[i] in h && h[Skip(i, j)] in h;
    WinnerPreferred(h, i, Skip(i, j));
  }

  /** rand.Intn: any function from a positive bound to a number below it. */
  ghost predicate IsIntn(intn: nat -> nat) {
    forall k: nat | k > 0 :: intn(k) < k
  }

  class Pool {
    const Service: string
    const backends: seq<Backend>

    constructor (service: string, cfg: seq<BackendConfig>)
      ensures Service == service && |backends| == |cfg|
      ensures forall k | 0 <= k < |cfg| ::
                fresh(backends[k]) && backends[k].ID == cfg[k].id && backends[k].Addr == cfg[k].addr
                && backends[k].View() == Ewma.Fresh && backends[k].inflight == 0
    {
      var bs: seq<Backend> := [];
      for i := 0 to |cfg|
        invariant |bs| == i
        invariant forall k | 0 <= k < i ::
                    fresh(bs[k]) && bs[k].ID == cfg[k].id && bs[k].Addr == cfg[k].addr
                    && bs[k].View() == Ewma.Fresh && bs[k].inflight == 0
      {
        var b := new Backend(cfg[i].id, cfg[i].addr);
        bs := bs + [b];
      }
      Service := service;
      backends := bs;
    }

    method Healthy() returns (h: seq<Backend>)
      ensures h == HealthyOf(backends)
    {
      h := [];
      for i := 0 to |backends|
        invariant h == HealthyOf(backends[..i])
      {
        assert backends[..i + 1][..i] == backends[..i];
        if backends[i].healthy {
          h := h + [backends[i]];
        }
      }
      assert backends[..|backends|] == backends;
    }

    /**
     * No healthy backend gives null, one gives that one, and otherwise the draw decides: the
     * chosen backend is healthy and scores no worse than the two distinct candidates drawn.
     */
    method Pick(first: nat -> nat, second: nat -> nat) returns (b: Backend?)
      requires IsIntn(first) && IsIntn(second)
      ensures b == null <==> forall x | x in backends :: !x.healthy
      ensures b != null ==> b in backends && b.healthy
      ensures var h := HealthyOf(backends); var n := |h|;
              && (n == 1 ==> b == h[0])
              && (n >= 2 ==> b == h[DrawWinner(ScoresOf(h), first(n), second(n - 1))])
    {
      var h := Healthy();
      if |h| == 0 {
        return null;
      }
      if |h| == 1 {
        assert h[0] in h;
        return h[0];
      }
      var i := first(|h|);
      var j := second(|h| - 1);
      if j >= i {
        j := j + 1;
      }
      assert h[i] in h && h[j] in h;
      if h[i].CurrentScore() <= h[j].CurrentScore() {
        return h[i];
      }
      return h[j];
    }
  }
}
