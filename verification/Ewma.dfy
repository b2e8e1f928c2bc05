/**
 * The latency average of one backend: what RecordLatency and SetHealthy do to it, and the closed
 * form the stored number has after any run of such calls.  float64 is modelled as real.
 */
module Ewma {
  import opened Sums

  datatype Stats = Stats(healthy: bool, ewmaMs: real, hasStats: bool)

  datatype Call = Record(nanos: int) | SetHealthy(up: bool)

  /** Duration.Milliseconds(): whole milliseconds, truncated toward zero. */
  function Millis(nanos: int): (ms: int)
    ensures 0 <= nanos ==> 0 <= ms && ms * 1_000_000 <= nanos < (ms + 1) * 1_000_000
  {
    if nanos >= 0 then nanos / 1_000_000 else -((-nanos) / 1_000_000)
  }

  function Sample(nanos: int): (x: real) {
    Millis(nanos) as real
  }

  /** A sample is the latency in whole milliseconds. */
  lemma {:induction false} SampleMeaning(ms: nat, rest: nat)
    requires rest < 1_000_000
    ensures Sample(ms * 1_000_000 + rest) == ms as real
  {
  }

  /** A first sample is the average; a second one enters with weight 0.3. */
  lemma {:induction false} FirstTwoSamples(a: nat, b: nat)
    ensures Run(Fresh, [Record(a)]).ewmaMs == Sample(a)
    ensures Run(Fresh, [Record(a), Record(b)]).ewmaMs == 0.3 * Sample(b) + 0.7 * Sample(a)
  {
    assert [Record(a)][..0] == [] && [Record(a), Record(b)][..1] == [Record(a)];
  }

  function Blend(average: real, sample: real): (x: real) {
    0.3 * sample + (1.0 - 0.3) * average
  }

  function Next(s: Stats, c: Call): (s': Stats) {
    match c
    case Record(d) =>
      if !s.hasStats then s.(ewmaMs := Sample(d), hasStats := true)
      else s.(ewmaMs := Blend(s.ewmaMs, Sample(d)))
    case SetHealthy(v) =>
      if v && !s.healthy then Stats(true, 0.0, false) else s.(healthy := v)
  }

  function Run(s: Stats, calls: seq<Call>): (s': Stats) {
    if calls == [] then s else Next(Run(s, calls[..|calls| - 1]), calls[|calls| - 1])
  }

  /** NewPool starts every backend healthy and without samples. */
  const Fresh := Stats(true, 0.0, false)

  /** The samples recorded by a stretch of calls, in order. */
  function Samples(calls: seq<Call>): (xs: seq<real>) {
    if calls == [] then [] else
    var rest := Samples(calls[..|calls| - 1]);
    match calls[|calls| - 1]
    case Record(d) => rest + [Sample(d)]
    case SetHealthy(_) => rest
  }

  /** Call k turns the backend from unhealthy to healthy: it says up, and the latest setting before it says down. */
  ghost predicate Flip(calls: seq<Call>, k: nat) {
    && k < |calls| && calls[k] == SetHealthy(true)
    && exists m :: 0 <= m < k && calls[m] == SetHealthy(false)
                   && forall i | m < i < k :: calls[i].Record?
  }

  /** `from` is just after the last flip, or the start when there has been none. */
  ghost predicate SinceLastFlip(calls: seq<Call>, from: nat) {
    && from <= |calls|
    && (from == 0 || Flip(calls, from - 1))
    && (forall k: nat | from <= k :: !Flip(calls, k))
  }

  function Pow(k: nat): (p: real)
    ensures 0.0 < p <= 1.0
  {
    if k == 0 then 1.0 else 0.7 * Pow(k - 1)
  }

  /** The weight of sample k among m: the first sample keeps the whole remainder. */
  function Weight(m: nat, k: int): (w: real)
    ensures 0.0 <= w
  {
    if !(0 <= k < m) then 0.0
    else if k == 0 then Pow(m - 1)
    else 0.3 * Pow(m - 1 - k)
  }

  ghost function Weighted(xs: seq<real>): real {
    RealSum(|xs|, Terms(xs))
  }

  lemma {:induction false} WeightScales(m: nat, k: int)
    requires 0 <= k < m
    ensures Weight(m + 1, k) == 0.7 * Weight(m, k)
  {
  }

  lemma {:induction false} ScaleProduct(c: real, a: real, b: real)
    ensures (c * a) * b == c * (a * b)
  {
  }

  ghost function Term(xs: seq<real>, k: int): real {
    if 0 <= k < |xs| then Weight(|xs|, k) * xs[k] else 0.0
  }

  ghost function Terms(xs: seq<real>): int -> real {
    k => Term(xs, k)
  }

  /** One more sample scales every earlier term by 0.7. */
  lemma {:induction false} EarlierTermsScale(xs: seq<real>, x: real)
    ensures RealSum(|xs|, Terms(xs + [x])) == 0.7 * RealSum(|xs|, Terms(xs))
  {
    var m := |xs|;
    var ys := xs + [x];
    forall k | 0 <= k < m
      ensures Terms(ys)(k) == 0.7 * Terms(xs)(k)
    {
      WeightScales(m, k);
      ScaleProduct(0.7, Weight(m, k), xs[k]);
    }
    RealSumScale(m, Terms(xs), 0.7, Terms(ys));
  }

  lemma {:induction false} LastTerm(xs: seq<real>, x: real)
    ensures Term(xs + [x], |xs|) == if xs == [] then x else 0.3 * x
  {
  }

  /** So one more sample enters with 0.3, or with 1 when it is the first. */
  lemma {:induction false} WeightedExtend(xs: seq<real>, x: real)
    ensures Weighted(xs + [x]) == if xs == [] then x else Blend(Weighted(xs), x)
  {
    EarlierTermsScale(xs, x);
    LastTerm(xs, x);
    assert Weighted(xs + [x]) == RealSum(|xs|, Terms(xs + [x])) + Term(xs + [x], |xs|);
  }

  /** The weights of m samples sum to one. */
  lemma {:induction false} WeightsSumToOne(m: nat)
    requires m > 0
    ensures RealSum(m, k => Weight(m, k)) == 1.0
  {
    if m > 1 {
      WeightsSumToOne(m - 1);
      var f := (k: int) => Weight(m - 1, k);
      var g := (k: int) => Weight(m, k);
      assert forall k | 0 <= k < m - 1 :: g(k) == 0.7 * f(k);
      RealSumScale(m - 1, f, 0.7, g);
      assert g(m - 1) == 0.3;
    }
  }

  /** What the run so far says about the healthy bit and the samples of every stretch without a flip. */
  lemma {:induction false} HealthyIsLastSetting(calls: seq<Call>)
    ensures Run(Fresh, calls).healthy <==>
            !exists m :: 0 <= m < |calls| && calls[m] == SetHealthy(false)
                         && forall i | m < i < |calls| :: calls[i].Record?
  {
    if calls != [] {
      var n := |calls| - 1;
      HealthyIsLastSetting(calls[..n]);
      if calls[n].Record? {
        assert forall m | 0 <= m < n :: calls[..n][m] == calls[m];
      } else if calls[n] == SetHealthy(false) {
        assert calls[n] == SetHealthy(false);
      }
    }
  }

  lemma {:induction false} FlipIsReset(calls: seq<Call>, n: nat)
    requires n < |calls|
    ensures Flip(calls, n) <==> calls[n] == SetHealthy(true) && !Run(Fresh, calls[..n]).healthy
  {
    HealthyIsLastSetting(calls[..n]);
    assert forall m | 0 <= m < n :: calls[..n][m] == calls[m];
  }

  lemma {:induction false} FlipPrefix(calls: seq<Call>, n: nat, k: nat)
    requires k < n <= |calls|
    ensures Flip(calls[..n], k) <==> Flip(calls, k)
  {
    assert forall m | 0 <= m < n :: calls[..n][m] == calls[m];
  }

  /** After any run of calls the stored average is the weighted sum of exactly the samples since the last flip. */
  lemma {:induction false} EwmaClosedForm(calls: seq<Call>, from: nat)
    requires SinceLastFlip(calls, from)
    ensures Run(Fresh, calls).ewmaMs == Weighted(Samples(calls[from..]))
    ensures Run(Fresh, calls).hasStats <==> Samples(calls[from..]) != []
  {
    if calls != [] {
      var n := |calls| - 1;
      var before := calls[..n];
      FlipIsReset(calls, n);
      if from == |calls| {
        assert calls[from..] == [];
      } else {
        forall k: nat | k < n
          ensures Flip(before, k) <==> Flip(calls, k)
        {
          FlipPrefix(calls, n, k);
        }
        EwmaClosedForm(before, from);
        var tail := calls[from..];
        assert tail[..|tail| - 1] == before[from..] && tail[|tail| - 1] == calls[n];
        if calls[n].Record? {
          WeightedExtend(Samples(before[from..]), Sample(calls[n].nanos));
        }
      }
    }
  }

  /** Such a starting point always exists, so the closed form always applies. */
  lemma {:induction false} LastFlipExists(calls: seq<Call>) returns (from: nat)
    ensures SinceLastFlip(calls, from)
  {
    from := |calls|;
    while from > 0 && !Flip(calls, from - 1)
      invariant from <= |calls|
      invariant forall k: nat | from <= k :: !Flip(calls, k)
    {
      from := from - 1;
    }
  }

  /** A weighted sum lies between any bounds on its samples. */
  lemma {:induction false} WeightedBetween(xs: seq<real>, lo: real, hi: real)
    requires xs != [] && forall k | 0 <= k < |xs| :: lo <= xs[k] <= hi
    ensures lo <= Weighted(xs) <= hi
  {
    var n := |xs| - 1;
    assert xs[..n] + [xs[n]] == xs;
    WeightedExtend(xs[..n], xs[n]);
    if n > 0 {
      WeightedBetween(xs[..n], lo, hi);
    }
  }

  /** So after any run the average lies between the bounds of the samples since the last flip. */
  lemma {:induction false} EwmaBetween(calls: seq<Call>, from: nat, lo: real, hi: real)
    requires SinceLastFlip(calls, from) && Samples(calls[from..]) != []
    requires forall k | 0 <= k < |Samples(calls[from..])| :: lo <= Samples(calls[from..])[k] <= hi
    ensures lo <= Run(Fresh, calls).ewmaMs <= hi
  {
    EwmaClosedForm(calls, from);
    WeightedBetween(Samples(calls[from..]), lo, hi);
  }

  /** k equal samples. */
  function Repeat(d: int, k: nat): (calls: seq<Call>) {
    seq(k, i => Record(d))
  }

  /** k equal samples shrink the distance to them by exactly 0.7^k. */
  lemma {:induction false} Convergence(s: Stats, d: int, k: nat)
    requires s.hasStats
    ensures Run(s, Repeat(d, k)).hasStats
    ensures Run(s, Repeat(d, k)).ewmaMs - Sample(d) == Pow(k) * (s.ewmaMs - Sample(d))
  {
    if k > 0 {
      Convergence(s, d, k - 1);
      assert Repeat(d, k)[..k - 1] == Repeat(d, k - 1);
      var e := Run(s, Repeat(d, k - 1)).ewmaMs - Sample(d);
      assert Run(s, Repeat(d, k)).ewmaMs - Sample(d) == 0.7 * e;
      ScaleProduct(0.7, Pow(k - 1), s.ewmaMs - Sample(d));
    }
  }

  function Abs(x: real): (y: real) {
    if x < 0.0 then -x else x
  }

  lemma {:induction false} PowTwoMore(k: nat, e: real)
    ensures Pow(k + 2) * e == 0.49 * (Pow(k) * e)
  {
    assert Pow(k + 1) == 0.7 * Pow(k);
    assert Pow(k + 2) == 0.49 * Pow(k);
    ScaleProduct(0.49, Pow(k), e);
  }

  lemma {:induction false} UnderHalf(a: real, b: real)
    requires b == 0.49 * a
    ensures 2.0 * Abs(b) <= Abs(a)
  {
  }

  /** Two equal samples at least halve the distance, as the source's half-life of about two samples says. */
  lemma {:induction false} HalvesEveryTwo(s: Stats, d: int, k: nat)
    requires s.hasStats
    ensures 2.0 * Abs(Run(s, Repeat(d, k + 2)).ewmaMs - Sample(d)) <= Abs(Run(s, Repeat(d, k)).ewmaMs - Sample(d))
  {
    Convergence(s, d, k);
    Convergence(s, d, k + 2);
    PowTwoMore(k, s.ewmaMs - Sample(d));
    UnderHalf(Run(s, Repeat(d, k)).ewmaMs - Sample(d), Run(s, Repeat(d, k + 2)).ewmaMs - Sample(d));
  }
}
