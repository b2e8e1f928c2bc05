/**
 * The latency averages inside the gateway.  SetHealthy turns the bit and wipes the average in two steps, so what counts
 * is the last wipe; a reply recorded in between is lost.
 */
module GatewayAverages {
  import Ewma
  import Health
  import opened Gateway

  /** What happens to one backend's bit and average, in order. */
  datatype Mark = Sampled(nanos: nat) | TurnedUp | TurnedDown | Emptied

  function ProbeMarks(l: Live, ok: bool): (marks: seq<Mark>) {
    var up := Health.Probe(l.node, ok).healthy;
    (if l.wiping then [Emptied] else [])
    + (if up && !l.node.healthy then [TurnedUp] else if !up && l.node.healthy then [TurnedDown] else [])
  }

  function EffectMarks(e: Effect, ref: Ref): (marks: seq<Mark>) {
    if e.Latency? && e.ref == ref then [Sampled(e.nanos)] else []
  }

  /** What an event is to one backend: a reply's latency, a turn of its bit, a wipe. */
  function EventMarks(u: Setup, s: State, e: Event, ref: Ref): (marks: seq<Mark>) {
    match e
    case Act(t, c) =>
      if t !in s.threads then [] else EffectMarks(Step(s.threads[t], Observe(u, s, s.threads[t], c)).1, ref)
    case Probe(r, ok) => if r == ref then ProbeMarks(Look(s.live, ref), ok) else []
    case Wipe(r) => if r == ref && Look(s.live, ref).wiping then [Emptied] else []
    case _ => []
  }

  function MarksOf(u: Setup, events: seq<Event>, ref: Ref): (marks: seq<Mark>) {
    if events == [] then [] else
    var n := |events| - 1;
    MarksOf(u, events[..n], ref) + EventMarks(u, Run(u, events[..n]), events[n], ref)
  }

  /** The bit, the average, and whether a wipe is due. */
  datatype Average = Average(stats: Ewma.Stats, wiping: bool)

  function Marked(a: Average, m: Mark): (a': Average) {
    match m
    case Sampled(d) => a.(stats := Ewma.Next(a.stats, Ewma.Record(d)))
    case TurnedUp => Average(a.stats.(healthy := true), true)
    case TurnedDown => a.(stats := a.stats.(healthy := false))
    case Emptied => Average(Ewma.Stats(a.stats.healthy, 0.0, false), false)
  }

  function MarkedAll(marks: seq<Mark>): (a: Average) {
    if marks == [] then Average(Ewma.Fresh, false) else Marked(MarkedAll(marks[..|marks| - 1]), marks[|marks| - 1])
  }

  lemma {:induction false} MarkedMore(marks: seq<Mark>, m: Mark)
    ensures MarkedAll(marks + [m]) == Marked(MarkedAll(marks), m)
  {
    assert (marks + [m])[..|marks|] == marks;
  }

  /** At most two more marks. */
  lemma {:induction false} MarkedTwoMore(marks: seq<Mark>, more: seq<Mark>)
    requires |more| <= 2
    ensures MarkedAll(marks + more)
            == match |more|
               case 0 => MarkedAll(marks)
               case 1 => Marked(MarkedAll(marks), more[0])
               case _ => Marked(Marked(MarkedAll(marks), more[0]), more[1])
  {
    if |more| == 0 {
      assert marks + more == marks;
    } else if |more| == 1 {
      MarkedMore(marks, more[0]);
      assert marks + more == marks + [more[0]];
    } else {
      MarkedMore(marks, more[0]);
      MarkedMore(marks + [more[0]], more[1]);
      assert marks + more == marks + [more[0]] + [more[1]];
    }
  }

  function AverageOf(l: Live): (a: Average) {
    Average(l.View(), l.wiping)
  }

  lemma {:induction false} ProbeMarksRight(l: Live, ok: bool)
    ensures var marks := ProbeMarks(l, ok); var a := AverageOf(l);
            && |marks| <= 2
            && AverageOf(Probed(l, ok))
               == match |marks|
                  case 0 => a
                  case 1 => Marked(a, marks[0])
                  case _ => Marked(Marked(a, marks[0]), marks[1])
  {
  }

  lemma {:induction false} EffectMarksRight(s: State, t: nat, e: Effect, ref: Ref)
    ensures var marks, a := EffectMarks(e, ref), AverageOf(Look(s.live, ref));
            AverageOf(Look(Apply(s, t, e).live, ref)) == if marks == [] then a else Marked(a, marks[0])
  {
  }

  lemma {:induction false} NextMarked(u: Setup, s: State, e: Event, ref: Ref, marks: seq<Mark>)
    requires AverageOf(Look(s.live, ref)) == MarkedAll(marks)
    ensures AverageOf(Look(Next(u, s, e).live, ref)) == MarkedAll(marks + EventMarks(u, s, e, ref))
  {
    var more := EventMarks(u, s, e, ref);
    if e.Probe? && e.ref == ref {
      ProbeMarksRight(Look(s.live, ref), e.ok);
    } else if e.Act? && e.thread in s.threads {
      var th := s.threads[e.thread];
      EffectMarksRight(s, e.thread, Step(th, Observe(u, s, th, e.choice)).1, ref);
    }
    MarkedTwoMore(marks, more);
  }

  /** Whatever else happens, a backend's bit, average and pending wipe are those of its own marks. */
  lemma {:induction false} AverageFollowsMarks(u: Setup, events: seq<Event>, ref: Ref)
    ensures AverageOf(Look(Run(u, events).live, ref)) == MarkedAll(MarksOf(u, events, ref))
  {
    if events != [] {
      var n := |events| - 1;
      AverageFollowsMarks(u, events[..n], ref);
      NextMarked(u, Run(u, events[..n]), events[n], ref, MarksOf(u, events[..n], ref));
    }
  }

  // ---------------------------------------------------------------- the closed form

  /** The latencies among the marks, in order. */
  function SamplesIn(marks: seq<Mark>): (xs: seq<real>) {
    if marks == [] then [] else
    var last := marks[|marks| - 1];
    SamplesIn(marks[..|marks| - 1]) + (if last.Sampled? then [Ewma.Sample(last.nanos)] else [])
  }

  lemma {:induction false} SamplesConcat(a: seq<Mark>, b: seq<Mark>)
    ensures SamplesIn(a + b) == SamplesIn(a) + SamplesIn(b)
  {
    if b == [] {
      assert a + b == a;
    } else {
      var n := |b| - 1;
      SamplesConcat(a, b[..n]);
      assert (a + b)[..|a + b| - 1] == a + b[..n];
    }
  }

  /** `w` is just after the last mark of this kind, or the start when there is none. */
  ghost predicate JustAfter(marks: seq<Mark>, m: Mark, w: nat) {
    && w <= |marks| && (w == 0 || marks[w - 1] == m)
    && (forall k | w <= k < |marks| :: marks[k] != m)
  }

  lemma {:induction false} JustAfterExists(marks: seq<Mark>, m: Mark) returns (w: nat)
    ensures JustAfter(marks, m, w)
  {
    w := |marks|;
    while w > 0 && marks[w - 1] != m
      invariant w <= |marks|
      invariant forall k | w <= k < |marks| :: marks[k] != m
    {
      w := w - 1;
    }
  }

  /** One more mark that is no wipe. */
  lemma {:induction false} SamplesMore(marks: seq<Mark>, n: nat, w: nat)
    requires w <= n && |marks| == n + 1
    ensures SamplesIn(marks[w..])
            == SamplesIn(marks[..n][w..]) + (if marks[n].Sampled? then [Ewma.Sample(marks[n].nanos)] else [])
  {
    var tail := marks[w..];
    assert tail[..|tail| - 1] == marks[..n][w..] && tail[|tail| - 1] == marks[n];
  }

  /** The average of a sequence of marks is the weighted sum of the samples since the last wipe. */
  lemma {:induction false} MarksClosedForm(marks: seq<Mark>, w: nat)
    requires JustAfter(marks, Emptied, w)
    ensures var a, xs := MarkedAll(marks), SamplesIn(marks[w..]);
            a.stats.ewmaMs == Ewma.Weighted(xs) && (a.stats.hasStats <==> xs != [])
  {
    if w == |marks| {
      assert marks[w..] == [];
    } else {
      var n := |marks| - 1;
      MarksClosedForm(marks[..n], w);
      SamplesMore(marks, n, w);
      if marks[n].Sampled? {
        Ewma.WeightedExtend(SamplesIn(marks[..n][w..]), Ewma.Sample(marks[n].nanos));
      } else {
        assert SamplesIn(marks[w..]) == SamplesIn(marks[..n][w..]);
      }
    }
  }

  /** A wipe is due exactly when the bit was last turned up after the last wipe. */
  lemma {:induction false} WipingIff(marks: seq<Mark>, f: nat, w: nat)
    requires JustAfter(marks, TurnedUp, f) && JustAfter(marks, Emptied, w)
    ensures MarkedAll(marks).wiping <==> w < f
  {
    if marks != [] {
      var n := |marks| - 1;
      if marks[n].Sampled? || marks[n].TurnedDown? {
        WipingIff(marks[..n], f, w);
      }
    }
  }

  /** In every run of the gateway the average is the weighted sum of exactly the latencies since the last wipe. */
  lemma {:induction false} AverageInRun(u: Setup, events: seq<Event>, ref: Ref, w: nat)
    requires JustAfter(MarksOf(u, events, ref), Emptied, w)
    ensures var l, xs := Look(Run(u, events).live, ref), SamplesIn(MarksOf(u, events, ref)[w..]);
            l.ewmaMs == Ewma.Weighted(xs) && (l.hasStats <==> xs != [])
  {
    AverageFollowsMarks(u, events, ref);
    MarksClosedForm(MarksOf(u, events, ref), w);
  }

  lemma {:induction false} SamplesSplit(marks: seq<Mark>, f: nat, w: nat)
    requires f <= w <= |marks|
    ensures var since, lost, averaged := SamplesIn(marks[f..]), SamplesIn(marks[f..w]), SamplesIn(marks[w..]);
            since == lost + averaged && (averaged == since <==> lost == [])
  {
    SamplesConcat(marks[f..w], marks[w..]);
    assert marks[f..] == marks[f..w] + marks[w..];
  }

  /**
   * Against the samples since the backend last came back up: once the wipe is done, those are the ones recorded between
   * turn and wipe, which are lost, and then the ones averaged.  So the average is of all samples since the turn if and
   * only if none was recorded in between.
   */
  lemma {:induction false} AverageSinceTurn(u: Setup, events: seq<Event>, ref: Ref, f: nat, w: nat)
    requires JustAfter(MarksOf(u, events, ref), TurnedUp, f) && JustAfter(MarksOf(u, events, ref), Emptied, w)
    ensures var l, marks := Look(Run(u, events).live, ref), MarksOf(u, events, ref);
            && (l.wiping <==> w < f)
            && (!l.wiping ==>
                  var since, lost, averaged := SamplesIn(marks[f..]), SamplesIn(marks[f..w]), SamplesIn(marks[w..]);
                  && since == lost + averaged && l.ewmaMs == Ewma.Weighted(averaged)
                  && (averaged == since <==> lost == []))
  {
    var marks := MarksOf(u, events, ref);
    AverageFollowsMarks(u, events, ref);
    WipingIff(marks, f, w);
    AverageInRun(u, events, ref, w);
    if f <= w {
      SamplesSplit(marks, f, w);
    }
  }
}
