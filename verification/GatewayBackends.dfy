/** The backends inside the gateway: their health, and which of them get traffic. */
module GatewayBackends {
  import Health
  import opened Common
  import opened Gateway
  import opened GatewaySafety
  import opened Pools

  /** The probe outcomes of one backend in a run. */
  function ProbesOf(events: seq<Event>, ref: Ref): (probes: seq<bool>) {
    if events == [] then [] else
    var rest := ProbesOf(events[..|events| - 1], ref);
    var last := events[|events| - 1];
    if last.Probe? && last.ref == ref then rest + [last.ok] else rest
  }

  /** Whatever the requests do, a backend's counters are those of its own probes. */
  lemma {:induction false} NodeFollowsProbes(u: Setup, events: seq<Event>, ref: Ref)
    ensures Look(Run(u, events).live, ref).node == Health.Run(ProbesOf(events, ref))
  {
    if events != [] {
      var n := |events| - 1;
      NodeFollowsProbes(u, events[..n], ref);
      var s := Run(u, events[..n]);
      if events[n].Act? && events[n].thread in s.threads {
        var th := s.threads[events[n].thread];
        EffectKeepsNodes(s, events[n].thread, Step(th, Observe(u, s, th, events[n].choice)).1, ref);
      } else if events[n].Probe? && events[n].ref == ref {
        var probes := ProbesOf(events, ref);
        assert probes[..|probes| - 1] == ProbesOf(events[..n], ref);
      }
    }
  }

  lemma {:induction false} EffectKeepsNodes(s: State, t: nat, e: Effect, ref: Ref)
    ensures Look(Apply(s, t, e).live, ref).node == Look(s.live, ref).node
  {
  }

  // ---------------------------------------------------------------- what a Pick read was so

  /** What a Pick reads of one backend of its pool. */
  datatype Fact = Up(id: string) | Scored(id: string, score: real)

  ghost predicate Holds(s: State, service: string, fact: Fact) {
    match fact
    case Up(id) => Look(s.live, Ref(service, id)).node.healthy
    case Scored(id, score) => ScoreOf(s.live, Ref(service, id)) == score
  }

  /** The thread is in the Pick for its forward number k, and the fact holds at this moment. */
  ghost predicate HoldsInPick(s: State, t: nat, k: int, service: string, fact: Fact) {
    && t in s.threads && (s.threads[t].pc.Picking? || s.threads[t].pc.Comparing?) && |s.threads[t].attempts| == k
    && Holds(s, service, fact)
  }

  /** At some moment of the run the thread was in that Pick and the fact held. */
  ghost predicate HeldInPick(u: Setup, events: seq<Event>, t: nat, k: int, service: string, fact: Fact) {
    exists m :: 0 <= m <= |events| && HoldsInPick(Run(u, events[..m]), t, k, service, fact)
  }

  ghost predicate UpHold(bits: seq<Read>, k: int, p: (int, Fact) -> bool) {
    forall id | Read(id, true) in bits :: p(k, Up(id))
  }

  ghost predicate DuelHolds(duel: Option<Duel>, k: int, p: (int, Fact) -> bool) {
    duel.Some? ==>
      p(k, Scored(duel.value.first, duel.value.firstScore)) && p(k, Scored(duel.value.second, duel.value.secondScore))
  }

  /** Everything the thread remembers of its Picks satisfies p, told the forward it was read for. */
  ghost predicate MemoryHolds(th: Thread, p: (int, Fact) -> bool) {
    && (th.pc.Picking? || th.pc.Comparing? ==> UpHold(th.pc.bits, |th.attempts|, p))
    && (th.pc.Comparing? && th.pc.i < |HealthyReads(th.pc.bits)| ==>
          p(|th.attempts|, Scored(HealthyReads(th.pc.bits)[th.pc.i], th.pc.score)))
    && (th.pc.Acquiring? ==> UpHold(th.pc.picked, |th.attempts|, p) && DuelHolds(th.pc.duel, |th.attempts|, p))
    && (forall k | 0 <= k < |th.attempts| :: UpHold(th.attempts[k].bits, k, p) && DuelHolds(th.attempts[k].duel, k, p))
  }

  /** What the thread reads at this step satisfies p. */
  ghost predicate ReadingHolds(th: Thread, o: Seen, p: (int, Fact) -> bool) {
    && (th.pc.Picking? && o.SeenBit? && o.read.healthy ==> p(|th.attempts|, Up(o.read.id)))
    && (th.pc.Picking? && o.SeenDraw? && |HealthyReads(th.pc.bits)| >= 2 && o.i < |HealthyReads(th.pc.bits)| ==>
          p(|th.attempts|, Scored(HealthyReads(th.pc.bits)[o.i], o.score)))
    && (th.pc.Comparing? && o.SeenScore? && th.pc.j < |HealthyReads(th.pc.bits)| ==>
          p(|th.attempts|, Scored(HealthyReads(th.pc.bits)[th.pc.j], o.score)))
  }

  lemma {:induction false} PickStepMemory(th: Thread, o: Seen, p: (int, Fact) -> bool)
    requires Bookkeeping(th) && MemoryHolds(th, p) && ReadingHolds(th, o, p)
    requires th.pc.Picking? || th.pc.Comparing?
    ensures MemoryHolds(Step(th, o).0, p)
  {
  }

  lemma {:induction false} OtherStepMemory(th: Thread, o: Seen, p: (int, Fact) -> bool)
    requires Bookkeeping(th) && MemoryHolds(th, p) && !th.pc.Picking? && !th.pc.Comparing?
    ensures MemoryHolds(Step(th, o).0, p)
  {
  }

  ghost function HeldIn(u: Setup, events: seq<Event>, t: nat, service: string): (int, Fact) -> bool {
    (k, fact) => HeldInPick(u, events, t, k, service, fact)
  }

  lemma {:induction false} HeldGrows(u: Setup, events: seq<Event>, n: nat, t: nat, k: int, service: string, fact: Fact)
    requires n <= |events| && HeldInPick(u, events[..n], t, k, service, fact)
    ensures HeldInPick(u, events, t, k, service, fact)
  {
    var m :| 0 <= m <= n && HoldsInPick(Run(u, events[..n][..m]), t, k, service, fact);
    assert events[..n][..m] == events[..m];
  }

  lemma {:induction false} MemoryGrows(th: Thread, p: (int, Fact) -> bool, q: (int, Fact) -> bool)
    requires MemoryHolds(th, p) && forall k, fact | p(k, fact) :: q(k, fact)
    ensures MemoryHolds(th, q)
  {
  }

  /** What holds now, while the thread is in its Pick, has held. */
  lemma {:induction false} HeldNow(u: Setup, events: seq<Event>, t: nat, service: string, fact: Fact)
    requires var s := Run(u, events);
             HoldsInPick(s, t, if t in s.threads then |s.threads[t].attempts| else 0, service, fact)
    ensures HeldIn(u, events, t, service)(|Run(u, events).threads[t].attempts|, fact)
  {
    assert events[..|events|] == events;
    assert HoldsInPick(Run(u, events[..|events|]), t, |Run(u, events).threads[t].attempts|, service, fact);
  }

  /** What one thread's step reads is so at the present moment. */
  lemma {:induction false} ReadingIsSo(u: Setup, events: seq<Event>, t: nat, c: Choice)
    requires t in Run(u, events).threads && Run(u, events).threads[t].route.Some?
    ensures var s := Run(u, events); var th := s.threads[t];
            ReadingHolds(th, Observe(u, s, th, c), HeldIn(u, events, t, th.route.value.service))
  {
    var s := Run(u, events);
    var th := s.threads[t];
    var o, service := Observe(u, s, th, c), th.route.value.service;
    if th.pc.Picking? && o.SeenBit? && o.read.healthy {
      HeldNow(u, events, t, service, Up(o.read.id));
    } else if th.pc.Picking? && o.SeenDraw? && |HealthyReads(th.pc.bits)| >= 2 {
      HeldNow(u, events, t, service, Scored(HealthyReads(th.pc.bits)[o.i], o.score));
    } else if th.pc.Comparing? && o.SeenScore? && th.pc.j < |HealthyReads(th.pc.bits)| {
      HeldNow(u, events, t, service, Scored(HealthyReads(th.pc.bits)[th.pc.j], o.score));
    }
  }

  lemma {:induction false} ActMemory(u: Setup, events: seq<Event>, t: nat, c: Choice)
    requires var s := Run(u, events);
             && t in s.threads && s.threads[t].route.Some? && Bookkeeping(s.threads[t])
             && MemoryHolds(s.threads[t], HeldIn(u, events, t, s.threads[t].route.value.service))
    ensures var s := Run(u, events); var th := s.threads[t];
            MemoryHolds(Step(th, Observe(u, s, th, c)).0, HeldIn(u, events, t, th.route.value.service))
  {
    var s := Run(u, events);
    var th := s.threads[t];
    var o, p := Observe(u, s, th, c), HeldIn(u, events, t, th.route.value.service);
    if th.pc.Picking? || th.pc.Comparing? {
      ReadingIsSo(u, events, t, c);
      PickStepMemory(th, o, p);
    } else {
      OtherStepMemory(th, o, p);
    }
  }

  /** The run bears out everything a thread remembers, named by the service of its route. */
  ghost predicate Witnessed(u: Setup, events: seq<Event>, t: nat) {
    var s := Run(u, events);
    t in s.threads && s.threads[t].route.Some? ==>
      MemoryHolds(s.threads[t], HeldIn(u, events, t, s.threads[t].route.value.service))
  }

  lemma {:induction false} StepKeepsRoute(th: Thread, o: Seen)
    requires Bookkeeping(th)
    ensures th.route.Some? ==> Step(th, o).0.route == th.route
    ensures var th' := Step(th, o).0;
            th.route.None? && th'.route.Some? ==>
              th'.attempts == [] && !th'.pc.Picking? && !th'.pc.Comparing? && !th'.pc.Acquiring?
  {
  }

  lemma {:induction false} WitnessedGrows(u: Setup, events: seq<Event>, n: nat, t: nat, th: Thread, service: string)
    requires n <= |events| && MemoryHolds(th, HeldIn(u, events[..n], t, service))
    ensures MemoryHolds(th, HeldIn(u, events, t, service))
  {
    var p, q := HeldIn(u, events[..n], t, service), HeldIn(u, events, t, service);
    forall k, fact | p(k, fact)
      ensures q(k, fact)
    {
      HeldGrows(u, events, n, t, k, service, fact);
    }
    MemoryGrows(th, p, q);
  }

  /** The thread's own step. */
  lemma {:induction false} ActWitnessed(u: Setup, events: seq<Event>, t: nat, n: nat)
    requires |events| == n + 1 && events[n].Act? && events[n].thread == t && t in Run(u, events[..n]).threads
    requires Witnessed(u, events[..n], t)
    ensures Witnessed(u, events, t)
  {
    var before, c := events[..n], events[n].choice;
    var s := Run(u, before);
    var th := s.threads[t];
    ThreadBookkeeping(u, before, t);
    StepKeepsRoute(th, Observe(u, s, th, c));
    if th.route.Some? {
      ActMemory(u, before, t, c);
      WitnessedGrows(u, events, n, t, Step(th, Observe(u, s, th, c)).0, th.route.value.service);
    }
  }

  lemma {:induction false} AllWitnessed(u: Setup, events: seq<Event>, t: nat)
    ensures Witnessed(u, events, t)
  {
    if events != [] {
      var n := |events| - 1;
      var s := Run(u, events[..n]);
      AllWitnessed(u, events[..n], t);
      if events[n].Act? && events[n].thread == t && t in s.threads {
        ActWitnessed(u, events, t, n);
      } else if t in s.threads && s.threads[t].route.Some? {
        WitnessedGrows(u, events, n, t, s.threads[t], s.threads[t].route.value.service);
      }
    }
  }

  /** Every forward, in every run, went to a backend that was up at some moment of the Pick that chose it. */
  lemma {:induction false} ForwardedToUp(u: Setup, events: seq<Event>, t: nat, k: nat)
    requires t in Run(u, events).threads && k < |Run(u, events).threads[t].attempts|
    ensures var th := Run(u, events).threads[t];
            th.route.Some? && HeldInPick(u, events, t, k, th.route.value.service, Up(th.attempts[k].id))
  {
    var th := Run(u, events).threads[t];
    AllWitnessed(u, events, t);
    ThreadProvenance(u, events, t);
    assert GoodAttempt(th.req, th.verified.value, th.attempts[k]);
    assert HeldIn(u, events, t, th.route.value.service)(k, Up(th.attempts[k].id));
  }

  /** The scores a draw compared were those of its candidates, each at some moment of that Pick. */
  ghost predicate ScoresWereSo(u: Setup, events: seq<Event>, t: nat, k: int, service: string, d: Duel) {
    && HeldInPick(u, events, t, k, service, Scored(d.first, d.firstScore))
    && HeldInPick(u, events, t, k, service, Scored(d.second, d.secondScore))
  }

  /**
   * Two choices, in every run: a forward whose Pick had found more than one backend up went to one of two different
   * ones drawn, whose score as read in that Pick was no higher than the other's as read in that Pick; a forward
   * whose Pick had found only one went to that one.
   */
  lemma {:induction false} ForwardedToLower(u: Setup, events: seq<Event>, t: nat, k: nat)
    requires t in Run(u, events).threads && k < |Run(u, events).threads[t].attempts|
    ensures var th := Run(u, events).threads[t]; var a := th.attempts[k]; var ids := HealthyReads(a.bits);
            && th.route.Some? && FairChoice(a.id, a.bits, a.duel) && (a.duel.None? <==> |ids| == 1)
            && (a.duel.Some? ==> ScoresWereSo(u, events, t, k, th.route.value.service, a.duel.value))
  {
    var th := Run(u, events).threads[t];
    var a := th.attempts[k];
    AllWitnessed(u, events, t);
    ThreadProvenance(u, events, t);
    assert GoodAttempt(th.req, th.verified.value, a);
    if a.duel.Some? {
      var p := HeldIn(u, events, t, th.route.value.service);
      assert DuelHolds(a.duel, k, p);
      var i, j :| DrawnFrom(HealthyReads(a.bits), i, j, a.duel.value);
    }
  }

  /** The candidate of a draw that was not chosen. */
  ghost function Other(d: Duel): string {
    if d.firstScore <= d.secondScore then d.second else d.first
  }

  /** The thread is in the Pick for its forward number k. */
  ghost predicate InPick(s: State, t: nat, k: int) {
    t in s.threads && (s.threads[t].pc.Picking? || s.threads[t].pc.Comparing?) && |s.threads[t].attempts| == k
  }

  lemma {:induction false} HeldAt(u: Setup, events: seq<Event>, t: nat, k: int, service: string, fact: Fact)
    returns (m: nat)
    requires HeldInPick(u, events, t, k, service, fact)
    ensures m <= |events| && InPick(Run(u, events[..m]), t, k) && Holds(Run(u, events[..m]), service, fact)
  {
    m :| 0 <= m <= |events| && HoldsInPick(Run(u, events[..m]), t, k, service, fact);
  }

  lemma {:induction false} LoadIsNatural(u: Setup, events: seq<Event>, ref: Ref)
    ensures var l := Look(Run(u, events).live, ref); 0 <= l.inflight && 0.0 <= l.ewmaMs
  {
    InflightConserved(u, events, ref);
    RunKeepsInv(u, events);
  }

  /**
   * The same on the loads themselves: at some moments of the Pick the backend chosen was no worse than the other
   * candidate, slower by no measure at the same in-flight count, and with no more in flight at the same average.
   */
  lemma {:induction false} ForwardedToFaster(u: Setup, events: seq<Event>, t: nat, k: nat) returns (m: nat, n: nat)
    requires t in Run(u, events).threads && k < |Run(u, events).threads[t].attempts|
    requires Run(u, events).threads[t].attempts[k].duel.Some? && Run(u, events).threads[t].route.Some?
    ensures m <= |events| && InPick(Run(u, events[..m]), t, k) && n <= |events| && InPick(Run(u, events[..n]), t, k)
    ensures var th := Run(u, events).threads[t]; var a, service := th.attempts[k], th.route.value.service;
            var chosen := Look(Run(u, events[..m]).live, Ref(service, a.id));
            var other := Look(Run(u, events[..n]).live, Ref(service, Other(a.duel.value)));
            NoWorse(chosen.ewmaMs, chosen.inflight, other.ewmaMs, other.inflight)
  {
    ForwardedToLower(u, events, t, k);
    var th := Run(u, events).threads[t];
    var a, service := th.attempts[k], th.route.value.service;
    var d := a.duel.value;
    var low, high := if d.firstScore <= d.secondScore then d.firstScore else d.secondScore,
                     if d.firstScore <= d.secondScore then d.secondScore else d.firstScore;
    m := HeldAt(u, events, t, k, service, Scored(a.id, low));
    n := HeldAt(u, events, t, k, service, Scored(Other(d), high));
    var chosen, other := Ref(service, a.id), Ref(service, Other(d));
    LoadIsNatural(u, events[..m], chosen);
    LoadIsNatural(u, events[..n], other);
    LowerScores(Look(Run(u, events[..m]).live, chosen), Look(Run(u, events[..n]).live, other), low, high);
  }

  lemma {:induction false} LowerScores(chosen: Live, other: Live, low: real, high: real)
    requires low <= high && Score(chosen.ewmaMs, chosen.inflight) == low && Score(other.ewmaMs, other.inflight) == high
    requires 0 <= chosen.inflight && 0 <= other.inflight && 0.0 <= chosen.ewmaMs && 0.0 <= other.ewmaMs
    ensures NoWorse(chosen.ewmaMs, chosen.inflight, other.ewmaMs, other.inflight)
  {
    LowerScoreNoWorse(chosen.ewmaMs, chosen.inflight, other.ewmaMs, other.inflight);
  }

  // ---------------------------------------------------------------- a retry answers a retryable failure

  /** The thread's first forward, to this backend, has failed in a way that may be retried. */
  ghost predicate FailedRetryably(s: State, t: nat, id: string) {
    && t in s.threads && s.threads[t].pc == Releasing(id, Failed(true))
    && |s.threads[t].attempts| == 1 && s.threads[t].attempts[0].id == id
  }

  /** The thread has a second forward behind it, or is looking for a backend to make it to. */
  ghost predicate Retrying(th: Thread) {
    || |th.attempts| == 2
    || (|th.attempts| == 1 && (th.pc.Picking? || th.pc.Comparing? || th.pc.Acquiring?))
  }

  lemma {:induction false} StepToRetry(th: Thread, o: Seen)
    requires Bookkeeping(th) && Retrying(Step(th, o).0)
    ensures Step(th, o).0.attempts != [] && th.attempts != [] && Step(th, o).0.attempts[0] == th.attempts[0]
    ensures Retrying(th) || (|th.attempts| == 1 && th.pc == Releasing(th.attempts[0].id, Failed(true)))
  {
  }

  /** An event that is not the thread's own leaves it alone, or brings it. */
  lemma {:induction false} OthersLeaveAlone(u: Setup, s: State, e: Event, t: nat)
    requires t in Next(u, s, e).threads && !(e.Act? && e.thread == t)
    ensures if t in s.threads then Next(u, s, e).threads[t] == s.threads[t]
            else Next(u, s, e).threads[t].attempts == []
  {
  }

  lemma {:induction false} ActToRetry(u: Setup, before: seq<Event>, t: nat, c: Choice)
    requires t in Run(u, before).threads && Retrying(Next(u, Run(u, before), Act(t, c)).threads[t])
    ensures var s := Run(u, before); var th, th' := s.threads[t], Next(u, s, Act(t, c)).threads[t];
            && th.attempts != [] && th'.attempts != [] && th'.attempts[0] == th.attempts[0]
            && (Retrying(th) || FailedRetryably(s, t, th.attempts[0].id))
  {
    var s := Run(u, before);
    ThreadBookkeeping(u, before, t);
    StepToRetry(s.threads[t], Observe(u, s, s.threads[t], c));
  }

  /** In every run a second forward, and the Pick for it, come after the first failed in a way that may be retried. */
  lemma {:induction false} RetriedAfterFailure(u: Setup, events: seq<Event>, t: nat) returns (m: nat)
    requires t in Run(u, events).threads && Retrying(Run(u, events).threads[t])
    ensures m <= |events| && Run(u, events).threads[t].attempts != []
    ensures FailedRetryably(Run(u, events[..m]), t, Run(u, events).threads[t].attempts[0].id)
  {
    var n := |events| - 1;
    var before := events[..n];
    if events[n].Act? && events[n].thread == t {
      ActToRetry(u, before, t, events[n].choice);
    } else {
      OthersLeaveAlone(u, Run(u, before), events[n], t);
    }
    if Retrying(Run(u, before).threads[t]) {
      m := RetriedAfterFailure(u, before, t);
      assert before[..m] == events[..m];
    } else {
      m := n;
    }
  }

  // ---------------------------------------------------------------- a dead backend gets no traffic

  /** A thread that has not seen `ref` up in its current Pick, nor forwarded to it since its first `base` forwards. */
  ghost predicate Avoids(th: Thread, base: nat, ref: Ref) {
    th.route.Some? && th.route.value.service == ref.service ==>
      && (th.pc.Picking? || th.pc.Comparing? ==> Read(ref.id, true) !in th.pc.bits)
      && (th.pc.Acquiring? ==> th.pc.id != ref.id)
      && (forall k | base <= k < |th.attempts| :: th.attempts[k].id != ref.id)
  }

  /** A bit of `ref` is seen down. */
  ghost predicate SeesDown(th: Thread, o: Seen, ref: Ref) {
    o.SeenBit? && th.route.Some? && th.route.value.service == ref.service ==> o.read != Read(ref.id, true)
  }

  lemma {:induction false} PickStepAvoids(th: Thread, o: Seen, base: nat, ref: Ref)
    requires Bookkeeping(th) && Avoids(th, base, ref) && SeesDown(th, o, ref) && (th.pc.Picking? || th.pc.Comparing?)
    ensures Avoids(Step(th, o).0, base, ref)
  {
    var ids := HealthyReads(th.pc.bits);
    assert forall k | 0 <= k < |ids| :: ids[k] in ids;
  }

  lemma {:induction false} StepAvoids(th: Thread, o: Seen, base: nat, ref: Ref)
    requires Bookkeeping(th) && Avoids(th, base, ref) && SeesDown(th, o, ref)
    ensures Avoids(Step(th, o).0, base, ref)
  {
    if th.pc.Picking? || th.pc.Comparing? {
      PickStepAvoids(th, o, base, ref);
    }
  }

  /** How many forwards a thread had made, none if it had not arrived. */
  function Forwards(s: State, t: nat): (n: nat) {
    if t in s.threads then |s.threads[t].attempts| else 0
  }

  /** No Pick of the thread is under way. */
  ghost predicate NotPicking(s: State, t: nat) {
    t in s.threads ==>
      && !s.threads[t].pc.Acquiring? && !s.threads[t].pc.Comparing?
      && (s.threads[t].pc.Picking? ==> s.threads[t].pc.bits == [])
  }

  lemma {:induction false} NextAvoids(u: Setup, s: State, e: Event, t: nat, base: nat, ref: Ref)
    requires t in s.threads && Bookkeeping(s.threads[t]) && Avoids(s.threads[t], base, ref)
    requires !Look(s.live, ref).node.healthy
    ensures t in Next(u, s, e).threads && Avoids(Next(u, s, e).threads[t], base, ref)
  {
    if e.Act? && e.thread == t {
      StepAvoids(s.threads[t], Observe(u, s, s.threads[t], e.choice), base, ref);
    }
  }

  /** All probes so far failed, at least three of them: the bit is down. */
  lemma {:induction false} DownAfterThree(u: Setup, events: seq<Event>, n: nat, ref: Ref)
    requires n <= |events| && |ProbesOf(events[..n], ref)| >= 3
    requires forall k | 0 <= k < |ProbesOf(events, ref)| :: !ProbesOf(events, ref)[k]
    ensures !Look(Run(u, events).live, ref).node.healthy
  {
    ProbesGrow(events, n, ref);
    NodeFollowsProbes(u, events, ref);
    Health.AlwaysFailingIsDown(ProbesOf(events, ref));
  }

  /** One more event, with the backend down before it. */
  lemma {:induction false} OneMoreAvoids(u: Setup, before: seq<Event>, e: Event, t: nat, base: nat, ref: Ref)
    requires !Look(Run(u, before).live, ref).node.healthy && t in Next(u, Run(u, before), e).threads
    requires t in Run(u, before).threads ==> Avoids(Run(u, before).threads[t], base, ref)
    ensures Avoids(Next(u, Run(u, before), e).threads[t], base, ref)
  {
    var s := Run(u, before);
    if t in s.threads {
      ThreadBookkeeping(u, before, t);
      NextAvoids(u, s, e, t, base, ref);
    } else {
      assert Next(u, s, e).threads[t].route.None?;
    }
  }

  /**
   * A backend all of whose probes fail gets no request from any Pick that starts after its third
   * probe, although it starts out healthy: any forward made after the first n events by a thread
   * that was not in the middle of a Pick then goes elsewhere.
   */
  lemma {:induction false} DeadBackendNeverPicked(u: Setup, events: seq<Event>, n: nat, ref: Ref, t: nat)
    requires n <= |events| && |ProbesOf(events[..n], ref)| >= 3
    requires forall k | 0 <= k < |ProbesOf(events, ref)| :: !ProbesOf(events, ref)[k]
    requires NotPicking(Run(u, events[..n]), t) && t in Run(u, events).threads
    ensures !Look(Run(u, events).live, ref).node.healthy
    ensures Avoids(Run(u, events).threads[t], Forwards(Run(u, events[..n]), t), ref)
  {
    DownAfterThree(u, events, n, ref);
    if n == |events| {
      assert events[..n] == events;
    } else {
      var m := |events| - 1;
      var before := events[..m];
      assert before[..n] == events[..n];
      ProbesGrow(events, m, ref);
      DownAfterThree(u, before, n, ref);
      if t in Run(u, before).threads {
        DeadBackendNeverPicked(u, before, n, ref, t);
      }
      OneMoreAvoids(u, before, events[m], t, Forwards(Run(u, events[..n]), t), ref);
    }
  }

  lemma {:induction false} ProbesGrow(events: seq<Event>, n: nat, ref: Ref)
    requires n <= |events|
    ensures ProbesOf(events[..n], ref) <= ProbesOf(events, ref)
  {
    if n == |events| {
      assert events[..n] == events;
    } else {
      assert events[..|events| - 1][..n] == events[..n];
      ProbesGrow(events[..|events| - 1], n, ref);
    }
  }
}
