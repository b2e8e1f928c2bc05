/** What every run of the gateway keeps. */
module GatewaySafety {
  import Ewma
  import opened Common
  import opened Gateway
  import opened Headers
  import opened Pools
  import opened Routing
  import opened Sums
  import opened TwoChoices
  import opened Verifiers

  // ---------------------------------------------------------------- one thread: its bookkeeping

  ghost predicate Uncounted(th: Thread) {
    th.counted == [] && th.authCounted == []
  }

  function RouteName(th: Thread): string {
    if th.route.None? then "none" else th.route.value.prefix
  }

  /**
   * The label tells what happened: allowed exactly on success, and a backend was tried exactly on success or an
   * upstream error.
   */
  ghost predicate Tells(th: Thread, l: Label) {
    && l.route == RouteName(th)
    && (l.decision == Allowed <==> l.reason == Success)
    && (th.attempts != [] <==> l.reason == Success || l.reason == UpstreamError)
    && (l.reason == Success ==> LastWasSent(th))
  }

  /** The last forward put its request on the wire. */
  ghost predicate LastWasSent(th: Thread) {
    th.attempts != [] && th.attempts[|th.attempts| - 1].headers.Some?
  }

  /** One label counted, which tells what happened, and its auth reason counted as well exactly when it has one. */
  ghost predicate Balanced(th: Thread) {
    && |th.counted| == 1 && Tells(th, th.counted[0])
    && th.authCounted == if th.counted[0].reason.IsAuth() then [th.counted[0].reason] else []
  }

  ghost predicate ForwardingTo(th: Thread, id: string) {
    th.route.Some? && 1 <= |th.attempts| <= 2 && th.attempts[|th.attempts| - 1].id == id && Uncounted(th)
  }

  /** What the thread has written and counted at each point. */
  ghost predicate Bookkeeping(th: Thread) {
    && |th.attempts| <= 2
    && (|th.attempts| == 2 ==> th.attempts[0].id != th.attempts[1].id)
    && match th.pc
       case Arrived => Uncounted(th) && th.statuses == [] && th.attempts == [] && th.route.None?
       case Verifying(_) => Uncounted(th) && th.statuses == [] && th.attempts == [] && th.route.Some?
       case Storing(_) => Uncounted(th) && th.statuses == [] && th.attempts == [] && th.route.Some?
       case Picking(_) => Uncounted(th) && th.statuses == [] && |th.attempts| <= 1 && th.route.Some?
       case Comparing(_, _, _, _) => Uncounted(th) && th.statuses == [] && |th.attempts| <= 1 && th.route.Some?
       case Acquiring(id, _, _) =>
         && Uncounted(th) && th.statuses == [] && |th.attempts| <= 1 && th.route.Some?
         && (th.attempts != [] ==> th.attempts[0].id != id)
       case Forwarding(id) => ForwardingTo(th, id) && th.statuses == [] && LastWasSent(th)
       case Replying(id, _) => ForwardingTo(th, id) && th.statuses == [] && LastWasSent(th)
       case Releasing(id, outcome) =>
         && ForwardingTo(th, id) && th.statuses == (if outcome.Served? then [outcome.code] else [])
         && (outcome.Served? ==> LastWasSent(th))
       case Counting(l, status, auth) =>
         && Uncounted(th) && |th.statuses| == (if status == 0 then 1 else 0) && Tells(th, l)
         && (auth <==> l.reason.IsAuth()) && status == StatusOf(l.reason)
       case CountingAuth(reason, status) =>
         && th.statuses == [] && th.authCounted == [] && reason.IsAuth() && status == StatusOf(reason)
         && th.counted == [Label(RouteName(th), Denied, reason)] && th.attempts == []
       case Erroring(status) =>
         && th.statuses == [] && Balanced(th) && th.counted[0].decision == Denied
         && status == StatusOf(th.counted[0].reason)
       case Finished =>
         && |th.statuses| == 1 && Balanced(th)
         && (th.counted[0].decision == Denied ==> th.statuses[0] == StatusOf(th.counted[0].reason))
  }

  /** A refusal seen from the verifier is always an auth reason. */
  ghost predicate FairRefusal(o: Seen) {
    o.SeenToken? && o.verdict.Err? ==> o.verdict.error.IsAuth()
  }

  lemma {:induction false} VerifierKeepsBookkeeping(th: Thread, o: Seen)
    requires Bookkeeping(th) && FairRefusal(o) && th.route.Some? && (th.pc.Verifying? || th.pc.Storing?)
    ensures Bookkeeping(StepRouted(th, th.route.value, o).0)
  {
  }

  lemma {:induction false} PickKeepsBookkeeping(th: Thread, o: Seen)
    requires Bookkeeping(th) && th.route.Some? && (th.pc.Picking? || th.pc.Comparing? || th.pc.Acquiring?)
    ensures Bookkeeping(StepRouted(th, th.route.value, o).0)
  {
  }

  lemma {:induction false} ForwardKeepsBookkeeping(th: Thread, o: Seen)
    requires Bookkeeping(th) && FairRefusal(o) && th.route.Some?
    requires th.pc.Forwarding? || th.pc.Replying? || th.pc.Releasing?
    ensures Bookkeeping(StepRouted(th, th.route.value, o).0)
  {
  }

  lemma {:induction false} CountingKeepsBookkeeping(th: Thread, o: Seen)
    requires Bookkeeping(th)
    requires th.pc.Arrived? || th.pc.Counting? || th.pc.CountingAuth? || th.pc.Erroring? || th.pc.Finished?
    ensures Bookkeeping(Step(th, o).0)
  {
  }

  lemma {:induction false} StepKeepsBookkeeping(th: Thread, o: Seen)
    requires Bookkeeping(th) && FairRefusal(o)
    ensures Bookkeeping(Step(th, o).0)
  {
    if th.pc.Verifying? || th.pc.Storing? {
      VerifierKeepsBookkeeping(th, o);
    } else if th.pc.Picking? || th.pc.Comparing? || th.pc.Acquiring? {
      PickKeepsBookkeeping(th, o);
    } else if th.pc.Forwarding? || th.pc.Replying? || th.pc.Releasing? {
      ForwardKeepsBookkeeping(th, o);
    } else {
      CountingKeepsBookkeeping(th, o);
    }
  }

  lemma {:induction false} ObservedFairly(u: Setup, s: State, th: Thread, c: Choice)
    ensures FairRefusal(Observe(u, s, th, c))
  {
    if th.pc.Verifying? {
      VerdictReasons(u.platform, u.cfg, map[], th.pc.token, s.replay.clock);
    }
  }

  // ---------------------------------------------------------------- counting threads

  /** The thread is inside a forward to this backend: between its Acquire and its Release. */
  ghost predicate Active(th: Thread, ref: Ref) {
    && th.route.Some? && th.route.value.service == ref.service
    && (th.pc.Forwarding? || th.pc.Replying? || th.pc.Releasing?) && th.pc.active == ref.id
  }

  ghost function Those(threads: map<nat, Thread>, p: Thread -> bool): set<nat> {
    set t | t in threads && p(threads[t])
  }

  ghost function Tally(threads: map<nat, Thread>, p: Thread -> bool): int {
    |Those(threads, p)|
  }

  lemma {:induction false} SizeWithout(a: set<nat>, t: nat)
    ensures |a| == |a - {t}| + One(t in a)
  {
    if t in a {
      assert a == (a - {t}) + {t};
    } else {
      assert a == a - {t};
    }
  }

  lemma {:induction false} OthersStay(threads: map<nat, Thread>, t: nat, th: Thread, p: Thread -> bool, x: nat)
    ensures x != t ==> (x in Those(threads[t := th], p) <==> x in Those(threads, p))
    ensures t in Those(threads[t := th], p) <==> p(th)
  {
  }

  lemma {:induction false} TallyUpdate(threads: map<nat, Thread>, t: nat, th: Thread, p: Thread -> bool)
    ensures Tally(threads[t := th], p) == Tally(threads, p) - One(t in threads && p(threads[t])) + One(p(th))
  {
    var was, now := Those(threads, p), Those(threads[t := th], p);
    forall x: nat
      ensures x in was - {t} <==> x in now - {t}
    {
      OthersStay(threads, t, th, p, x);
    }
    assert was - {t} == now - {t};
    SizeWithout(was, t);
    SizeWithout(now, t);
  }

  ghost function ActiveOn(threads: map<nat, Thread>, ref: Ref): int {
    Tally(threads, (th: Thread) => Active(th, ref))
  }

  ghost function CountedAs(threads: map<nat, Thread>, l: Label): int {
    Tally(threads, (th: Thread) => l in th.counted)
  }

  ghost function AuthCountedAs(threads: map<nat, Thread>, reason: Reason): int {
    Tally(threads, (th: Thread) => reason in th.authCounted)
  }

  lemma {:induction false} RoutedActive(th: Thread, o: Seen, ref: Ref)
    requires Bookkeeping(th) && th.route.Some?
    requires th.pc.Verifying? || th.pc.Storing? || th.pc.Picking? || th.pc.Comparing? || th.pc.Acquiring?
    ensures var (th', e) := StepRouted(th, th.route.value, o);
            One(Active(th', ref)) == One(Active(th, ref)) + One(e == Acquire(ref)) - One(e == Release(ref))
  {
  }

  lemma {:induction false} ForwardActive(th: Thread, o: Seen, ref: Ref)
    requires Bookkeeping(th) && th.route.Some?
    requires th.pc.Forwarding? || th.pc.Replying? || th.pc.Releasing?
    ensures var (th', e) := StepRouted(th, th.route.value, o);
            One(Active(th', ref)) == One(Active(th, ref)) + One(e == Acquire(ref)) - One(e == Release(ref))
  {
  }

  lemma {:induction false} StepActive(th: Thread, o: Seen, ref: Ref)
    requires Bookkeeping(th)
    ensures var (th', e) := Step(th, o);
            One(Active(th', ref)) == One(Active(th, ref)) + One(e == Acquire(ref)) - One(e == Release(ref))
  {
    if th.pc.Verifying? || th.pc.Storing? || th.pc.Picking? || th.pc.Comparing? || th.pc.Acquiring? {
      RoutedActive(th, o, ref);
    } else if th.pc.Forwarding? || th.pc.Replying? || th.pc.Releasing? {
      ForwardActive(th, o, ref);
    }
  }

  lemma {:induction false} StepCounted(th: Thread, o: Seen, l: Label)
    requires Bookkeeping(th)
    ensures var (th', e) := Step(th, o); One(l in th'.counted) == One(l in th.counted) + One(e == CountRequest(l))
  {
  }

  lemma {:induction false} StepAuthCounted(th: Thread, o: Seen, r: Reason)
    requires Bookkeeping(th)
    ensures var (th', e) := Step(th, o); One(r in th'.authCounted) == One(r in th.authCounted) + One(e == CountAuth(r))
  {
  }

  /** An effect is exactly the change in what the thread contributes to each count. */
  ghost predicate EffectIsChange(th: Thread, th': Thread, e: Effect) {
    && (forall ref :: One(Active(th', ref)) == One(Active(th, ref)) + One(e == Acquire(ref)) - One(e == Release(ref)))
    && (forall l :: One(l in th'.counted) == One(l in th.counted) + One(e == CountRequest(l)))
    && (forall r :: One(r in th'.authCounted) == One(r in th.authCounted) + One(e == CountAuth(r)))
  }

  lemma {:induction false} StepEffects(th: Thread, o: Seen)
    requires Bookkeeping(th)
    ensures EffectIsChange(th, Step(th, o).0, Step(th, o).1)
  {
    forall ref: Ref {
      StepActive(th, o, ref);
    }
    forall l: Label {
      StepCounted(th, o, l);
    }
    forall r: Reason {
      StepAuthCounted(th, o, r);
    }
  }

  // ---------------------------------------------------------------- the whole gateway

  ghost predicate Inv(s: State) {
    && (forall t | t in s.threads :: Bookkeeping(s.threads[t]))
    && (forall ref :: Look(s.live, ref).inflight == ActiveOn(s.threads, ref) && 0.0 <= Look(s.live, ref).ewmaMs)
    && (forall l :: Count(s.requests, l) == CountedAs(s.threads, l))
    && (forall r :: Count(s.authFailures, r) == AuthCountedAs(s.threads, r))
  }

  lemma {:induction false} TalliesAfter(threads: map<nat, Thread>, t: nat, th: Thread)
    ensures forall ref :: ActiveOn(threads[t := th], ref)
              == ActiveOn(threads, ref) - One(t in threads && Active(threads[t], ref)) + One(Active(th, ref))
    ensures forall l :: CountedAs(threads[t := th], l)
              == CountedAs(threads, l) - One(t in threads && l in threads[t].counted) + One(l in th.counted)
    ensures forall r :: AuthCountedAs(threads[t := th], r)
              == AuthCountedAs(threads, r) - One(t in threads && r in threads[t].authCounted) + One(r in th.authCounted)
  {
    forall ref
      ensures ActiveOn(threads[t := th], ref)
              == ActiveOn(threads, ref) - One(t in threads && Active(threads[t], ref)) + One(Active(th, ref))
    {
      TallyUpdate(threads, t, th, (x: Thread) => Active(x, ref));
    }
    forall l: Label
      ensures CountedAs(threads[t := th], l)
              == CountedAs(threads, l) - One(t in threads && l in threads[t].counted) + One(l in th.counted)
    {
      TallyUpdate(threads, t, th, (x: Thread) => l in x.counted);
    }
    forall r: Reason
      ensures AuthCountedAs(threads[t := th], r)
              == AuthCountedAs(threads, r) - One(t in threads && r in threads[t].authCounted) + One(r in th.authCounted)
    {
      TallyUpdate(threads, t, th, (x: Thread) => r in x.authCounted);
    }
  }

  /** Averages of non-negative samples stay non-negative. */
  lemma {:induction false} AverageStaysNonNegative(l: Live, d: nat, ok: bool)
    requires 0.0 <= l.ewmaMs
    ensures 0.0 <= l.WithView(Ewma.Next(l.View(), Ewma.Record(d))).ewmaMs
    ensures 0.0 <= Probed(l, ok).ewmaMs && Probed(l, ok).inflight == l.inflight
    ensures 0.0 <= Wiped(l).ewmaMs && Wiped(l).inflight == l.inflight
  {
  }

  /** Each effect moves one count by one. */
  lemma {:induction false} EffectCounts(s: State, t: nat, e: Effect)
    requires forall ref :: 0.0 <= Look(s.live, ref).ewmaMs
    ensures var s1 := Apply(s, t, e);
            && (forall ref :: Look(s1.live, ref).inflight
                              == Look(s.live, ref).inflight + One(e == Acquire(ref)) - One(e == Release(ref)))
            && (forall ref :: 0.0 <= Look(s1.live, ref).ewmaMs)
            && (forall l :: Count(s1.requests, l) == Count(s.requests, l) + One(e == CountRequest(l)))
            && (forall r :: Count(s1.authFailures, r) == Count(s.authFailures, r) + One(e == CountAuth(r)))
  {
    if e.Latency? {
      AverageStaysNonNegative(Look(s.live, e.ref), e.nanos, true);
    }
  }

  lemma {:induction false} ActKeepsInv(u: Setup, s: State, t: nat, c: Choice)
    requires Inv(s) && t in s.threads
    ensures Inv(Next(u, s, Act(t, c)))
  {
    var th := s.threads[t];
    var o := Observe(u, s, th, c);
    ObservedFairly(u, s, th, c);
    StepKeepsBookkeeping(th, o);
    var (th', e) := Step(th, o);
    StepEffects(th, o);
    CountsCombine(s, t, th', e);
  }

  lemma {:induction false} InflightCombines(s: State, t: nat, th: Thread, e: Effect, ref: Ref)
    requires Inv(s) && t in s.threads && EffectIsChange(s.threads[t], th, e)
    ensures var s' := Apply(s, t, e);
            Look(s'.live, ref).inflight == ActiveOn(s.threads[t := th], ref) && 0.0 <= Look(s'.live, ref).ewmaMs
  {
    EffectCounts(s, t, e);
    TallyUpdate(s.threads, t, th, (x: Thread) => Active(x, ref));
  }

  lemma {:induction false} RequestsCombine(s: State, t: nat, th: Thread, e: Effect, l: Label)
    requires Inv(s) && t in s.threads && EffectIsChange(s.threads[t], th, e)
    ensures Count(Apply(s, t, e).requests, l) == CountedAs(s.threads[t := th], l)
  {
    EffectCounts(s, t, e);
    TallyUpdate(s.threads, t, th, (x: Thread) => l in x.counted);
  }

  lemma {:induction false} AuthFailuresCombine(s: State, t: nat, th: Thread, e: Effect, r: Reason)
    requires Inv(s) && t in s.threads && EffectIsChange(s.threads[t], th, e)
    ensures Count(Apply(s, t, e).authFailures, r) == AuthCountedAs(s.threads[t := th], r)
  {
    EffectCounts(s, t, e);
    TallyUpdate(s.threads, t, th, (x: Thread) => r in x.authCounted);
  }

  lemma {:induction false} CountsCombine(s: State, t: nat, th: Thread, e: Effect)
    requires Inv(s) && t in s.threads && Bookkeeping(th) && EffectIsChange(s.threads[t], th, e)
    ensures Inv(Apply(s, t, e).(threads := s.threads[t := th]))
  {
    forall ref: Ref {
      InflightCombines(s, t, th, e, ref);
    }
    forall l: Label {
      RequestsCombine(s, t, th, e, l);
    }
    forall r: Reason {
      AuthFailuresCombine(s, t, th, e, r);
    }
  }

  lemma {:induction false} LiveKeepsInv(s: State, ref: Ref, l: Live)
    requires Inv(s) && l.inflight == Look(s.live, ref).inflight && 0.0 <= l.ewmaMs
    ensures Inv(s.(live := s.live[ref := l]))
  {
  }

  lemma {:induction false} NextKeepsInv(u: Setup, s: State, e: Event)
    requires Inv(s)
    ensures Inv(Next(u, s, e))
  {
    match e
    case Arrive(t, req) =>
      if t !in s.threads {
        TalliesAfter(s.threads, t, NewThread(req));
      }
    case Act(t, c) =>
      if t in s.threads {
        ActKeepsInv(u, s, t, c);
      }
    case Wipe(ref) =>
      AverageStaysNonNegative(Look(s.live, ref), 0, true);
      LiveKeepsInv(s, ref, Wiped(Look(s.live, ref)));
    case Probe(ref, ok) =>
      AverageStaysNonNegative(Look(s.live, ref), 0, ok);
      LiveKeepsInv(s, ref, Probed(Look(s.live, ref), ok));
    case _ =>
  }

  lemma {:induction false} RunKeepsInv(u: Setup, events: seq<Event>)
    ensures Inv(Run(u, events))
  {
    if events != [] {
      RunKeepsInv(u, events[..|events| - 1]);
      NextKeepsInv(u, Run(u, events[..|events| - 1]), events[|events| - 1]);
    }
  }

  // ---------------------------------------------------------------- where a forwarded request comes from

  /** An accepted token carries the scope of the matched route. */
  ghost predicate Cleared(th: Thread) {
    && th.route.Some? && th.verified.Some?
    && InScope(th.verified.value.claims, th.route.value.requiredScope)
  }

  /**
   * A Pick's choice among the backends it had read as healthy: the only one, or of two different ones drawn the one
   * with the lower score as read, the first on a tie.
   */
  ghost predicate FairChoice(id: string, bits: seq<Read>, duel: Option<Duel>) {
    var ids := HealthyReads(bits);
    if duel.None? then ids == [id]
    else
      && id == (if duel.value.firstScore <= duel.value.secondScore then duel.value.first else duel.value.second)
      && exists i, j :: DrawnFrom(ids, i, j, duel.value)
  }

  /** The candidates stand at two different places. */
  ghost predicate DrawnFrom(ids: seq<string>, i: int, j: int, d: Duel) {
    0 <= i < |ids| && 0 <= j < |ids| && i != j && d.first == ids[i] && d.second == ids[j]
  }

  lemma {:induction false} FairChoiceIsHealthy(id: string, bits: seq<Read>, duel: Option<Duel>)
    requires FairChoice(id, bits, duel)
    ensures Read(id, true) in bits
  {
    var ids := HealthyReads(bits);
    if duel.None? {
      assert ids[0] in ids;
    } else {
      var i, j :| DrawnFrom(ids, i, j, duel.value);
      assert ids[i] in ids && ids[j] in ids;
    }
  }

  /** The forward went to a backend its Pick had read as healthy and fairly chosen, with proper headers. */
  ghost predicate GoodAttempt(req: Request, v: Verified, a: Attempt) {
    && Read(a.id, true) in a.bits && FairChoice(a.id, a.bits, a.duel)
    && (a.headers.Some? ==> ProperlyForwarded(req.headers, v.subject, req.rid, a.headers.value))
  }

  ghost predicate GoodAttempts(th: Thread) {
    th.verified.Some? && forall k | 0 <= k < |th.attempts| :: GoodAttempt(th.req, th.verified.value, th.attempts[k])
  }

  /** Two different places among the healthy reads. */
  ghost predicate IsDraw(bits: seq<Read>, i: nat, j: nat) {
    i < |HealthyReads(bits)| && j < |HealthyReads(bits)| && i != j
  }

  ghost predicate Provenance(u: Setup, th: Thread) {
    && (th.route.Some? ==> th.route == FirstMatch(u.routes, th.req.path))
    && (th.pc.Verifying? ==> th.pc.token == Bearer(th.req.headers) && th.verified.None?)
    && (th.pc.Arrived? || th.pc.Storing? ==> th.verified.None?)
    && (th.verified.Some? <==> th.entry.Some?)
    && (th.attempts != [] || th.pc.Picking? || th.pc.Comparing? || th.pc.Acquiring? ==> Cleared(th))
    && (th.pc.Comparing? ==> IsDraw(th.pc.bits, th.pc.i, th.pc.j))
    && (th.pc.Acquiring? ==> FairChoice(th.pc.id, th.pc.picked, th.pc.duel))
    && (th.attempts != [] ==> GoodAttempts(th))
  }

  /** Observations of one kind tell the truth about the request. */
  ghost predicate Truthful(u: Setup, th: Thread, o: Seen) {
    && (o.SeenRequest? ==> o.route == FirstMatch(u.routes, th.req.path) && o.token == Bearer(th.req.headers))
    && (o.SeenDraw? && th.pc.Picking? && |HealthyReads(th.pc.bits)| >= 2 ==> IsDraw(th.pc.bits, o.i, o.j))
    && (o.SeenTarget? && o.sent.Some? ==>
          th.verified.Some? && ProperlyForwarded(th.req.headers, th.verified.value.subject, th.req.rid, o.sent.value))
  }

  lemma {:induction false} DrawIsDraw(live: map<Ref, Live>, service: string, bits: seq<Read>, c: Choice)
    requires |HealthyReads(bits)| >= 2
    ensures var o := Draw(live, service, HealthyReads(bits), c); o.SeenDraw? && IsDraw(bits, o.i, o.j)
  {
    var n := |HealthyReads(bits)|;
    var i := c.first % n;
    assert 0 <= c.second % (n - 1) < n - 1;
    assert Skip(i, c.second % (n - 1)) < n;
  }

  lemma {:induction false} ObservedTruthfully(u: Setup, s: State, th: Thread, c: Choice)
    ensures Truthful(u, th, Observe(u, s, th, c))
  {
    if th.pc.Acquiring? && th.verified.Some? && Enumerates(c.order, th.req.headers.Keys) {
      ForwardedProperly(th.req.headers, c.order, th.verified.value.subject, th.req.rid);
    } else if th.pc.Picking? && |HealthyReads(th.pc.bits)| >= 2 {
      DrawIsDraw(s.live, if th.route.Some? then th.route.value.service else "", th.pc.bits, c);
    }
  }

  /** The steps that write none of route, identity, choice and attempts. */
  ghost predicate Outside(pc: Pc) {
    !(pc.Arrived? || pc.Verifying? || pc.Storing? || pc.Comparing? || pc.Acquiring?)
  }

  /** Route, identity and attempts are each written by one kind of step only. */
  lemma {:induction false} StepFrame(th: Thread, o: Seen)
    requires Bookkeeping(th) && Outside(th.pc) && !th.pc.Picking?
    ensures var th' := Step(th, o).0;
            && th'.req == th.req && th'.route == th.route && th'.verified == th.verified && th'.entry == th.entry
            && th'.attempts == th.attempts && Outside(th'.pc) && (th'.pc.Picking? ==> th.attempts != [])
  {
  }

  lemma {:induction false} StepKeepsProvenance(u: Setup, th: Thread, o: Seen)
    requires Provenance(u, th) && Bookkeeping(th) && Truthful(u, th, o)
    ensures Provenance(u, Step(th, o).0)
  {
    if th.pc.Arrived? {
      ArrivedKeepsProvenance(u, th, o);
    } else if th.pc.Verifying? || th.pc.Storing? {
      VerifyingKeepsProvenance(u, th, o);
    } else if th.pc.Picking? || th.pc.Comparing? {
      PickingKeepsProvenance(u, th, o);
    } else if th.pc.Acquiring? {
      AcquiringKeepsProvenance(u, th, o);
    } else {
      StepFrame(th, o);
      FrameKeepsProvenance(u, th, Step(th, o).0);
    }
  }

  lemma {:induction false} FrameKeepsProvenance(u: Setup, th: Thread, th': Thread)
    requires Provenance(u, th) && th'.req == th.req && th'.route == th.route && th'.verified == th.verified
    requires th'.entry == th.entry && th'.attempts == th.attempts
    requires Outside(th'.pc) && (th'.pc.Picking? ==> th.pc.Picking? || th.attempts != [])
    ensures Provenance(u, th')
  {
  }

  /** A choice made keeps everything else. */
  lemma {:induction false} ChoseKeepsProvenance(u: Setup, th: Thread, bits: seq<Read>, id: string, duel: Option<Duel>)
    requires Provenance(u, th) && (th.pc.Picking? || th.pc.Comparing?) && FairChoice(id, bits, duel)
    requires th.route.Some?
    ensures Provenance(u, Chose(th, bits, id, duel))
  {
  }

  lemma {:induction false} PickingKeepsProvenance(u: Setup, th: Thread, o: Seen)
    requires Provenance(u, th) && Bookkeeping(th) && Truthful(u, th, o) && (th.pc.Picking? || th.pc.Comparing?)
    ensures Provenance(u, Step(th, o).0)
  {
    var bits := th.pc.bits;
    var ids := HealthyReads(bits);
    if th.pc.Picking? && o.SeenDraw? && |ids| == 1 {
      assert ids == [ids[0]];
      ChoseKeepsProvenance(u, th, bits, ids[0], None);
    } else if th.pc.Comparing? && o.SeenScore? {
      var i, j, a, b := th.pc.i, th.pc.j, th.pc.score, o.score;
      var d := Duel(ids[i], ids[j], a, b);
      assert DrawnFrom(ids, i, j, d);
      ChoseKeepsProvenance(u, th, bits, if a <= b then ids[i] else ids[j], Some(d));
    }
  }

  lemma {:induction false} ArrivedKeepsProvenance(u: Setup, th: Thread, o: Seen)
    requires Provenance(u, th) && Bookkeeping(th) && Truthful(u, th, o) && th.pc.Arrived?
    ensures Provenance(u, Step(th, o).0)
  {
  }

  lemma {:induction false} VerifyingKeepsProvenance(u: Setup, th: Thread, o: Seen)
    requires Provenance(u, th) && Bookkeeping(th) && Truthful(u, th, o) && (th.pc.Verifying? || th.pc.Storing?)
    ensures Provenance(u, Step(th, o).0)
  {
  }

  lemma {:induction false} AppendAttempt(th: Thread, a: Attempt)
    requires th.verified.Some? && (th.attempts != [] ==> GoodAttempts(th)) && GoodAttempt(th.req, th.verified.value, a)
    ensures GoodAttempts(th.(attempts := th.attempts + [a]))
  {
  }

  lemma {:induction false} AcquiringKeepsProvenance(u: Setup, th: Thread, o: Seen)
    requires Provenance(u, th) && Bookkeeping(th) && Truthful(u, th, o) && th.pc.Acquiring?
    ensures Provenance(u, Step(th, o).0)
  {
    if o.SeenTarget? {
      var a := Attempt(th.pc.id, th.pc.picked, th.pc.duel, o.sent);
      FairChoiceIsHealthy(th.pc.id, th.pc.picked, th.pc.duel);
      assert GoodAttempt(th.req, th.verified.value, a);
      AppendAttempt(th, a);
    }
  }

  lemma {:induction false} RunKeepsProvenance(u: Setup, events: seq<Event>)
    ensures forall t | t in Run(u, events).threads :: Provenance(u, Run(u, events).threads[t])
  {
    if events != [] {
      var n := |events| - 1;
      var s := Run(u, events[..n]);
      RunKeepsProvenance(u, events[..n]);
      RunKeepsInv(u, events[..n]);
      if events[n].Act? && events[n].thread in s.threads {
        var th, c := s.threads[events[n].thread], events[n].choice;
        ObservedTruthfully(u, s, th, c);
        StepKeepsProvenance(u, th, Observe(u, s, th, c));
      }
    }
  }

  // ---------------------------------------------------------------- the theorems

  lemma {:induction false} ThreadBookkeeping(u: Setup, events: seq<Event>, t: nat)
    requires t in Run(u, events).threads
    ensures Bookkeeping(Run(u, events).threads[t])
  {
    RunKeepsInv(u, events);
  }

  lemma {:induction false} ThreadProvenance(u: Setup, events: seq<Event>, t: nat)
    requires t in Run(u, events).threads
    ensures Provenance(u, Run(u, events).threads[t])
  {
    RunKeepsProvenance(u, events);
  }

  /**
   * Conservation: in-flight counts are exactly the forwards under way, so never negative, zero when
   * every request has finished, and every score is positive in every reachable state.
   */
  lemma {:induction false} InflightConserved(u: Setup, events: seq<Event>, ref: Ref)
    ensures var s := Run(u, events); var l := Look(s.live, ref);
            && l.inflight == ActiveOn(s.threads, ref) >= 0
            && ((forall t | t in s.threads :: s.threads[t].pc.Finished?) ==> l.inflight == 0)
            && 0.0 < Score(l.ewmaMs, l.inflight)
  {
    RunKeepsInv(u, events);
    var s := Run(u, events);
    if forall t | t in s.threads :: s.threads[t].pc.Finished? {
      assert Those(s.threads, (th: Thread) => Active(th, ref)) == {};
    }
  }

  /** The sum over route labels of the requests denied for one reason. */
  function DeniedFor(requests: map<Label, int>, names: seq<string>, r: Reason): (n: int) {
    if names == [] then 0
    else DeniedFor(requests, names[..|names| - 1], r) + Count(requests, Label(names[|names| - 1], Denied, r))
  }

  ghost predicate DeniedUnder(th: Thread, names: seq<string>, r: Reason) {
    |th.counted| == 1 && th.counted[0].decision == Denied && th.counted[0].reason == r && th.counted[0].route in names
  }

  lemma {:induction false} TallySplit(threads: map<nat, Thread>, whole: Thread -> bool, p: Thread -> bool,
                                      q: Thread -> bool)
    requires forall t | t in threads :: One(whole(threads[t])) == One(p(threads[t])) + One(q(threads[t]))
    ensures Tally(threads, whole) == Tally(threads, p) + Tally(threads, q)
  {
    var a, b := Those(threads, p), Those(threads, q);
    forall t | t in threads
      ensures t in Those(threads, whole) <==> t in a || t in b
      ensures !(t in a && t in b)
    {
      assert One(whole(threads[t])) == One(p(threads[t])) + One(q(threads[t]));
    }
    assert a !! b && Those(threads, whole) == a + b;
  }

  lemma {:induction false} DeniedSplit(th: Thread, names: seq<string>, r: Reason)
    requires names != [] && |th.counted| <= 1 && names[|names| - 1] !in names[..|names| - 1]
    ensures One(DeniedUnder(th, names, r))
            == One(DeniedUnder(th, names[..|names| - 1], r)) + One(Label(names[|names| - 1], Denied, r) in th.counted)
  {
    var n := |names| - 1;
    assert forall x :: x in names <==> x in names[..n] || x == names[n];
  }

  lemma {:induction false} DeniedForIsTally(s: State, names: seq<string>, r: Reason)
    requires forall t | t in s.threads :: |s.threads[t].counted| <= 1
    requires forall l :: Count(s.requests, l) == CountedAs(s.threads, l)
    requires forall i, j | 0 <= i < j < |names| :: names[i] != names[j]
    ensures DeniedFor(s.requests, names, r) == Tally(s.threads, (th: Thread) => DeniedUnder(th, names, r))
  {
    if names == [] {
      assert Those(s.threads, (th: Thread) => DeniedUnder(th, names, r)) == {};
    } else {
      var n := |names| - 1;
      var l := Label(names[n], Denied, r);
      DeniedForIsTally(s, names[..n], r);
      var whole := (th: Thread) => DeniedUnder(th, names, r);
      var part := (th: Thread) => DeniedUnder(th, names[..n], r);
      var rest := (th: Thread) => l in th.counted;
      forall t | t in s.threads
        ensures One(whole(s.threads[t])) == One(part(s.threads[t])) + One(rest(s.threads[t]))
      {
        DeniedSplit(s.threads[t], names, r);
      }
      TallySplit(s.threads, whole, part, rest);
      assert CountedAs(s.threads, l) == Tally(s.threads, rest);
    }
  }

  /** The thread has counted its denial in RequestsTotal and is about to count it in AuthFailures. */
  ghost predicate BetweenCounters(th: Thread, r: Reason) {
    th.pc.CountingAuth? && th.pc.reason == r
  }

  lemma {:induction false} RouteNameListed(u: Setup, th: Thread, names: seq<string>)
    requires th.route.Some? ==> th.route == FirstMatch(u.routes, th.req.path)
    requires "none" in names && forall i | 0 <= i < |u.routes| :: u.routes[i].prefix in names
    ensures RouteName(th) in names
  {
    FirstMatchMeaning(u.routes, th.req.path);
  }

  lemma {:induction false} DeniedOrBetween(th: Thread, names: seq<string>, r: Reason)
    requires Bookkeeping(th) && RouteName(th) in names
    ensures r.IsAuth() ==> One(DeniedUnder(th, names, r)) == One(r in th.authCounted) + One(BetweenCounters(th, r))
    ensures !r.IsAuth() ==> r !in th.authCounted
  {
  }

  lemma {:induction false} AuthFailuresInState(u: Setup, s: State, names: seq<string>, r: Reason)
    requires Inv(s) && forall t | t in s.threads :: RouteName(s.threads[t]) in names
    requires forall i, j | 0 <= i < j < |names| :: names[i] != names[j]
    ensures r.IsAuth() ==> DeniedFor(s.requests, names, r)
                           == Count(s.authFailures, r) + Tally(s.threads, (th: Thread) => BetweenCounters(th, r))
    ensures !r.IsAuth() ==> Count(s.authFailures, r) == 0
  {
    var whole := (th: Thread) => DeniedUnder(th, names, r);
    var done := (th: Thread) => r in th.authCounted;
    var between := (th: Thread) => BetweenCounters(th, r);
    forall t | t in s.threads
      ensures |s.threads[t].counted| <= 1
      ensures r.IsAuth() ==> One(whole(s.threads[t])) == One(done(s.threads[t])) + One(between(s.threads[t]))
      ensures !r.IsAuth() ==> !done(s.threads[t])
    {
      assert Bookkeeping(s.threads[t]);
      DeniedOrBetween(s.threads[t], names, r);
    }
    assert AuthCountedAs(s.threads, r) == Tally(s.threads, done);
    if r.IsAuth() {
      DeniedForIsTally(s, names, r);
      TallySplit(s.threads, whole, done, between);
    } else {
      assert Those(s.threads, done) == {};
    }
  }

  /**
   * For each auth reason, RequestsTotal summed over the routes is AuthFailures plus the requests
   * that have moved the first counter and not yet the second; for the other reasons AuthFailures
   * stays zero.  `names` is any list of the route labels without repeats.
   */
  lemma {:induction false} AuthFailuresMatch(u: Setup, events: seq<Event>, names: seq<string>, r: Reason)
    requires forall i, j | 0 <= i < j < |names| :: names[i] != names[j]
    requires "none" in names && forall i | 0 <= i < |u.routes| :: u.routes[i].prefix in names
    ensures var s := Run(u, events);
            && (r.IsAuth() ==> DeniedFor(s.requests, names, r)
                               == Count(s.authFailures, r) + Tally(s.threads, (th: Thread) => BetweenCounters(th, r)))
            && (!r.IsAuth() ==> Count(s.authFailures, r) == 0)
  {
    var s := Run(u, events);
    RunKeepsInv(u, events);
    RunKeepsProvenance(u, events);
    forall t | t in s.threads
      ensures RouteName(s.threads[t]) in names
    {
      assert Provenance(u, s.threads[t]);
      RouteNameListed(u, s.threads[t], names);
    }
    AuthFailuresInState(u, s, names, r);
  }
}
