/**
 * The replay defence inside the gateway: the nonce store, driven by request threads under any
 * interleaving with each other, with the clock and with the sweeper, is a run of module MemoryReplay,
 * and every request that got past it owns one acceptance in that run's lawful history.
 */
module GatewayReplay {
  import MemoryReplay
  import ReplayLaw
  import opened Clock
  import opened Common
  import opened Gateway
  import opened GatewaySafety
  import opened Routing
  import opened Verifiers

  // ---------------------------------------------------------------- the store's own run

  /** What an effect of thread t is to the replay system: at most one step. */
  function EffectSteps(t: nat, e: Effect): (steps: seq<MemoryReplay.Step>) {
    match e
    case PassCheck(c) => [MemoryReplay.Check(t, c.jti, c.iat, c.exp)]
    case StoreNonce => [MemoryReplay.Store(t)]
    case _ => []
  }

  function EventSteps(u: Setup, s: State, e: Event): (steps: seq<MemoryReplay.Step>) {
    match e
    case Act(t, c) =>
      if t !in s.threads then [] else EffectSteps(t, Step(s.threads[t], Observe(u, s, s.threads[t], c)).1)
    case Tick(d) => [MemoryReplay.Tick(d)]
    case SweepRead => [MemoryReplay.SweepRead]
    case SweepDelete => [MemoryReplay.SweepDelete]
    case _ => []
  }

  /** The steps of the replay system behind a run of the gateway. */
  function ReplaySteps(u: Setup, events: seq<Event>): (steps: seq<MemoryReplay.Step>) {
    if events == [] then [] else
    var n := |events| - 1;
    ReplaySteps(u, events[..n]) + EventSteps(u, Run(u, events[..n]), events[n])
  }

  lemma {:induction false} NextReplay(u: Setup, s: State, e: Event)
    ensures var steps := EventSteps(u, s, e);
            && |steps| <= 1
            && Next(u, s, e).replay == if steps == [] then s.replay else MemoryReplay.Next(s.replay, steps[0])
  {
  }

  /** Whatever else the gateway does, its nonce store goes through a run of the replay system. */
  lemma {:induction false} ReplayIsRun(u: Setup, events: seq<Event>)
    ensures Run(u, events).replay == MemoryReplay.Run(Init(u).replay, ReplaySteps(u, events))
  {
    if events != [] {
      var n := |events| - 1;
      ReplayIsRun(u, events[..n]);
      var s := Run(u, events[..n]);
      NextReplay(u, s, events[n]);
      var before, last := ReplaySteps(u, events[..n]), EventSteps(u, s, events[n]);
      if last == [] {
        assert before + last == before;
      } else {
        assert (before + last)[..|before|] == before && (before + last)[|before|] == last[0];
      }
    }
  }

  /** So its history is lawful, and a gateway started after year 1 is a started replay system. */
  lemma {:induction false} HistoryIsLawful(u: Setup, events: seq<Event>)
    requires ZERO_TIME < u.start
    ensures MemoryReplay.Init(Init(u).replay)
    ensures ReplayLaw.Lawful(Run(u, events).replay.log) && ReplayLaw.Synchronised(Run(u, events).replay.log)
  {
    ReplayIsRun(u, events);
    MemoryReplay.RunIsLawful(Init(u).replay, ReplaySteps(u, events));
  }

  // ---------------------------------------------------------------- who owns which acceptance

  /** The request's token passed every check before the store, at the instant the store remembers. */
  ghost predicate Passed(u: Setup, req: Request, v: Verified, p: MemoryReplay.Pending) {
    && p.jti == v.claims.jti && p.exp == Unix(v.claims.exp)
    && Authenticate(u.platform, u.cfg, Bearer(req.headers), p.checkedAt) == Ok(v)
  }

  /** This acceptance is of the request's token, which passed every other check on the accepting clock's reading. */
  ghost predicate Accepted(u: Setup, req: Request, v: Verified, a: ReplayLaw.Acceptance) {
    && a.jti == v.claims.jti && a.exp == Unix(v.claims.exp)
    && Authenticate(u.platform, u.cfg, Bearer(req.headers), a.checkedAt + a.offset) == Ok(v)
  }

  /** The thread owns an acceptance of its token in the store's history. */
  ghost predicate TokenAccepted(u: Setup, log: seq<ReplayLaw.Acceptance>, th: Thread) {
    && th.verified.Some? && th.entry.Some? && th.entry.value < |log|
    && Accepted(u, th.req, th.verified.value, log[th.entry.value])
  }

  ghost predicate Traced(u: Setup, r: MemoryReplay.State, t: nat, th: Thread) {
    && (th.pc.Storing? ==> t in r.pending && Passed(u, th.req, th.pc.passed, r.pending[t]))
    && (th.entry.Some? ==> TokenAccepted(u, r.log, th))
  }

  ghost predicate Owns(threads: map<nat, Thread>, t: nat, i: nat) {
    t in threads && threads[t].entry == Some(i)
  }

  ghost predicate HasOwner(threads: map<nat, Thread>, i: nat) {
    exists t :: Owns(threads, t, i)
  }

  /** Each acceptance has exactly one owner. */
  ghost predicate OneOwnerEach(threads: map<nat, Thread>, log: seq<ReplayLaw.Acceptance>) {
    && (forall i: nat | i < |log| :: HasOwner(threads, i))
    && (forall a, b, i: nat | Owns(threads, a, i) && Owns(threads, b, i) :: a == b)
  }

  ghost predicate ReplayInv(u: Setup, s: State) {
    && (forall t | t in s.threads :: Traced(u, s.replay, t, s.threads[t]))
    && OneOwnerEach(s.threads, s.replay.log)
  }

  /** A step of the replay system that is not thread t's leaves t's pending entry and the history so far alone. */
  lemma {:induction false} OthersTraced(u: Setup, r: MemoryReplay.State, step: MemoryReplay.Step, t: nat, th: Thread)
    requires Traced(u, r, t, th)
    requires (step.Check? || step.Store?) ==> step.thread != t
    ensures Traced(u, MemoryReplay.Next(r, step), t, th)
  {
    var r' := MemoryReplay.Next(r, step);
    assert r.log <= r'.log;
    assert t in r.pending ==> t in r'.pending && r'.pending[t] == r.pending[t];
  }

  /** What passing every check says about the time. */
  lemma {:induction false} AuthenticatedInWindow(u: Setup, token: string, now: int, v: Verified)
    requires Authenticate(u.platform, u.cfg, token, now) == Ok(v)
    ensures CheckTime(now, v.claims.iat, v.claims.exp) == InWindow && v.claims.jti != ""
  {
    AuthenticateIff(u.platform, u.cfg, token, now, v);
  }

  /** The thread that passes the checks is then pending with its own token. */
  lemma {:induction false} CheckTraced(u: Setup, r: MemoryReplay.State, t: nat, th: Thread, v: Verified)
    requires Authenticate(u.platform, u.cfg, Bearer(th.req.headers), r.clock) == Ok(v)
    requires th.entry.None? && th.pc == Storing(v)
    ensures Traced(u, MemoryReplay.Next(r, MemoryReplay.Check(t, v.claims.jti, v.claims.iat, v.claims.exp)), t, th)
  {
    AuthenticatedInWindow(u, Bearer(th.req.headers), r.clock, v);
  }

  /** The thread that stores its nonce first owns the acceptance just appended; a replay changes nothing. */
  lemma {:induction false} StoreTraced(u: Setup, r: MemoryReplay.State, t: nat, th: Thread, th': Thread)
    requires th.pc.Storing? && Traced(u, r, t, th) && th.entry.None? && th'.req == th.req && !th'.pc.Storing?
    requires if th.pc.passed.claims.jti !in r.items
             then th'.verified == Some(th.pc.passed) && th'.entry == Some(|r.log|)
             else th'.entry.None?
    ensures Traced(u, MemoryReplay.Next(r, MemoryReplay.Store(t)), t, th')
    ensures var log := MemoryReplay.Next(r, MemoryReplay.Store(t)).log;
            r.log <= log && |log| == |r.log| + if th'.entry.Some? then 1 else 0
  {
  }

  /** Ownership when one thread changes: it keeps its entry, or takes the one just appended. */
  lemma {:induction false} OwnershipAfter(threads: map<nat, Thread>, log: seq<ReplayLaw.Acceptance>, t: nat, th: Thread,
                                          log': seq<ReplayLaw.Acceptance>)
    requires OneOwnerEach(threads, log)
    requires forall x, i: nat | Owns(threads, x, i) :: i < |log|
    requires if t in threads && th.entry == threads[t].entry then |log'| == |log|
             else if th.entry.None? then t !in threads && |log'| == |log|
             else th.entry == Some(|log|) && |log'| == |log| + 1 && (t in threads ==> threads[t].entry.None?)
    ensures OneOwnerEach(threads[t := th], log')
  {
    var now := threads[t := th];
    forall i: nat | i < |log'|
      ensures HasOwner(now, i)
    {
      if th.entry == Some(i) {
        assert Owns(now, t, i);
      } else {
        assert HasOwner(threads, i);
        var x :| Owns(threads, x, i);
        assert Owns(now, x, i);
      }
    }
    forall a, b, i: nat | Owns(now, a, i) && Owns(now, b, i)
      ensures a == b
    {
      if a != t {
        assert Owns(threads, a, i);
      }
      if b != t {
        assert Owns(threads, b, i);
      }
      if t in threads && threads[t].entry == Some(i) {
        assert Owns(threads, t, i);
      }
    }
  }

  /** Steps outside the verifier leave a thread's place in the history alone. */
  lemma {:induction false} StepKeepsEntry(th: Thread, o: Seen)
    requires !th.pc.Verifying? && !th.pc.Storing?
    ensures var (th', e) := Step(th, o);
            && th'.req == th.req && th'.verified == th.verified && th'.entry == th.entry && !th'.pc.Storing?
            && !e.PassCheck? && !e.StoreNonce?
  {
  }

  /** The acting thread stays traced; it keeps its place in the history or takes the one just appended. */
  ghost predicate ActorMoves(u: Setup, r: MemoryReplay.State, r': MemoryReplay.State, t: nat, th: Thread, th': Thread) {
    && Traced(u, r', t, th')
    && (if th'.entry == th.entry then |r'.log| == |r.log|
        else th.entry.None? && th'.entry == Some(|r.log|) && |r'.log| == |r.log| + 1)
  }

  lemma {:induction false} VerifyingMoves(u: Setup, s: State, t: nat, c: Choice)
    requires t in s.threads && Traced(u, s.replay, t, s.threads[t]) && Provenance(u, s.threads[t])
    requires s.threads[t].pc.Verifying? && s.threads[t].route.Some?
    ensures var s' := Next(u, s, Act(t, c)); ActorMoves(u, s.replay, s'.replay, t, s.threads[t], s'.threads[t])
  {
    var th := s.threads[t];
    var o := Observe(u, s, th, c);
    if o.verdict.Ok? {
      CheckTraced(u, s.replay, t, Step(th, o).0, o.verdict.value);
    }
  }

  lemma {:induction false} StoringMoves(u: Setup, s: State, t: nat, c: Choice)
    requires t in s.threads && Traced(u, s.replay, t, s.threads[t]) && Provenance(u, s.threads[t])
    requires s.threads[t].pc.Storing? && s.threads[t].route.Some?
    ensures var s' := Next(u, s, Act(t, c)); ActorMoves(u, s.replay, s'.replay, t, s.threads[t], s'.threads[t])
  {
    var th := s.threads[t];
    StoreTraced(u, s.replay, t, th, Step(th, Observe(u, s, th, c)).0);
  }

  lemma {:induction false} EffectKeepsReplay(s: State, t: nat, e: Effect)
    requires !e.PassCheck? && !e.StoreNonce?
    ensures Apply(s, t, e).replay == s.replay
  {
  }

  lemma {:induction false} FrameMoves(u: Setup, r: MemoryReplay.State, t: nat, th: Thread, th': Thread)
    requires Traced(u, r, t, th)
    requires th'.req == th.req && th'.verified == th.verified && th'.entry == th.entry && !th'.pc.Storing?
    ensures ActorMoves(u, r, r, t, th, th')
  {
  }

  lemma {:induction false} OtherwiseMoves(u: Setup, s: State, t: nat, c: Choice)
    requires t in s.threads && Traced(u, s.replay, t, s.threads[t])
    requires !s.threads[t].pc.Verifying? && !s.threads[t].pc.Storing?
    ensures var s' := Next(u, s, Act(t, c)); ActorMoves(u, s.replay, s'.replay, t, s.threads[t], s'.threads[t])
  {
    var th := s.threads[t];
    var o := Observe(u, s, th, c);
    var (th', e) := Step(th, o);
    StepKeepsEntry(th, o);
    EffectKeepsReplay(s, t, e);
    FrameMoves(u, s.replay, t, th, th');
  }

  lemma {:induction false} ActorTraced(u: Setup, s: State, t: nat, c: Choice)
    requires t in s.threads && Traced(u, s.replay, t, s.threads[t]) && Provenance(u, s.threads[t])
             && Bookkeeping(s.threads[t])
    ensures var s' := Next(u, s, Act(t, c)); ActorMoves(u, s.replay, s'.replay, t, s.threads[t], s'.threads[t])
  {
    if s.threads[t].pc.Verifying? {
      VerifyingMoves(u, s, t, c);
    } else if s.threads[t].pc.Storing? {
      StoringMoves(u, s, t, c);
    } else {
      OtherwiseMoves(u, s, t, c);
    }
  }

  /** An event leaves every other thread traced. */
  lemma {:induction false} NextTracesOthers(u: Setup, s: State, e: Event, t: nat)
    requires t in s.threads && Traced(u, s.replay, t, s.threads[t])
    requires e.Act? ==> e.thread != t
    ensures t in Next(u, s, e).threads && Next(u, s, e).threads[t] == s.threads[t]
    ensures Traced(u, Next(u, s, e).replay, t, s.threads[t])
  {
    NextReplay(u, s, e);
    var steps := EventSteps(u, s, e);
    if steps != [] {
      OthersTraced(u, s.replay, steps[0], t, s.threads[t]);
    }
  }

  lemma {:induction false} OwnersInRange(u: Setup, s: State)
    requires ReplayInv(u, s)
    ensures forall x, i: nat | Owns(s.threads, x, i) :: i < |s.replay.log|
  {
    forall x, i: nat | Owns(s.threads, x, i)
      ensures i < |s.replay.log|
    {
      assert Traced(u, s.replay, x, s.threads[x]);
    }
  }

  lemma {:induction false} ActKeepsReplayInv(u: Setup, s: State, t: nat, c: Choice)
    requires ReplayInv(u, s) && t in s.threads && Provenance(u, s.threads[t]) && Bookkeeping(s.threads[t])
    ensures ReplayInv(u, Next(u, s, Act(t, c)))
  {
    var s' := Next(u, s, Act(t, c));
    ActorTraced(u, s, t, c);
    forall x | x in s'.threads
      ensures Traced(u, s'.replay, x, s'.threads[x])
    {
      if x != t {
        NextTracesOthers(u, s, Act(t, c), x);
      }
    }
    OwnersInRange(u, s);
    OwnershipAfter(s.threads, s.replay.log, t, s'.threads[t], s'.replay.log);
  }

  lemma {:induction false} NextKeepsReplayInv(u: Setup, s: State, e: Event)
    requires ReplayInv(u, s) && (e.Act? ==> e.thread !in s.threads)
    ensures ReplayInv(u, Next(u, s, e))
  {
    var s' := Next(u, s, e);
    forall x | x in s'.threads
      ensures Traced(u, s'.replay, x, s'.threads[x])
    {
      if x in s.threads {
        NextTracesOthers(u, s, e, x);
      }
    }
    if e.Arrive? && e.thread !in s.threads {
      OwnersInRange(u, s);
      OwnershipAfter(s.threads, s.replay.log, e.thread, NewThread(e.req), s.replay.log);
    }
  }

  /**
   * In every run each verified request owns exactly one acceptance, of its own token, and no acceptance is without an
   * owner.
   */
  lemma {:induction false} RunKeepsReplayInv(u: Setup, events: seq<Event>)
    ensures ReplayInv(u, Run(u, events))
  {
    if events != [] {
      var n := |events| - 1;
      var s := Run(u, events[..n]);
      RunKeepsReplayInv(u, events[..n]);
      if events[n].Act? && events[n].thread in s.threads {
        ThreadBookkeeping(u, events[..n], events[n].thread);
        ThreadProvenance(u, events[..n], events[n].thread);
        ActKeepsReplayInv(u, s, events[n].thread, events[n].choice);
      } else {
        NextKeepsReplayInv(u, s, events[n]);
      }
    }
  }

  // ---------------------------------------------------------------- what that says about requests

  lemma {:induction false} EntriesDiffer(u: Setup, events: seq<Event>, a: nat, b: nat)
    requires a != b && a in Run(u, events).threads && b in Run(u, events).threads
    requires Run(u, events).threads[a].verified.Some? && Run(u, events).threads[b].verified.Some?
    ensures var s := Run(u, events);
            && TokenAccepted(u, s.replay.log, s.threads[a]) && TokenAccepted(u, s.replay.log, s.threads[b])
            && s.threads[a].entry != s.threads[b].entry
  {
    var s := Run(u, events);
    RunKeepsReplayInv(u, events);
    ThreadProvenance(u, events, a);
    ThreadProvenance(u, events, b);
    assert Traced(u, s.replay, a, s.threads[a]) && Traced(u, s.replay, b, s.threads[b]);
    assert Owns(s.threads, a, s.threads[a].entry.value) && Owns(s.threads, b, s.threads[b].entry.value);
  }

  /**
   * The later of two acceptances: stored strictly after the earlier one's expiry, and with a later expiry if checked
   * when stored.
   */
  ghost predicate Outlived(first: ReplayLaw.Acceptance, second: ReplayLaw.Acceptance) {
    && first.exp < second.storedAt
    && (second.checkedAt == second.storedAt ==> first.exp < second.exp)
  }

  /**
   * No replay gets through the gateway: in every interleaving of requests, clock and sweeper, of two
   * requests past the verifier with one jti, one was let in only after the other's token had expired.
   * So at most one of two requests with one token is let in by its expiry, and no two of them when
   * their checks and store steps share an instant.
   */
  lemma {:induction false} NoReplayThrough(u: Setup, events: seq<Event>, a: nat, b: nat)
    requires ZERO_TIME < u.start
    requires a != b && a in Run(u, events).threads && b in Run(u, events).threads
    requires var ths := Run(u, events).threads;
             && ths[a].verified.Some? && ths[b].verified.Some?
             && ths[a].verified.value.claims.jti == ths[b].verified.value.claims.jti
    ensures var s := Run(u, events); var log := s.replay.log;
            && TokenAccepted(u, log, s.threads[a]) && TokenAccepted(u, log, s.threads[b])
            && var x, y := log[s.threads[a].entry.value], log[s.threads[b].entry.value];
            && (Outlived(x, y) || Outlived(y, x))
            && (x.exp == y.exp ==> x.exp < x.storedAt || y.exp < y.storedAt)
            && (x.exp == y.exp ==> x.checkedAt < x.storedAt || y.checkedAt < y.storedAt)
  {
    EntriesDiffer(u, events, a, b);
    HistoryIsLawful(u, events);
    var s := Run(u, events);
    var i, j := s.threads[a].entry.value, s.threads[b].entry.value;
    PairOutlived(s.replay.log, if i < j then i else j, if i < j then j else i);
  }

  lemma {:induction false} PairOutlived(log: seq<ReplayLaw.Acceptance>, i: nat, j: nat)
    requires ReplayLaw.Lawful(log) && ReplayLaw.Synchronised(log) && i < j < |log| && log[i].jti == log[j].jti
    ensures Outlived(log[i], log[j]) && log[j].checkedAt <= log[j].exp && log[j].checkedAt <= log[j].storedAt
  {
    assert log[j].TimelyChecked() && log[i].offset == 0 && log[j].offset == 0;
  }

  /**
   * Exactly when the store lets a request on: every earlier acceptance of its jti has been swept.  A first
   * presentation always gets through, and no presentation at or before an earlier acceptance's expiry does.
   */
  lemma {:induction false} LetOnIff(u: Setup, events: seq<Event>, t: nat, c: Choice)
    requires ZERO_TIME < u.start && t in Run(u, events).threads && Run(u, events).threads[t].pc.Storing?
    ensures var s := Run(u, events); var jti := s.threads[t].pc.passed.claims.jti; var log := s.replay.log;
            var on := Next(u, s, Act(t, c)).threads[t].verified.Some?;
            && (on <==> forall i | 0 <= i < |log| && log[i].jti == jti :: MemoryReplay.SweptAway(s.replay, i))
            && ((forall i | 0 <= i < |log| :: log[i].jti != jti) ==> on)
            && (on ==> forall i | 0 <= i < |log| && log[i].jti == jti :: log[i].exp < s.replay.clock)
  {
    var s := Run(u, events);
    HistoryIsLawful(u, events);
    ReplayIsRun(u, events);
    RunKeepsReplayInv(u, events);
    ThreadBookkeeping(u, events, t);
    ThreadProvenance(u, events, t);
    assert Traced(u, s.replay, t, s.threads[t]);
    MemoryReplay.AcceptsIffAllSwept(Init(u).replay, ReplaySteps(u, events), t);
    assert ReplayLaw.MayAccept(s.replay.log, s.threads[t].pc.passed.claims.jti, s.replay.clock)
           ==> forall i | 0 <= i < |s.replay.log| && s.replay.log[i].jti == s.threads[t].pc.passed.claims.jti ::
                 s.replay.log[i].Until() < s.replay.clock;
  }

  /**
   * Every request, in every run: at most one status and one RequestsTotal increment, exactly one
   * of each once it is finished; at most two forwards, to different backends, none started after a
   * status was written; and nothing forwarded without the first matching route, an accepted token,
   * the route's scope, a backend read as healthy by that Pick, and proper headers.
   */
  lemma {:induction false} EveryRequest(u: Setup, events: seq<Event>, t: nat)
    requires t in Run(u, events).threads
    ensures var th := Run(u, events).threads[t];
            && |th.statuses| <= 1 && |th.counted| <= 1
            && (th.pc.Finished? ==>
                  && |th.statuses| == 1 && |th.counted| == 1 && Tells(th, th.counted[0])
                  && (th.counted[0].decision == Denied ==> RightStatus(th.counted[0].reason, th.statuses[0])))
            && |th.attempts| <= 2 && (|th.attempts| == 2 ==> th.attempts[0].id != th.attempts[1].id)
            && (th.pc.Acquiring? || th.pc.Forwarding? ==> th.statuses == [])
            && (th.attempts != [] ==>
                  && th.route == FirstMatch(u.routes, th.req.path) && Cleared(th)
                  && TokenAccepted(u, Run(u, events).replay.log, th) && GoodAttempts(th))
  {
    ThreadBookkeeping(u, events, t);
    ThreadProvenance(u, events, t);
    RunKeepsReplayInv(u, events);
    assert Traced(u, Run(u, events).replay, t, Run(u, events).threads[t]);
    forall reason: Reason {
      StatusIsRight(reason);
    }
  }
}
