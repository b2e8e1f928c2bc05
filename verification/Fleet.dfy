/**
 * Any number of gateway replicas in front of one Redis. Each request is a thread of module Gateway at one replica,
 * which reads the time shifted by that replica's offset; the nonce store is the system of module RedisReplay.
 * Everything a thread sees apart from the time and the store, such as bits, scores and replies, may be anything at
 * all.
 */
module Fleet {
  import Gateway
  import RedisReplay
  import ReplayLaw
  import opened Clock
  import opened Common
  import opened GatewayReplay
  import opened RedisNonces
  import opened Routing
  import opened Verifiers

  type Thread = Gateway.Thread

  /** What stays fixed: the configuration all replicas share, their offsets, and the replica each request comes to. */
  datatype Plan = Plan(u: Gateway.Setup, offsets: RedisReplay.Offsets, replica: nat -> nat)
  {
    function Offset(t: nat): (d: int) {
      offsets(replica(t))
    }
  }

  datatype State = State(redis: RedisReplay.State, threads: map<nat, Thread>)

  datatype Event =
    | Tick(elapsed: nat)
    | Arrive(thread: nat, req: Gateway.Request)
    | Act(thread: nat, seen: Gateway.Seen)
    | ReadClock(thread: nat)
    | Store(thread: nat, delivery: Delivery)

  /** What a thread sees at a step: its request, the verdict of the checks on its replica's clock, or anything. */
  function Observe(p: Plan, s: State, t: nat, th: Thread, seen: Gateway.Seen): (o: Gateway.Seen) {
    match th.pc
    case Arrived => Gateway.SeenRequest(FirstMatch(p.u.routes, th.req.path), Bearer(th.req.headers))
    case Verifying(token) => Gateway.SeenToken(Authenticate(p.u.platform, p.u.cfg, token, s.redis.time + p.Offset(t)))
    case Storing(_) => Gateway.SeenNothing
    case _ => seen
  }

  /** The store's answer to an answered or failed command: only an answered one that found no key says new. */
  function Answer(s: State, t: nat, delivery: Delivery): (o: Gateway.Seen) {
    Gateway.SeenNonce(RedisReplay.FindsNew(s.redis, t) && delivery == Answered, |s.redis.log|)
  }

  /** At most one step of the Redis system goes with each event. */
  function StepsOf(p: Plan, s: State, e: Event): (steps: seq<RedisReplay.Step>) {
    match e
    case Tick(d) => [RedisReplay.Tick(d)]
    case Arrive(_, _) => []
    case Act(t, seen) =>
      if t !in s.threads then [] else
      var effect := Gateway.Step(s.threads[t], Observe(p, s, t, s.threads[t], seen)).1;
      if !effect.PassCheck? then [] else
      var c := effect.claims;
      [RedisReplay.Check(t, p.replica(t), c.jti, c.iat, c.exp)]
    case ReadClock(t) => if t in s.threads && s.threads[t].pc.Storing? then [RedisReplay.ComputeTtl(t)] else []
    case Store(t, delivery) => if Ready(s, t) then [RedisReplay.Send(t, delivery)] else []
  }

  /** The thread is at the store and has computed its time to live. */
  predicate Ready(s: State, t: nat) {
    t in s.threads && s.threads[t].pc.Storing? && t in s.redis.pending && s.redis.pending[t].Sending?
  }

  function RedisAfter(p: Plan, s: State, e: Event): (r: RedisReplay.State) {
    var steps := StepsOf(p, s, e);
    if steps == [] then s.redis else RedisReplay.Next(p.offsets, s.redis, steps[0])
  }

  function ThreadsAfter(p: Plan, s: State, e: Event): (threads: map<nat, Thread>) {
    match e
    case Arrive(t, req) => if t in s.threads then s.threads else s.threads[t := Gateway.NewThread(req)]
    case Act(t, seen) =>
      if t !in s.threads then s.threads
      else s.threads[t := Gateway.Step(s.threads[t], Observe(p, s, t, s.threads[t], seen)).0]
    case Store(t, delivery) =>
      if !Ready(s, t) then s.threads else s.threads[t := Gateway.Step(s.threads[t], Answer(s, t, delivery)).0]
    case _ => s.threads
  }

  function Next(p: Plan, s: State, e: Event): (s': State) {
    State(RedisAfter(p, s, e), ThreadsAfter(p, s, e))
  }

  const Init := State(RedisReplay.State(0, map[], map[], [], []), map[])

  function Run(p: Plan, events: seq<Event>): (s: State) {
    if events == [] then Init else Next(p, Run(p, events[..|events| - 1]), events[|events| - 1])
  }

  /** The Redis steps behind a run of the fleet. */
  function RedisSteps(p: Plan, events: seq<Event>): (steps: seq<RedisReplay.Step>) {
    if events == [] then [] else
    var n := |events| - 1;
    RedisSteps(p, events[..n]) + StepsOf(p, Run(p, events[..n]), events[n])
  }

  /** Whatever the replicas do, Redis goes through a run of its own system, so its history is lawful. */
  lemma {:induction false} RedisIsRun(p: Plan, events: seq<Event>)
    ensures Run(p, events).redis == RedisReplay.Run(p.offsets, Init.redis, RedisSteps(p, events))
  {
    if events != [] {
      var n := |events| - 1;
      RedisIsRun(p, events[..n]);
      var before, last := RedisSteps(p, events[..n]), StepsOf(p, Run(p, events[..n]), events[n]);
      if last == [] {
        assert before + last == before;
      } else {
        assert |last| == 1;
        assert (before + last)[..|before|] == before && (before + last)[|before|] == last[0];
      }
    }
  }

  // ---------------------------------------------------------------- who owns which acceptance

  /** The token passed every check before the store, on its replica's clock at the instant Redis remembers. */
  ghost predicate Passed(p: Plan, t: nat, req: Gateway.Request, v: Verified, x: RedisReplay.Pending) {
    && x.replica == p.replica(t) && x.jti == v.claims.jti && x.exp == Unix(v.claims.exp)
    && Authenticate(p.u.platform, p.u.cfg, Bearer(req.headers), x.checkedAt + p.Offset(t)) == Ok(v)
  }

  /** The thread owns an acceptance of its token, made on its own replica's clock. */
  ghost predicate AcceptedHere(p: Plan, log: seq<ReplayLaw.Acceptance>, t: nat, th: Thread) {
    TokenAccepted(p.u, log, th) && log[th.entry.value].offset == p.Offset(t)
  }

  ghost predicate Traced(p: Plan, r: RedisReplay.State, t: nat, th: Thread) {
    && (th.pc.Arrived? || th.pc.Verifying? || th.pc.Storing? ==> th.entry.None? && th.verified.None?)
    && (th.pc.Verifying? ==> th.route.Some? && th.pc.token == Bearer(th.req.headers))
    && (th.pc.Storing? ==> th.route.Some? && t in r.pending && Passed(p, t, th.req, th.pc.passed, r.pending[t]))
    && (th.verified.Some? <==> th.entry.Some?)
    && (th.entry.Some? ==> AcceptedHere(p, r.log, t, th))
  }

  ghost predicate Inv(p: Plan, s: State) {
    && (forall t | t in s.threads :: Traced(p, s.redis, t, s.threads[t]))
    && OneOwnerEach(s.threads, s.redis.log)
  }

  /** A step of Redis that is not thread t's leaves t's place and pending command alone. */
  lemma {:induction false} OthersTraced(p: Plan, r: RedisReplay.State, step: RedisReplay.Step, t: nat, th: Thread)
    requires Traced(p, r, t, th)
    requires step.Check? || step.ComputeTtl? || step.Send? ==> step.thread != t
    ensures Traced(p, RedisReplay.Next(p.offsets, r, step), t, th)
  {
    var r' := RedisReplay.Next(p.offsets, r, step);
    assert r.log <= r'.log;
    assert t in r.pending ==> t in r'.pending && r'.pending[t] == r.pending[t];
  }

  /** The thread stays traced; it keeps its place in the history or takes the one just appended. */
  ghost predicate Moves(p: Plan, r: RedisReplay.State, r': RedisReplay.State, t: nat, th: Thread, th': Thread) {
    && Traced(p, r', t, th')
    && (if th'.entry == th.entry then |r'.log| == |r.log|
        else th.entry.None? && th'.entry == Some(|r.log|) && |r'.log| == |r.log| + 1)
  }

  /** Past every check before the store. */
  lemma {:induction false} CheckMoves(p: Plan, r: RedisReplay.State, t: nat, th: Thread, v: Verified)
    requires Traced(p, r, t, th) && th.pc.Verifying?
    requires Authenticate(p.u.platform, p.u.cfg, Bearer(th.req.headers), r.time + p.Offset(t)) == Ok(v)
    ensures Moves(p, r, RedisChecked(p, r, t, Ok(v)), t, th, th.(pc := Gateway.Storing(v)))
  {
    AuthenticatedInWindow(p.u, Bearer(th.req.headers), r.time + p.Offset(t), v);
  }

  /** The computation of the time to live. */
  lemma {:induction false} TtlMoves(p: Plan, r: RedisReplay.State, t: nat, th: Thread)
    requires Traced(p, r, t, th)
    ensures Moves(p, r, RedisReplay.Next(p.offsets, r, RedisReplay.ComputeTtl(t)), t, th, th)
  {
  }

  /** The command: the acceptance just appended goes to the thread that is told it is new. */
  lemma {:induction false} SendMoves(p: Plan, r: RedisReplay.State, t: nat, th: Thread, delivery: Delivery, th': Thread)
    requires Traced(p, r, t, th) && th.pc.Storing? && r.pending[t].Sending?
    requires th'.req == th.req && !th'.pc.Storing? && !th'.pc.Verifying? && !th'.pc.Arrived?
    requires if RedisReplay.FindsNew(r, t) && delivery == Answered
             then th'.verified == Some(th.pc.passed) && th'.entry == Some(|r.log|)
             else th'.verified.None? && th'.entry.None?
    ensures Moves(p, r, RedisReplay.Next(p.offsets, r, RedisReplay.Send(t, delivery)), t, th, th')
  {
  }

  /** What the store's answer does to the thread. */
  lemma {:induction false} AnswerStep(th: Thread, isNew: bool, next: nat)
    requires th.pc.Storing? && th.route.Some? && th.verified.None? && th.entry.None?
    ensures var th' := Gateway.Step(th, Gateway.SeenNonce(isNew, next)).0;
            && th'.req == th.req && !th'.pc.Storing? && !th'.pc.Verifying? && !th'.pc.Arrived?
            && (if isNew then th'.verified == Some(th.pc.passed) && th'.entry == Some(next)
                else th'.verified.None? && th'.entry.None?)
  {
  }

  /** Steps outside the verifier keep a thread's place in the history, and do not lead back into it. */
  lemma {:induction false} OutsideStep(th: Thread, o: Gateway.Seen)
    requires !th.pc.Arrived? && !th.pc.Verifying? && !th.pc.Storing?
    ensures var (th', e) := Gateway.Step(th, o);
            && th'.req == th.req && th'.verified == th.verified && th'.entry == th.entry && !e.PassCheck?
            && !th'.pc.Arrived? && !th'.pc.Verifying? && !th'.pc.Storing?
  {
  }

  /** The steps into the verifier: the route and the token, then the checks. */
  lemma {:induction false} ArrivalStep(p: Plan, r: RedisReplay.State, t: nat, th: Thread, o: Gateway.Seen)
    requires Traced(p, r, t, th) && th.pc.Arrived?
    requires o == Gateway.SeenRequest(FirstMatch(p.u.routes, th.req.path), Bearer(th.req.headers))
    ensures var (th', e) := Gateway.Step(th, o); Moves(p, r, r, t, th, th') && !e.PassCheck?
  {
  }

  lemma {:induction false} RefusalStep(p: Plan, r: RedisReplay.State, t: nat, th: Thread, reason: Reason)
    requires Traced(p, r, t, th) && th.pc.Verifying?
    ensures var (th', e) := Gateway.Step(th, Gateway.SeenToken(Err(reason)));
            Moves(p, r, r, t, th, th') && e == Gateway.Silent
  {
  }

  lemma {:induction false} PassStep(th: Thread, v: Verified)
    requires th.pc.Verifying? && th.route.Some?
    ensures Gateway.Step(th, Gateway.SeenToken(Ok(v))) == (th.(pc := Gateway.Storing(v)), Gateway.PassCheck(v.claims))
  {
  }

  /** Redis after a thread's check, if it passed. */
  function RedisChecked(p: Plan, r: RedisReplay.State, t: nat, verdict: Result<Verified, Reason>)
    : (r': RedisReplay.State)
  {
    if verdict.Err? then r else
    var c := verdict.value.claims;
    RedisReplay.Next(p.offsets, r, RedisReplay.Check(t, p.replica(t), c.jti, c.iat, c.exp))
  }

  lemma {:induction false} VerdictMoves(p: Plan, r: RedisReplay.State, t: nat, th: Thread,
                                        verdict: Result<Verified, Reason>)
    requires Traced(p, r, t, th) && th.pc.Verifying?
    requires verdict == Authenticate(p.u.platform, p.u.cfg, Bearer(th.req.headers), r.time + p.Offset(t))
    ensures var (th', e) := Gateway.Step(th, Gateway.SeenToken(verdict));
            && Moves(p, r, RedisChecked(p, r, t, verdict), t, th, th')
            && e == if verdict.Ok? then Gateway.PassCheck(verdict.value.claims) else Gateway.Silent
  {
    match verdict
    case Err(reason) => RefusalStep(p, r, t, th, reason);
    case Ok(v) =>
      PassStep(th, v);
      CheckMoves(p, r, t, th, v);
  }

  lemma {:induction false} VerifyingMoves(p: Plan, s: State, t: nat, seen: Gateway.Seen)
    requires t in s.threads && Traced(p, s.redis, t, s.threads[t]) && s.threads[t].pc.Verifying?
    ensures var s' := Next(p, s, Act(t, seen)); Moves(p, s.redis, s'.redis, t, s.threads[t], s'.threads[t])
  {
    var o := Observe(p, s, t, s.threads[t], seen);
    VerdictMoves(p, s.redis, t, s.threads[t], o.verdict);
  }

  lemma {:induction false} ActMoves(p: Plan, s: State, t: nat, seen: Gateway.Seen)
    requires t in s.threads && Traced(p, s.redis, t, s.threads[t])
    ensures var s' := Next(p, s, Act(t, seen)); Moves(p, s.redis, s'.redis, t, s.threads[t], s'.threads[t])
  {
    var th := s.threads[t];
    var o := Observe(p, s, t, th, seen);
    if th.pc.Arrived? {
      ArrivalStep(p, s.redis, t, th, o);
    } else if th.pc.Verifying? {
      VerifyingMoves(p, s, t, seen);
    } else if th.pc.Storing? {
      assert Gateway.Step(th, o) == (th, Gateway.Silent);
    } else {
      OutsideStep(th, o);
    }
  }

  lemma {:induction false} StoreMoves(p: Plan, s: State, t: nat, delivery: Delivery)
    requires Ready(s, t) && Traced(p, s.redis, t, s.threads[t])
    ensures var s' := Next(p, s, Store(t, delivery)); Moves(p, s.redis, s'.redis, t, s.threads[t], s'.threads[t])
  {
    var th := s.threads[t];
    AnswerStep(th, RedisReplay.FindsNew(s.redis, t) && delivery == Answered, |s.redis.log|);
    SendMoves(p, s.redis, t, th, delivery, Gateway.Step(th, Answer(s, t, delivery)).0);
  }

  /** The thread an event is of, when it is one that exists. */
  predicate IsOf(s: State, e: Event, t: nat) {
    t in s.threads && match e
                      case Act(x, _) => x == t
                      case ReadClock(x) => x == t && s.threads[t].pc.Storing?
                      case Store(x, _) => x == t && Ready(s, t)
                      case _ => false
  }

  lemma {:induction false} OwnEventMoves(p: Plan, s: State, e: Event, t: nat)
    requires IsOf(s, e, t) && Traced(p, s.redis, t, s.threads[t])
    ensures var s' := Next(p, s, e); t in s'.threads && Moves(p, s.redis, s'.redis, t, s.threads[t], s'.threads[t])
  {
    match e
    case Act(_, seen) => ActMoves(p, s, t, seen);
    case ReadClock(_) => TtlMoves(p, s.redis, t, s.threads[t]);
    case Store(_, delivery) => StoreMoves(p, s, t, delivery);
  }

  lemma {:induction false} OtherEventTraces(p: Plan, s: State, e: Event, t: nat)
    requires t in s.threads && !IsOf(s, e, t) && Traced(p, s.redis, t, s.threads[t])
    ensures var s' := Next(p, s, e);
            t in s'.threads && s'.threads[t] == s.threads[t] && Traced(p, s'.redis, t, s.threads[t])
  {
    var steps := StepsOf(p, s, e);
    if steps != [] {
      OthersTraced(p, s.redis, steps[0], t, s.threads[t]);
    }
  }

  lemma {:induction false} OwnersInRange(p: Plan, s: State)
    requires Inv(p, s)
    ensures forall x, i: nat | Owns(s.threads, x, i) :: i < |s.redis.log|
  {
    forall x, i: nat | Owns(s.threads, x, i)
      ensures i < |s.redis.log|
    {
      assert Traced(p, s.redis, x, s.threads[x]);
    }
  }

  /** An event of one thread. */
  lemma {:induction false} OwnEventKeepsInv(p: Plan, s: State, e: Event, t: nat)
    requires Inv(p, s) && IsOf(s, e, t)
    ensures Inv(p, Next(p, s, e))
  {
    var s' := Next(p, s, e);
    OwnEventMoves(p, s, e, t);
    forall x | x in s'.threads
      ensures Traced(p, s'.redis, x, s'.threads[x])
    {
      if x != t {
        OtherEventTraces(p, s, e, x);
      }
    }
    OwnersInRange(p, s);
    OwnershipAfter(s.threads, s.redis.log, t, s'.threads[t], s'.redis.log);
    assert s'.threads == s.threads[t := s'.threads[t]];
  }

  /** An arrival. */
  lemma {:induction false} ArrivalKeepsInv(p: Plan, s: State, t: nat, req: Gateway.Request)
    requires Inv(p, s) && t !in s.threads
    ensures Inv(p, State(s.redis, s.threads[t := Gateway.NewThread(req)]))
  {
    OwnersInRange(p, s);
    OwnershipAfter(s.threads, s.redis.log, t, Gateway.NewThread(req), s.redis.log);
  }

  /** Any other event: the clock, or nothing. */
  lemma {:induction false} IdleEventKeepsInv(p: Plan, s: State, e: Event)
    requires Inv(p, s) && forall t :: !IsOf(s, e, t)
    requires !e.Arrive? || e.thread in s.threads
    ensures Inv(p, Next(p, s, e))
  {
    var s' := Next(p, s, e);
    NothingMoves(p, s, e);
    forall x | x in s'.threads
      ensures Traced(p, s'.redis, x, s'.threads[x])
    {
      OtherEventTraces(p, s, e, x);
    }
  }

  lemma {:induction false} NothingMoves(p: Plan, s: State, e: Event)
    requires forall t :: !IsOf(s, e, t)
    requires !e.Arrive? || e.thread in s.threads
    ensures Next(p, s, e).threads == s.threads && Next(p, s, e).redis.log == s.redis.log
  {
    if e.Act? || e.ReadClock? || e.Store? {
      assert !IsOf(s, e, e.thread);
    }
  }

  /** In every run each verified request owns exactly one acceptance, of its own token on its own replica's clock. */
  lemma {:induction false} RunKeepsInv(p: Plan, events: seq<Event>)
    ensures Inv(p, Run(p, events))
  {
    if events != [] {
      var n := |events| - 1;
      var s := Run(p, events[..n]);
      RunKeepsInv(p, events[..n]);
      if t :| IsOf(s, events[n], t) {
        OwnEventKeepsInv(p, s, events[n], t);
      } else if events[n].Arrive? && events[n].thread !in s.threads {
        ArrivalKeepsInv(p, s, events[n].thread, events[n].req);
      } else {
        IdleEventKeepsInv(p, s, events[n]);
      }
    }
  }

  // ---------------------------------------------------------------- what that says about requests

  /**
   * The later of two acceptances is stored after the earlier one has run out on its own clock, and inside the skew
   * window.
   */
  ghost predicate Outlived(first: ReplayLaw.Acceptance, second: ReplayLaw.Acceptance) {
    && first.Until() < second.storedAt
    && (first.exp == second.exp && second.checkedAt == second.storedAt ==>
          && second.offset < first.offset
          && second.storedAt <= first.Until() + (first.offset - second.offset))
  }

  lemma {:induction false} PairOutlived(log: seq<ReplayLaw.Acceptance>, i: nat, j: nat)
    requires ReplayLaw.Lawful(log) && ReplayLaw.SkewWindow(log) && i < j < |log| && log[i].jti == log[j].jti
    ensures Outlived(log[i], log[j])
  {
  }

  /** Two different acceptances of one jti, in whichever order. */
  lemma {:induction false} TwoOutlived(log: seq<ReplayLaw.Acceptance>, i: nat, j: nat)
    requires ReplayLaw.Lawful(log) && ReplayLaw.SkewWindow(log)
    requires i < |log| && j < |log| && i != j && log[i].jti == log[j].jti
    ensures var x, y := log[i], log[j];
            && (Outlived(x, y) || Outlived(y, x))
            && (x.exp == y.exp && x.checkedAt == x.storedAt && y.checkedAt == y.storedAt ==> x.offset != y.offset)
  {
    if i < j {
      PairOutlived(log, i, j);
    } else {
      PairOutlived(log, j, i);
    }
  }

  lemma {:induction false} FleetIsLawful(p: Plan, events: seq<Event>)
    ensures ReplayLaw.Lawful(Run(p, events).redis.log) && ReplayLaw.SkewWindow(Run(p, events).redis.log)
  {
    RedisIsRun(p, events);
    RedisReplay.ReplaySafe(p.offsets, Init.redis, RedisSteps(p, events));
  }

  lemma {:induction false} EntriesDiffer(p: Plan, events: seq<Event>, a: nat, b: nat)
    requires a != b && a in Run(p, events).threads && b in Run(p, events).threads
    requires Run(p, events).threads[a].verified.Some? && Run(p, events).threads[b].verified.Some?
    ensures var s := Run(p, events);
            && AcceptedHere(p, s.redis.log, a, s.threads[a]) && AcceptedHere(p, s.redis.log, b, s.threads[b])
            && s.threads[a].entry != s.threads[b].entry
  {
    var s := Run(p, events);
    RunKeepsInv(p, events);
    assert Traced(p, s.redis, a, s.threads[a]) && Traced(p, s.redis, b, s.threads[b]);
    assert Owns(s.threads, a, s.threads[a].entry.value) && Owns(s.threads, b, s.threads[b].entry.value);
  }

  /**
   * Replay across the fleet: of two requests past the verifiers of any replicas with one jti, one was stored after the
   * other's token had run out on the clock that let it in; and if it is the same token, checked when stored, its
   * replica is behind, and it got in within the difference. So replicas whose clocks agree let no token in twice at
   * once.
   */
  lemma {:induction false} NoReplayAcross(p: Plan, events: seq<Event>, a: nat, b: nat)
    requires a != b && a in Run(p, events).threads && b in Run(p, events).threads
    requires var ths := Run(p, events).threads;
             && ths[a].verified.Some? && ths[b].verified.Some?
             && ths[a].verified.value.claims.jti == ths[b].verified.value.claims.jti
    ensures var s := Run(p, events); var log := s.redis.log;
            && AcceptedHere(p, log, a, s.threads[a]) && AcceptedHere(p, log, b, s.threads[b])
            && var x, y := log[s.threads[a].entry.value], log[s.threads[b].entry.value];
            && (Outlived(x, y) || Outlived(y, x))
            && (x.exp == y.exp && x.checkedAt == x.storedAt && y.checkedAt == y.storedAt ==> p.Offset(a) != p.Offset(b))
  {
    EntriesDiffer(p, events, a, b);
    FleetIsLawful(p, events);
    var s := Run(p, events);
    TwoOutlived(s.redis.log, s.threads[a].entry.value, s.threads[b].entry.value);
  }

  /** A thread at the store is let on exactly by an answered command that finds no key. */
  lemma {:induction false} LetOnByAnswer(p: Plan, s: State, t: nat, delivery: Delivery)
    requires Ready(s, t) && Traced(p, s.redis, t, s.threads[t])
    ensures Next(p, s, Store(t, delivery)).threads[t].verified.Some?
            <==> RedisReplay.FindsNew(s.redis, t) && delivery == Answered
  {
    AnswerStep(s.threads[t], RedisReplay.FindsNew(s.redis, t) && delivery == Answered, |s.redis.log|);
  }

  lemma {:induction false} FindsNewIff(p: Plan, events: seq<Event>, t: nat)
    requires Ready(Run(p, events), t)
    ensures var r := Run(p, events).redis;
            RedisReplay.FindsNew(r, t) <==>
            forall k | 0 <= k < |r.writes| && r.writes[k].jti == r.pending[t].jti :: r.writes[k].deadline < r.time
  {
    RedisIsRun(p, events);
    RedisReplay.FindsNewIff(p.offsets, Init.redis, RedisSteps(p, events), t);
  }

  /**
   * Exactly when an answered command lets a request on: no key written for its jti, by any replica and whether its
   * answer came back or not, has a deadline ahead. A failed command lets nothing on.
   */
  lemma {:induction false} LetOnIff(p: Plan, events: seq<Event>, t: nat)
    requires Ready(Run(p, events), t)
    ensures var s := Run(p, events); var jti, writes := s.threads[t].pc.passed.claims.jti, s.redis.writes;
            && (Next(p, s, Store(t, Answered)).threads[t].verified.Some? <==>
                forall k | 0 <= k < |writes| && writes[k].jti == jti :: writes[k].deadline < s.redis.time)
            && Next(p, s, Store(t, FailedAfterSet)).threads[t].verified.None?
            && Next(p, s, Store(t, FailedBeforeSet)).threads[t].verified.None?
  {
    var s := Run(p, events);
    RunKeepsInv(p, events);
    assert Traced(p, s.redis, t, s.threads[t]);
    FindsNewIff(p, events, t);
    LetOnByAnswer(p, s, t, Answered);
    LetOnByAnswer(p, s, t, FailedAfterSet);
    LetOnByAnswer(p, s, t, FailedBeforeSet);
  }
}
