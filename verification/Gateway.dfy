/**
 * The gateway under load: any number of requests, each a thread that runs the handler one shared
 * access at a time, interleaved with each other, with the clock, with health probes and with the
 * nonce sweeper.  The replay defence is the system of module MemoryReplay, driven by the requests.
 * Every sequence of events is a run; an event that is not enabled does nothing.
 */
module Gateway {
  import Ewma
  import Health
  import MemoryReplay
  import opened Common
  import opened Headers
  import opened Pools
  import opened Routing
  import opened TwoChoices
  import opened Verifiers

  /** A backend is named by its service and its ID in that service's pool. */
  datatype Ref = Ref(service: string, id: string)

  /** What stays fixed during a run. */
  datatype Setup = Setup(
    platform: Platform, cfg: Config, start: int, nonceTtl: int, routes: seq<Route>, pools: map<string, seq<string>>)

  /** The live state of one backend; `wiping` while SetHealthy has turned the bit up and not yet wiped the average. */
  datatype Live = Live(node: Health.Node, ewmaMs: real, hasStats: bool, inflight: int, wiping: bool)
  {
    function View(): (s: Ewma.Stats) {
      Ewma.Stats(node.healthy, ewmaMs, hasStats)
    }

    function WithView(s: Ewma.Stats): (l: Live) {
      this.(ewmaMs := s.ewmaMs, hasStats := s.hasStats)
    }
  }

  const FreshLive := Live(Health.Start, 0.0, false, 0, false)

  datatype Request = Request(path: string, headers: Fields, rid: string)

  /** One bit read while a Pick scans its pool. */
  datatype Read = Read(id: string, healthy: bool)

  /** The two candidates a Pick drew, and the scores it read of them, the first one's first. */
  datatype Duel = Duel(first: string, second: string, firstScore: real, secondScore: real)

  /**
   * One forward: the backend, the bits its Pick had read, its draw if there was one, the headers sent if its target
   * was well formed.
   */
  datatype Attempt = Attempt(id: string, bits: seq<Read>, duel: Option<Duel>, headers: Option<Fields>)

  datatype Outcome = Served(code: int) | Failed(retryable: bool)

  datatype Pc =
    | Arrived
    | Verifying(token: string)
    | Storing(passed: Verified)
    | Picking(bits: seq<Read>)
    | Comparing(bits: seq<Read>, i: nat, j: nat, score: real)
    | Acquiring(id: string, picked: seq<Read>, duel: Option<Duel>)
    | Forwarding(active: string)
    | Replying(active: string, code: int)
    | Releasing(active: string, outcome: Outcome)
    | Counting(series: Label, status: int, auth: bool)
    | CountingAuth(reason: Reason, status: int)
    | Erroring(status: int)
    | Finished

  /** A request; `entry` is the place of its acceptance in the nonce store's log. */
  datatype Thread = Thread(
    req: Request,
    pc: Pc,
    route: Option<Route>,
    verified: Option<Verified>,
    entry: Option<nat>,
    attempts: seq<Attempt>,
    statuses: seq<int>,
    counted: seq<Label>,
    authCounted: seq<Reason>)

  datatype State = State(
    replay: MemoryReplay.State,
    live: map<Ref, Live>,
    requests: map<Label, int>,
    authFailures: map<Reason, int>,
    threads: map<nat, Thread>)

  datatype Reply =
    | Response(code: int, nanos: nat)
    | TransportError(retryable: bool, nanos: nat)

  /**
   * What the environment decides at a step: the draws, whether the target parses, the header iteration order, the
   * upstream's answer.
   */
  datatype Choice = Choice(first: nat, second: nat, parses: bool, order: seq<string>, reply: Reply)

  datatype Event =
    | Arrive(thread: nat, req: Request)
    | Act(thread: nat, choice: Choice)
    | Probe(ref: Ref, ok: bool)
    | Wipe(ref: Ref)
    | Tick(elapsed: nat)
    | SweepRead
    | SweepDelete

  /** The one shared thing a thread's step may touch. */
  datatype Effect =
    | Silent
    | PassCheck(claims: Claims)
    | StoreNonce
    | Acquire(ref: Ref)
    | Release(ref: Ref)
    | Latency(ref: Ref, nanos: nat)
    | CountRequest(series: Label)
    | CountAuth(reason: Reason)

  function Look(live: map<Ref, Live>, ref: Ref): (l: Live) {
    if ref in live then live[ref] else FreshLive
  }

  /** Counter lookups: an absent label is zero. */
  function Count<K>(m: map<K, int>, k: K): (n: int) {
    if k in m then m[k] else 0
  }

  function Deny(th: Thread, prefix: string, reason: Reason): (th': Thread) {
    th.(pc := Counting(Label(prefix, Denied, reason), StatusOf(reason), true))
  }

  function Fail(th: Thread, reason: Reason): (th': Thread)
    requires th.route.Some?
  {
    th.(pc := Counting(Label(th.route.value.prefix, Denied, reason), StatusOf(reason), false))
  }

  /** The members a Pick found healthy. */
  function HealthyReads(bits: seq<Read>): (ids: seq<string>)
    ensures forall id | id in ids :: Read(id, true) in bits
  {
    if bits == [] then [] else
    var rest := HealthyReads(bits[..|bits| - 1]);
    var last := bits[|bits| - 1];
    if last.healthy then rest + [last.id] else rest
  }

  /** Where a completed Pick leads: to a forward, or to a refusal when the backend is the one just tried. */
  function Chose(th: Thread, bits: seq<Read>, id: string, duel: Option<Duel>): (th': Thread)
    requires th.route.Some?
  {
    if th.attempts != [] && id == th.attempts[0].id then Fail(th, UpstreamError)
    else th.(pc := Acquiring(id, bits, duel))
  }

  /** All bits are read: no candidate, one, or two of which the first one's score has been read. */
  function Drew(th: Thread, bits: seq<Read>, i: nat, j: nat, score: real): (th': Thread)
    requires th.route.Some?
  {
    var ids := HealthyReads(bits);
    if ids == [] then Fail(th, if th.attempts == [] then NoHealthyBackend else UpstreamError)
    else if |ids| == 1 then Chose(th, bits, ids[0], None)
    else th.(pc := Comparing(bits, i, j, score))
  }

  /** The second candidate's score has been read: the first wins ties. */
  function Compared(th: Thread, bits: seq<Read>, i: nat, j: nat, a: real, b: real): (th': Thread)
    requires th.route.Some?
  {
    var ids := HealthyReads(bits);
    if i >= |ids| || j >= |ids| then th
    else Chose(th, bits, if a <= b then ids[i] else ids[j], Some(Duel(ids[i], ids[j], a, b)))
  }

  function ScoreOf(live: map<Ref, Live>, ref: Ref): (score: real) {
    Score(Look(live, ref).ewmaMs, Look(live, ref).inflight)
  }

  /** The two draws, and the first candidate's score now. */
  function Draw(live: map<Ref, Live>, service: string, ids: seq<string>, c: Choice): (o: Seen) {
    if |ids| < 2 then SeenDraw(0, 0, 0.0) else
    var i := c.first % |ids|;
    SeenDraw(i, Skip(i, c.second % (|ids| - 1)), ScoreOf(live, Ref(service, ids[i])))
  }

  /** What a thread finds when it takes its next step. */
  datatype Seen =
    | SeenRequest(route: Option<Route>, token: string)
    | SeenToken(verdict: Result<Verified, Reason>)
    | SeenNonce(isNew: bool, next: nat)
    | SeenBit(read: Read)
    | SeenDraw(i: nat, j: nat, score: real)
    | SeenScore(score: real)
    | SeenTarget(sent: Option<Fields>)
    | SeenReply(reply: Reply)
    | SeenNothing

  /**
   * The observation behind a step: the request itself, the shared state now, or the environment's choice.
   * A route whose service has no pool, on which the handler would panic, leaves the thread where it is.
   */
  function Observe(u: Setup, s: State, th: Thread, c: Choice): (o: Seen) {
    match th.pc
    case Arrived => SeenRequest(FirstMatch(u.routes, th.req.path), Bearer(th.req.headers))
    case Verifying(token) => SeenToken(Authenticate(u.platform, u.cfg, token, s.replay.clock))
    case Storing(v) => SeenNonce(v.claims.jti !in s.replay.items, |s.replay.log|)
    case Picking(bits) =>
      if th.route.None? || th.route.value.service !in u.pools then SeenNothing else
      var ids := u.pools[th.route.value.service];
      if |bits| < |ids| then
        SeenBit(Read(ids[|bits|], Look(s.live, Ref(th.route.value.service, ids[|bits|])).node.healthy))
      else Draw(s.live, th.route.value.service, HealthyReads(bits), c)
    case Comparing(bits, _, j, _) =>
      var ids := HealthyReads(bits);
      if th.route.None? || j >= |ids| then SeenNothing
      else SeenScore(ScoreOf(s.live, Ref(th.route.value.service, ids[j])))
    case Acquiring(_, _, _) =>
      if !c.parses then SeenTarget(None)
      else if th.verified.None? || !Enumerates(c.order, th.req.headers.Keys) then SeenNothing
      else SeenTarget(Some(Forwarded(th.req.headers, c.order, th.verified.value.subject, th.req.rid)))
    case Forwarding(_) => SeenReply(c.reply)
    case _ => SeenNothing
  }

  /** Past every check before the store, or denied. */
  function StepChecked(th: Thread, route: Route, verdict: Result<Verified, Reason>): (th': Thread) {
    match verdict
    case Err(reason) => Deny(th, route.prefix, reason)
    case Ok(v) => th.(pc := Storing(v))
  }

  /** The nonce store's answer, then authorisation. */
  function StepStored(th: Thread, route: Route, v: Verified, isNew: bool, next: nat): (th': Thread) {
    if !isNew then Deny(th, route.prefix, Replay) else
    var th1 := th.(verified := Some(v), entry := Some(next));
    if route.requiredScope == "" || route.requiredScope in v.claims.scope then th1.(pc := Picking([]))
    else Deny(th1, route.prefix, MissingScope)
  }

  /** Where the n-th forward leads: a first one that failed retryably is followed by another Pick. */
  function PcAfter(route: Route, outcome: Outcome, n: nat): (pc: Pc) {
    if outcome.Served? then Counting(Label(route.prefix, Allowed, Success), 0, false)
    else if outcome.retryable && n == 1 then Picking([])
    else Counting(Label(route.prefix, Denied, UpstreamError), StatusOf(UpstreamError), false)
  }

  /** One step of a request thread: its next local state and its one shared effect. */
  function Step(th: Thread, o: Seen): (r: (Thread, Effect)) {
    match (th.pc, o)
    case (Arrived, SeenRequest(None, _)) =>
      (th.(pc := Counting(Label("none", Denied, NoRoute), 404, false)), Silent)
    case (Arrived, SeenRequest(Some(route), token)) =>
      var th1 := th.(route := Some(route));
      (if token == "" then Deny(th1, route.prefix, NoToken) else th1.(pc := Verifying(token)), Silent)
    case (Counting(l, status, auth), _) =>
      (th.(counted := th.counted + [l],
           pc := if auth then CountingAuth(l.reason, status) else if status == 0 then Finished else Erroring(status)),
       CountRequest(l))
    case (CountingAuth(reason, status), _) =>
      (th.(authCounted := th.authCounted + [reason], pc := Erroring(status)), CountAuth(reason))
    case (Erroring(status), _) => (th.(statuses := th.statuses + [status], pc := Finished), Silent)
    case _ => if th.route.None? then (th, Silent) else StepRouted(th, th.route.value, o)
  }

  /** The steps between matching a route and counting the result. */
  function StepRouted(th: Thread, route: Route, o: Seen): (r: (Thread, Effect))
    requires th.route == Some(route)
  {
    match (th.pc, o)
    case (Verifying(_), SeenToken(verdict)) =>
      (StepChecked(th, route, verdict), if verdict.Ok? then PassCheck(verdict.value.claims) else Silent)
    case (Storing(v), SeenNonce(isNew, next)) => (StepStored(th, route, v, isNew, next), StoreNonce)
    case (Picking(bits), SeenBit(read)) => (th.(pc := Picking(bits + [read])), Silent)
    case (Picking(bits), SeenDraw(i, j, score)) => (Drew(th, bits, i, j, score), Silent)
    case (Comparing(bits, i, j, a), SeenScore(b)) => (Compared(th, bits, i, j, a, b), Silent)
    case (Acquiring(id, bits, duel), SeenTarget(h)) =>
      (th.(pc := if h.Some? then Forwarding(id) else Releasing(id, Failed(true)),
           attempts := th.attempts + [Attempt(id, bits, duel, h)]),
       Acquire(Ref(route.service, id)))
    case (Forwarding(id), SeenReply(Response(code, d))) =>
      (th.(pc := Replying(id, code)), Latency(Ref(route.service, id), d))
    case (Forwarding(id), SeenReply(TransportError(retryable, d))) =>
      (th.(pc := Releasing(id, Failed(retryable))), Latency(Ref(route.service, id), d))
    case (Replying(id, code), _) => (th.(pc := Releasing(id, Served(code)), statuses := th.statuses + [code]), Silent)
    case (Releasing(id, outcome), _) =>
      (th.(pc := PcAfter(route, outcome, |th.attempts|)), Release(Ref(route.service, id)))
    case _ => (th, Silent)
  }

  /** The effect of a step of thread t on what is shared. */
  function Apply(s: State, t: nat, e: Effect): (s': State) {
    match e
    case Silent => s
    case PassCheck(c) => s.(replay := MemoryReplay.Next(s.replay, MemoryReplay.Check(t, c.jti, c.iat, c.exp)))
    case StoreNonce => s.(replay := MemoryReplay.Next(s.replay, MemoryReplay.Store(t)))
    case Acquire(ref) => s.(live := s.live[ref := Look(s.live, ref).(inflight := Look(s.live, ref).inflight + 1)])
    case Release(ref) => s.(live := s.live[ref := Look(s.live, ref).(inflight := Look(s.live, ref).inflight - 1)])
    case Latency(ref, d) =>
      var l := Look(s.live, ref);
      s.(live := s.live[ref := l.WithView(Ewma.Next(l.View(), Ewma.Record(d)))])
    case CountRequest(series) => s.(requests := s.requests[series := Count(s.requests, series) + 1])
    case CountAuth(reason) => s.(authFailures := s.authFailures[reason := Count(s.authFailures, reason) + 1])
  }

  /** The second half of SetHealthy: the average is wiped. */
  function Wiped(l: Live): (l': Live) {
    if l.wiping then l.(ewmaMs := 0.0, hasStats := false, wiping := false) else l
  }

  /**
   * A recorded probe, up to the turn of the bit; the checker's mutex keeps it waiting until the previous one has
   * finished its wipe.
   */
  function Probed(l: Live, ok: bool): (l': Live) {
    var l0 := Wiped(l);
    var node := Health.Probe(l0.node, ok);
    l0.(node := node, wiping := node.healthy && !l0.node.healthy)
  }

  function NewThread(req: Request): (th: Thread) {
    Thread(req, Arrived, None, None, None, [], [], [], [])
  }

  function Next(u: Setup, s: State, e: Event): (s': State) {
    match e
    case Arrive(t, req) => if t in s.threads then s else s.(threads := s.threads[t := NewThread(req)])
    case Act(t, c) =>
      if t !in s.threads then s else
      var (th, effect) := Step(s.threads[t], Observe(u, s, s.threads[t], c));
      Apply(s, t, effect).(threads := s.threads[t := th])
    case Probe(ref, ok) => s.(live := s.live[ref := Probed(Look(s.live, ref), ok)])
    case Wipe(ref) => s.(live := s.live[ref := Wiped(Look(s.live, ref))])
    case Tick(d) => s.(replay := MemoryReplay.Next(s.replay, MemoryReplay.Tick(d)))
    case SweepRead => s.(replay := MemoryReplay.Next(s.replay, MemoryReplay.SweepRead))
    case SweepDelete => s.(replay := MemoryReplay.Next(s.replay, MemoryReplay.SweepDelete))
  }

  /** Just started: nothing stored, counted or under way. */
  function Init(u: Setup): (s: State) {
    State(MemoryReplay.State(u.start, u.nonceTtl, map[], map[], None, [], []), map[], map[], map[], map[])
  }

  function Run(u: Setup, events: seq<Event>): (s: State) {
    if events == [] then Init(u) else Next(u, Run(u, events[..|events| - 1]), events[|events| - 1])
  }
}
