/**
 * One request thread of module Gateway acting on its own, as the handler drives it: its state after each
 * of the handler's actions.
 */
module HandlerRuns {
  import Ewma
  import MemoryReplay
  import opened Clock
  import opened Common
  import opened Gateway
  import opened GatewayReplay
  import opened GatewaySafety
  import opened Headers
  import opened NonceCaches
  import opened Pools
  import opened Routing
  import opened Sums
  import opened TwoChoices
  import opened Verifiers

  /** A request that left for a backend. */
  datatype Sent = Sent(id: string, headers: Fields)

  /** What a thread's forwards put on the wire: nothing where the target was malformed. */
  function Sendings(attempts: seq<Attempt>): (sent: seq<Sent>) {
    if attempts == [] then [] else
    var last := attempts[|attempts| - 1];
    Sendings(attempts[..|attempts| - 1]) + OnWire(last.id, last.headers)
  }

  function OnWire(id: string, headers: Option<Fields>): (sent: seq<Sent>) {
    if headers.Some? then [Sent(id, headers.value)] else []
  }

  lemma {:induction false} SendingsMore(attempts: seq<Attempt>, a: Attempt)
    ensures Sendings(attempts + [a]) == Sendings(attempts) + OnWire(a.id, a.headers)
  {
    assert (attempts + [a])[..|attempts|] == attempts;
  }

  // ---------------------------------------------------------------- a thread running alone

  /** One thread acting on its own. */
  ghost function Acts(u: Setup, s: State, t: nat, choices: seq<Choice>): State {
    if choices == [] then s else
    var n := |choices| - 1;
    Next(u, Acts(u, s, t, choices[..n]), Act(t, choices[n]))
  }

  /** The clock moves on to `now`, and a request arrives. */
  ghost function Begun(u: Setup, s: State, t: nat, req: Request, now: int): State {
    Next(u, Next(u, s, Tick(Until(s, now))), Arrive(t, req))
  }

  function Until(s: State, now: int): (elapsed: nat) {
    if now < s.replay.clock then 0 else now - s.replay.clock
  }

  /** A thread's run so far, and what the writer and the wire showed at its start. */
  datatype Trace = Trace(u: Setup, from: State, t: nat, choices: seq<Choice>, statuses: seq<int>, sent: seq<Sent>)

  ghost function Here(run: Trace): State {
    Acts(run.u, run.from, run.t, run.choices)
  }

  ghost predicate SameRun(run: Trace, run': Trace) {
    run' == run.(choices := run'.choices)
  }

  ghost function Mine(run: Trace, s: State): Thread {
    if run.t in s.threads then s.threads[run.t] else NewThread(Request("", map[], ""))
  }

  ghost function Moved(run: Trace, s: State, th: Thread, e: Effect): State {
    Apply(s, run.t, e).(threads := s.threads[run.t := th])
  }

  /** One more step. */
  lemma {:induction false} Take(run: Trace, s: State, c: Choice, o: Seen, th: Thread, e: Effect)
    returns (run': Trace, s': State)
    requires s == Here(run) && run.t in s.threads
    requires Observe(run.u, s, Mine(run, s), c) == o && Step(Mine(run, s), o) == (th, e)
    ensures s' == Here(run') == Moved(run, s, th, e) && SameRun(run, run')
  {
    run' := run.(choices := run.choices + [c]);
    assert run'.choices[..|run.choices|] == run.choices;
    s' := Here(run');
  }

  // ---------------------------------------------------------------- what the objects show

  /** What the proxy and the balancer see of a backend object. */
  datatype Glimpse = Glimpse(stats: Ewma.Stats, inflight: int)

  /** The shared objects, the writer and the wire at one moment. */
  datatype Face = Face(
    items: map<string, int>, ttl: int, requests: map<Label, int>, authFailures: map<Reason, int>,
    seen: map<Backend, Glimpse>, statuses: seq<int>, sent: seq<Sent>)

  ghost predicate Pictured(seen: map<Backend, Glimpse>, home: map<Backend, Ref>, live: map<Ref, Live>) {
    forall b | b in seen && b in home :: seen[b] == Glimpse(Look(live, home[b]).View(), Look(live, home[b]).inflight)
  }

  /** The objects show this state of the machine. */
  ghost predicate Shown(s: State, home: map<Backend, Ref>, f: Face) {
    && s.replay.items == f.items && s.replay.ttl == f.ttl
    && s.requests == f.requests && s.authFailures == f.authFailures
    && Pictured(f.seen, home, s.live)
  }

  /** The objects show the state the run has reached, and the writer and the wire what its thread has done. */
  ghost predicate Matches(run: Trace, s: State, home: map<Backend, Ref>, f: Face) {
    && s == Here(run) && run.t in s.threads && Shown(s, home, f)
    && f.statuses == run.statuses + Mine(run, s).statuses
    && f.sent == run.sent + Sendings(Mine(run, s).attempts)
  }

  ghost predicate OwnNames(home: map<Backend, Ref>) {
    forall a, b | a in home && b in home && home[a] == home[b] :: a == b
  }

  /** When one backend moves with its live state, the picture still fits. */
  lemma {:induction false} PictureMoves(seen: map<Backend, Glimpse>, home: map<Backend, Ref>, live: map<Ref, Live>,
                                        b: Backend, l: Live)
    requires Pictured(seen, home, live) && b in home && OwnNames(home)
    ensures Pictured(seen[b := Glimpse(l.View(), l.inflight)], home, live[home[b] := l])
  {
  }

  /** Only this thread has moved. */
  ghost predicate OnlyMineMoved(run: Trace, s: State, s': State) {
    s' == s.(threads := s.threads[run.t := Mine(run, s')])
  }

  /** Only this thread and one backend have moved. */
  ghost predicate OnlyLiveMoved(run: Trace, s: State, s': State, ref: Ref, l: Live) {
    s' == s.(live := s.live[ref := l], threads := s.threads[run.t := Mine(run, s')])
  }

  /** What Acquire and Release are to the one backend they touch. */
  lemma {:induction false} CountMoves(run: Trace, s: State, th: Thread, ref: Ref)
    ensures var l := Look(s.live, ref);
            && OnlyLiveMoved(run, s, Moved(run, s, th, Acquire(ref)), ref, l.(inflight := l.inflight + 1))
            && OnlyLiveMoved(run, s, Moved(run, s, th, Release(ref)), ref, l.(inflight := l.inflight - 1))
  {
  }

  /** A step that touches nothing shared but a status written. */
  lemma {:induction false} MineMatches(run: Trace, s: State, run': Trace, s': State, home: map<Backend, Ref>, f: Face,
                                       wrote: seq<int>)
    requires Matches(run, s, home, f) && s' == Here(run') && SameRun(run, run') && OnlyMineMoved(run, s, s')
    requires Mine(run, s').attempts == Mine(run, s).attempts && Mine(run, s').statuses == Mine(run, s).statuses + wrote
    ensures Matches(run', s', home, f.(statuses := f.statuses + wrote))
  {
  }

  lemma {:induction false} SeenIsLive(s: State, home: map<Backend, Ref>, f: Face, b: Backend)
    requires Shown(s, home, f) && b in home && b in f.seen
    ensures var l := Look(s.live, home[b]); f.seen[b] == Glimpse(l.View(), l.inflight)
  {
  }

  /** A step that moves one backend, and what it sends. */
  lemma {:induction false} LiveMatches(run: Trace, s: State, run': Trace, s': State, home: map<Backend, Ref>, f: Face,
                                       b: Backend, l: Live, g: Glimpse, sent: seq<Sent>)
    requires Matches(run, s, home, f) && s' == Here(run') && SameRun(run, run') && b in home
             && OnlyLiveMoved(run, s, s', home[b], l)
    requires OwnNames(home) && Mine(run, s').statuses == Mine(run, s).statuses
    requires Sendings(Mine(run, s').attempts) == Sendings(Mine(run, s).attempts) + sent
    requires g == Glimpse(l.View(), l.inflight)
    ensures Matches(run', s', home, f.(seen := f.seen[b := g], sent := f.sent + sent))
  {
    PictureMoves(f.seen, home, s.live, b, l);
    SentAfter(run.sent, Sendings(Mine(run, s).attempts), sent);
  }

  lemma {:induction false} SentAfter(a: seq<Sent>, b: seq<Sent>, c: seq<Sent>)
    ensures (a + b) + c == a + (b + c)
  {
  }

  // ---------------------------------------------------------------- the steps that touch no backend

  /** A choice for the steps at which the environment decides nothing. */
  const Idle := Choice(0, 0, false, [], TransportError(false, 0))

  /** What follows the first counter. */
  ghost function AfterCount(l: Label, status: int, auth: bool): Pc {
    if auth then CountingAuth(l.reason, status) else if status == 0 then Finished else Erroring(status)
  }

  lemma {:induction false} TrackCount(run: Trace, s: State, home: map<Backend, Ref>, f: Face, l: Label, status: int,
                                      auth: bool)
    returns (run': Trace, s': State)
    requires Matches(run, s, home, f) && Mine(run, s).pc == Counting(l, status, auth)
    ensures SameRun(run, run') && Matches(run', s', home, f.(requests := f.requests[l := Count(f.requests, l) + 1]))
    ensures Mine(run', s') == Mine(run, s).(counted := Mine(run, s).counted + [l], pc := AfterCount(l, status, auth))
  {
    var th := Mine(run, s).(counted := Mine(run, s).counted + [l], pc := AfterCount(l, status, auth));
    run', s' := Take(run, s, Idle, SeenNothing, th, CountRequest(l));
  }

  lemma {:induction false} TrackCountAuth(run: Trace, s: State, home: map<Backend, Ref>, f: Face, reason: Reason,
                                          status: int)
    returns (run': Trace, s': State)
    requires Matches(run, s, home, f) && Mine(run, s).pc == CountingAuth(reason, status)
    ensures var counted := f.authFailures[reason := Count(f.authFailures, reason) + 1];
            SameRun(run, run') && Matches(run', s', home, f.(authFailures := counted))
    ensures Mine(run', s') == Mine(run, s).(authCounted := Mine(run, s).authCounted + [reason], pc := Erroring(status))
  {
    var th := Mine(run, s).(authCounted := Mine(run, s).authCounted + [reason], pc := Erroring(status));
    run', s' := Take(run, s, Idle, SeenNothing, th, CountAuth(reason));
  }

  lemma {:induction false} TrackError(run: Trace, s: State, home: map<Backend, Ref>, f: Face, status: int)
    returns (run': Trace, s': State)
    requires Matches(run, s, home, f) && Mine(run, s).pc == Erroring(status)
    ensures SameRun(run, run') && Matches(run', s', home, f.(statuses := f.statuses + [status]))
    ensures Mine(run', s') == Mine(run, s).(statuses := Mine(run, s).statuses + [status], pc := Finished)
  {
    var th := Mine(run, s).(statuses := Mine(run, s).statuses + [status], pc := Finished);
    run', s' := Take(run, s, Idle, SeenNothing, th, Silent);
  }

  /** Where a request goes first. */
  ghost function ArrivalPc(route: Option<Route>, token: string): Pc {
    if route.None? then Counting(Label("none", Denied, NoRoute), 404, false)
    else if token == "" then Counting(Label(route.value.prefix, Denied, NoToken), StatusOf(NoToken), true)
    else Verifying(token)
  }

  /** The first step: the route and the token. */
  lemma {:induction false} TrackArrival(run: Trace, s: State, home: map<Backend, Ref>, f: Face, route: Option<Route>,
                                        token: string)
    returns (run': Trace, s': State)
    requires Matches(run, s, home, f) && Mine(run, s).pc == Arrived && Mine(run, s).route.None?
    requires route == FirstMatch(run.u.routes, Mine(run, s).req.path) && token == Bearer(Mine(run, s).req.headers)
    ensures SameRun(run, run') && Matches(run', s', home, f) && s'.replay == s.replay && s'.live == s.live
    ensures Mine(run', s') == Mine(run, s).(route := route, pc := ArrivalPc(route, token))
  {
    var th := Mine(run, s).(route := route, pc := ArrivalPc(route, token));
    run', s' := Take(run, s, Idle, SeenRequest(route, token), th, Silent);
  }

  // ---------------------------------------------------------------- the verifier's two steps

  /** Where the verifier's answer leads. */
  ghost function AfterVerdict(th: Thread, route: Route, r: Result<Verified, Reason>, next: nat): Thread {
    match r
    case Err(reason) => Deny(th, route.prefix, reason)
    case Ok(v) => StepStored(th, route, v, true, next)
  }

  /** Only the nonce store and this thread have moved. */
  ghost predicate OnlyReplayMoved(run: Trace, s: State, s': State, th: Thread, items: map<string, int>) {
    && s' == s.(replay := s'.replay, threads := s.threads[run.t := th])
    && s'.replay.items == items && s'.replay.ttl == s.replay.ttl
  }

  lemma {:induction false} TrackRefused(run: Trace, s: State, route: Route, token: string, reason: Reason)
    returns (run': Trace, s': State)
    requires s == Here(run) && run.t in s.threads
    requires Mine(run, s).pc == Verifying(token) && Mine(run, s).route == Some(route)
    requires Authenticate(run.u.platform, run.u.cfg, token, s.replay.clock) == Err(reason)
    ensures s' == Here(run') && SameRun(run, run')
    ensures OnlyReplayMoved(run, s, s', Deny(Mine(run, s), route.prefix, reason), s.replay.items)
  {
    var th := Mine(run, s);
    run', s' := Take(run, s, Idle, SeenToken(Err(reason)), Deny(th, route.prefix, reason), Silent);
  }

  lemma {:induction false} TrackPassed(run: Trace, s: State, route: Route, token: string, v: Verified)
    returns (run': Trace, s': State)
    requires s == Here(run) && run.t in s.threads
    requires Mine(run, s).pc == Verifying(token) && Mine(run, s).route == Some(route)
    requires Authenticate(run.u.platform, run.u.cfg, token, s.replay.clock) == Ok(v)
    ensures s' == Here(run') && SameRun(run, run')
    ensures OnlyReplayMoved(run, s, s', Mine(run, s).(pc := Storing(v)), s.replay.items)
    ensures s'.replay.clock == s.replay.clock && s'.replay.log == s.replay.log
    ensures run.t in s'.replay.pending
            && s'.replay.pending[run.t] == MemoryReplay.Pending(v.claims.jti, Unix(v.claims.exp), s.replay.clock)
  {
    AuthenticatedInWindow(run.u, token, s.replay.clock, v);
    run', s' := Take(run, s, Idle, SeenToken(Ok(v)), Mine(run, s).(pc := Storing(v)), PassCheck(v.claims));
  }

  lemma {:induction false} TrackStored(run: Trace, s: State, route: Route, v: Verified) returns (run': Trace, s': State)
    requires s == Here(run) && run.t in s.threads
    requires Mine(run, s).pc == Storing(v) && Mine(run, s).route == Some(route) && run.t in s.replay.pending
    requires s.replay.pending[run.t].jti == v.claims.jti && s.replay.pending[run.t].exp == Unix(v.claims.exp)
    ensures s' == Here(run') && SameRun(run, run')
    ensures OnlyReplayMoved(run, s, s',
                            StepStored(Mine(run, s), route, v, v.claims.jti !in s.replay.items, |s.replay.log|),
                            Stored(s.replay.items, s.replay.ttl, v.claims.jti, Unix(v.claims.exp), s.replay.clock))
  {
    var isNew, next := v.claims.jti !in s.replay.items, |s.replay.log|;
    run', s' := Take(run, s, Idle, SeenNonce(isNew, next), StepStored(Mine(run, s), route, v, isNew, next), StoreNonce);
  }

  /** Both steps: the verdict of the checks and the store, and the store it leaves. */
  lemma {:induction false} TrackBoth(run: Trace, s: State, route: Route, token: string) returns (run': Trace, s': State)
    requires s == Here(run) && run.t in s.threads
    requires Mine(run, s).pc == Verifying(token) && Mine(run, s).route == Some(route)
    ensures s' == Here(run') && SameRun(run, run')
    ensures var p, cfg, items, now := run.u.platform, run.u.cfg, s.replay.items, s.replay.clock;
            OnlyReplayMoved(run, s, s',
                            AfterVerdict(Mine(run, s), route, Verdict(p, cfg, items, token, now), |s.replay.log|),
                            StoreAfter(p, cfg, items, s.replay.ttl, token, now))
  {
    match Authenticate(run.u.platform, run.u.cfg, token, s.replay.clock)
    case Err(reason) =>
      run', s' := TrackRefused(run, s, route, token, reason);
    case Ok(v) =>
      run', s' := TrackPassed(run, s, route, token, v);
      run', s' := TrackStored(run', s', route, v);
  }

  lemma {:induction false} TrackVerify(run: Trace, s: State, home: map<Backend, Ref>, f: Face, route: Route,
                                       token: string, verdict: Result<Verified, Reason>, items: map<string, int>)
    returns (run': Trace, s': State)
    requires Matches(run, s, home, f) && Mine(run, s).pc == Verifying(token) && Mine(run, s).route == Some(route)
    requires verdict == Verdict(run.u.platform, run.u.cfg, f.items, token, s.replay.clock)
    requires items == StoreAfter(run.u.platform, run.u.cfg, f.items, f.ttl, token, s.replay.clock)
    ensures SameRun(run, run') && Matches(run', s', home, f.(items := items)) && s'.live == s.live
    ensures Mine(run', s') == AfterVerdict(Mine(run, s), route, verdict, |s.replay.log|)
  {
    run', s' := TrackBoth(run, s, route, token);
  }

  // ---------------------------------------------------------------- a Pick, bit by bit

  /** The bits of a pool in one state. */
  ghost function Bits(live: map<Ref, Live>, service: string, ids: seq<string>): seq<Read> {
    if ids == [] then [] else
    var id := ids[|ids| - 1];
    Bits(live, service, ids[..|ids| - 1]) + [Read(id, Look(live, Ref(service, id)).node.healthy)]
  }

  lemma {:induction false} BitsLength(live: map<Ref, Live>, service: string, ids: seq<string>)
    ensures |Bits(live, service, ids)| == |ids|
  {
    if ids != [] {
      BitsLength(live, service, ids[..|ids| - 1]);
    }
  }

  ghost predicate Choosing(run: Trace, s: State, service: string, bits: seq<Read>) {
    && s == Here(run) && run.t in s.threads && Mine(run, s).pc == Picking(bits)
    && Mine(run, s).route.Some? && Mine(run, s).route.value.service == service && service in run.u.pools
  }

  lemma {:induction false} MineMovesTwice(run: Trace, s: State, s1: State, s2: State)
    requires OnlyMineMoved(run, s, s1) && OnlyMineMoved(run, s1, s2)
    ensures OnlyMineMoved(run, s, s2)
  {
    assert s1.threads[run.t := Mine(run, s2)] == s.threads[run.t := Mine(run, s2)];
  }

  /** Scanning the first n members. */
  lemma {:induction false} Scan(run: Trace, s: State, service: string, n: nat) returns (run': Trace, s': State)
    requires Choosing(run, s, service, []) && n <= |run.u.pools[service]|
    ensures var bits := Bits(s.live, service, run.u.pools[service][..n]);
            && Choosing(run', s', service, bits) && SameRun(run, run')
            && OnlyMineMoved(run, s, s') && Mine(run, s') == Mine(run, s).(pc := Picking(bits))
  {
    if n == 0 {
      run', s' := run, s;
      assert s.threads == s.threads[run.t := Mine(run, s)];
    } else {
      var run1, s1 := Scan(run, s, service, n - 1);
      var ids := run.u.pools[service];
      BitsLength(s.live, service, ids[..n - 1]);
      assert ids[..n][..n - 1] == ids[..n - 1];
      run', s' := ScanOne(run1, s1, service, Bits(s.live, service, ids[..n - 1]));
      MineMovesTwice(run, s, s1, s');
    }
  }

  lemma {:induction false} ScanOne(run: Trace, s: State, service: string, bits: seq<Read>)
    returns (run': Trace, s': State)
    requires Choosing(run, s, service, bits) && |bits| < |run.u.pools[service]|
    ensures var id := run.u.pools[service][|bits|];
            var more := bits + [Read(id, Look(s.live, Ref(service, id)).node.healthy)];
            && Choosing(run', s', service, more) && SameRun(run, run')
            && OnlyMineMoved(run, s, s') && Mine(run, s') == Mine(run, s).(pc := Picking(more))
  {
    var id := run.u.pools[service][|bits|];
    var read := Read(id, Look(s.live, Ref(service, id)).node.healthy);
    run', s' := Take(run, s, Idle, SeenBit(read), Mine(run, s).(pc := Picking(bits + [read])), Silent);
  }

  /**
   * Where a Pick that returned backend `b` leads: to that backend, or to a refusal if there is none or the forward
   * just failed there.
   */
  ghost predicate AfterPick(th: Thread, th': Thread, route: Route, b: Option<string>) {
    && th' == th.(pc := th'.pc)
    && if b.None? && th.attempts == []
       then th'.pc == Counting(Label(route.prefix, Denied, NoHealthyBackend), 503, false)
       else if b.None? || (th.attempts != [] && b.value == th.attempts[0].id)
       then th'.pc == Counting(Label(route.prefix, Denied, UpstreamError), 502, false)
       else th'.pc.Acquiring? && th'.pc.id == b.value
  }

  /**
   * `b` is what a Pick returns for these bits and draws: nothing, the only healthy member, or the winner of the draw.
   */
  ghost predicate Chosen(live: map<Ref, Live>, service: string, bits: seq<Read>, i: nat, j: nat, b: Option<string>) {
    var ids := HealthyReads(bits);
    if |ids| == 0 then b.None?
    else if |ids| == 1 then b == Some(ids[0])
    else i < |ids| && j + 1 < |ids| && b == Some(LowerOf(live, service, ids[i], ids[Skip(i, j)]))
  }

  /** The one of two backends with the lower score, the first on a tie. */
  ghost function LowerOf(live: map<Ref, Live>, service: string, a: string, b: string): string {
    if ScoreOf(live, Ref(service, a)) <= ScoreOf(live, Ref(service, b)) then a else b
  }

  lemma {:induction false} ChoseIsAfterPick(th: Thread, route: Route, bits: seq<Read>, id: string, duel: Option<Duel>)
    requires th.route == Some(route)
    ensures AfterPick(th, Chose(th, bits, id, duel), route, Some(id))
  {
  }

  lemma {:induction false} StepDraws(th: Thread, route: Route, bits: seq<Read>, i: nat, j: nat, score: real)
    requires th.pc == Picking(bits) && th.route == Some(route)
    ensures Step(th, SeenDraw(i, j, score)) == (Drew(th, bits, i, j, score), Silent)
  {
  }

  lemma {:induction false} StepCompares(th: Thread, route: Route, bits: seq<Read>, i: nat, j: nat, a: real, b: real)
    requires th.pc == Comparing(bits, i, j, a) && th.route == Some(route)
    ensures Step(th, SeenScore(b)) == (Compared(th, bits, i, j, a, b), Silent)
  {
  }

  /** All bits of the pool are read: the thread sees the draw. */
  lemma {:induction false} ObserveDraw(run: Trace, s: State, service: string, bits: seq<Read>, c: Choice)
    requires Choosing(run, s, service, bits) && |bits| == |run.u.pools[service]|
    ensures Observe(run.u, s, Mine(run, s), c) == Draw(s.live, service, HealthyReads(bits), c)
  {
  }

  lemma {:induction false} DrawIs(live: map<Ref, Live>, service: string, ids: seq<string>, i: nat, j: nat)
    requires i < |ids| && j + 1 < |ids|
    ensures Draw(live, service, ids, Idle.(first := i, second := j))
            == SeenDraw(i, Skip(i, j), ScoreOf(live, Ref(service, ids[i])))
  {
    assert i % |ids| == i && j % (|ids| - 1) == j;
  }

  lemma {:induction false} AloneIsAfterPick(th: Thread, route: Route, bits: seq<Read>, b: Option<string>)
    requires th.route == Some(route) && |HealthyReads(bits)| < 2
    requires if HealthyReads(bits) == [] then b.None? else b == Some(HealthyReads(bits)[0])
    ensures AfterPick(th, Drew(th, bits, 0, 0, 0.0), route, b)
  {
    if b.Some? {
      ChoseIsAfterPick(th, route, bits, b.value, None);
    }
  }

  /** The last step of a Pick that has no two candidates. */
  lemma {:induction false} ChooseAlone(run: Trace, s: State, route: Route, bits: seq<Read>, b: Option<string>)
    returns (run': Trace, s': State)
    requires Choosing(run, s, route.service, bits) && Mine(run, s).route == Some(route)
    requires |bits| == |run.u.pools[route.service]| && |HealthyReads(bits)| < 2
    requires Chosen(s.live, route.service, bits, 0, 0, b)
    ensures s' == Here(run') && SameRun(run, run') && OnlyMineMoved(run, s, s') && run.t in s'.threads
    ensures AfterPick(Mine(run, s), Mine(run, s'), route, b)
  {
    var th := Mine(run, s);
    ObserveDraw(run, s, route.service, bits, Idle);
    StepDraws(th, route, bits, 0, 0, 0.0);
    AloneIsAfterPick(th, route, bits, b);
    run', s' := Take(run, s, Idle, SeenDraw(0, 0, 0.0), Drew(th, bits, 0, 0, 0.0), Silent);
  }

  /** The draw: the first candidate's score is read. */
  lemma {:induction false} DrawTwo(run: Trace, s: State, route: Route, bits: seq<Read>, i: nat, j: nat)
    returns (run': Trace, s': State)
    requires Choosing(run, s, route.service, bits) && Mine(run, s).route == Some(route)
    requires |bits| == |run.u.pools[route.service]| && i < |HealthyReads(bits)| && j + 1 < |HealthyReads(bits)|
    ensures var score := ScoreOf(s.live, Ref(route.service, HealthyReads(bits)[i]));
            && s' == Here(run') && SameRun(run, run') && OnlyMineMoved(run, s, s') && run.t in s'.threads
            && Mine(run, s') == Mine(run, s).(pc := Comparing(bits, i, Skip(i, j), score))
  {
    var ids, c, k := HealthyReads(bits), Idle.(first := i, second := j), Skip(i, j);
    var score := ScoreOf(s.live, Ref(route.service, ids[i]));
    ObserveDraw(run, s, route.service, bits, c);
    DrawIs(s.live, route.service, ids, i, j);
    StepDraws(Mine(run, s), route, bits, i, k, score);
    run', s' := Take(run, s, c, SeenDraw(i, k, score), Drew(Mine(run, s), bits, i, k, score), Silent);
  }

  /** The comparison: the second candidate's score is read. */
  lemma {:induction false} CompareTwo(run: Trace, s: State, route: Route, bits: seq<Read>, i: nat, k: nat)
    returns (run': Trace, s': State)
    requires s == Here(run) && run.t in s.threads && Mine(run, s).route == Some(route)
    requires i < |HealthyReads(bits)| && k < |HealthyReads(bits)|
    requires Mine(run, s).pc == Comparing(bits, i, k, ScoreOf(s.live, Ref(route.service, HealthyReads(bits)[i])))
    ensures var ids := HealthyReads(bits);
            && s' == Here(run') && SameRun(run, run') && OnlyMineMoved(run, s, s') && run.t in s'.threads
            && AfterPick(Mine(run, s), Mine(run, s'), route, Some(LowerOf(s.live, route.service, ids[i], ids[k])))
  {
    var ids, th := HealthyReads(bits), Mine(run, s);
    var a, b := th.pc.score, ScoreOf(s.live, Ref(route.service, ids[k]));
    ChoseIsAfterPick(th, route, bits, if a <= b then ids[i] else ids[k], Some(Duel(ids[i], ids[k], a, b)));
    StepCompares(th, route, bits, i, k, a, b);
    run', s' := Take(run, s, Idle, SeenScore(b), Compared(th, bits, i, k, a, b), Silent);
  }

  /** The end of a Pick: alone, or by the two draws. */
  lemma {:induction false} Choose(run: Trace, s: State, route: Route, bits: seq<Read>, i: nat, j: nat,
                                  b: Option<string>)
    returns (run': Trace, s': State)
    requires Choosing(run, s, route.service, bits) && Mine(run, s).route == Some(route)
    requires |bits| == |run.u.pools[route.service]| && Chosen(s.live, route.service, bits, i, j, b)
    ensures s' == Here(run') && SameRun(run, run') && OnlyMineMoved(run, s, s') && run.t in s'.threads
    ensures AfterPick(Mine(run, s), Mine(run, s'), route, b)
  {
    if |HealthyReads(bits)| < 2 {
      run', s' := ChooseAlone(run, s, route, bits, b);
    } else {
      var run1, s1 := DrawTwo(run, s, route, bits, i, j);
      run', s' := CompareTwo(run1, s1, route, bits, i, Skip(i, j));
      MineMovesTwice(run, s, s1, s');
    }
  }

  /** A whole Pick, in a state that does not change meanwhile. */
  lemma {:induction false} TrackPick(run: Trace, s: State, home: map<Backend, Ref>, f: Face, route: Route, i: nat,
                                     j: nat, b: Option<string>)
    returns (run': Trace, s': State)
    requires Matches(run, s, home, f) && Choosing(run, s, route.service, []) && Mine(run, s).route == Some(route)
    requires Chosen(s.live, route.service, Bits(s.live, route.service, run.u.pools[route.service]), i, j, b)
    ensures SameRun(run, run') && Matches(run', s', home, f) && s'.live == s.live
    ensures AfterPick(Mine(run, s), Mine(run', s'), route, b)
  {
    var ids := run.u.pools[route.service];
    assert ids[..|ids|] == ids;
    BitsLength(s.live, route.service, ids);
    var run1, s1 := Scan(run, s, route.service, |ids|);
    run', s' := Choose(run1, s1, route, Bits(s.live, route.service, ids), i, j, b);
    MineMovesTwice(run, s, s1, s');
    MineMatches(run, s, run', s', home, f, []);
  }

  // ---------------------------------------------------------------- a forward

  /** One more forward was begun. */
  ghost predicate OneMoreAttempt(th: Thread, th': Thread, id: string, sent: Option<Fields>) {
    && |th'.attempts| == |th.attempts| + 1 && th'.attempts[..|th.attempts|] == th.attempts
    && th'.attempts[|th.attempts|].id == id && th'.attempts[|th.attempts|].headers == sent
  }

  ghost function AcquiredPc(id: string, sent: Option<Fields>): Pc {
    if sent.Some? then Forwarding(id) else Releasing(id, Failed(true))
  }

  ghost predicate Acquired(th: Thread, th': Thread, id: string, sent: Option<Fields>) {
    th' == th.(pc := AcquiredPc(id, sent), attempts := th'.attempts) && OneMoreAttempt(th, th', id, sent)
  }

  /** The choice behind what was sent: no target, or the headers of this request in some iteration order. */
  ghost predicate Targeted(req: Request, sub: string, c: Choice, sent: Option<Fields>) {
    if sent.None? then !c.parses
    else
      && c.parses && Enumerates(c.order, req.headers.Keys)
      && sent.value == Forwarded(req.headers, c.order, sub, req.rid)
  }

  lemma {:induction false} ObserveTarget(u: Setup, s: State, th: Thread, c: Choice, sent: Option<Fields>)
    requires th.pc.Acquiring? && th.verified.Some? && Targeted(th.req, th.verified.value.subject, c, sent)
    ensures Observe(u, s, th, c) == SeenTarget(sent)
  {
  }

  lemma {:induction false} StepSends(th: Thread, route: Route, id: string, sent: Option<Fields>)
    requires th.pc.Acquiring? && th.pc.id == id && th.route == Some(route)
    ensures Step(th, SeenTarget(sent)) == (Sending(th, id, sent), Acquire(Ref(route.service, id)))
  {
  }

  ghost function Sending(th: Thread, id: string, sent: Option<Fields>): Thread
    requires th.pc.Acquiring?
  {
    th.(pc := AcquiredPc(id, sent), attempts := th.attempts + [Attempt(id, th.pc.picked, th.pc.duel, sent)])
  }

  /** What acquiring and sending moves. */
  lemma {:induction false} SendMoves(run: Trace, s: State, ref: Ref, id: string, sent: Option<Fields>)
    requires run.t in s.threads && Mine(run, s).pc.Acquiring?
    ensures var th := Mine(run, s); var th' := Sending(th, id, sent);
            var s', l := Moved(run, s, th', Acquire(ref)), Look(s.live, ref);
            && OnlyLiveMoved(run, s, s', ref, l.(inflight := l.inflight + 1)) && Mine(run, s') == th'
            && th'.statuses == th.statuses && Sendings(th'.attempts) == Sendings(th.attempts) + OnWire(id, sent)
  {
    var th := Mine(run, s);
    SendingsMore(th.attempts, Attempt(id, th.pc.picked, th.pc.duel, sent));
    CountMoves(run, s, Sending(th, id, sent), ref);
  }

  lemma {:induction false} SendMatches(run: Trace, s: State, run': Trace, s': State, home: map<Backend, Ref>, f: Face,
                                       b: Backend, sent: Option<Fields>)
    requires Matches(run, s, home, f) && OwnNames(home) && b in home && b in f.seen && Mine(run, s).pc.Acquiring?
    requires s' == Here(run') == Moved(run, s, Sending(Mine(run, s), b.ID, sent), Acquire(home[b]))
             && SameRun(run, run')
    ensures var g := f.seen[b].(inflight := f.seen[b].inflight + 1);
            Matches(run', s', home, f.(seen := f.seen[b := g], sent := f.sent + OnWire(b.ID, sent)))
  {
    var l, g := Look(s.live, home[b]), f.seen[b].(inflight := f.seen[b].inflight + 1);
    SeenIsLive(s, home, f, b);
    SendMoves(run, s, home[b], b.ID, sent);
    LiveMatches(run, s, run', s', home, f, b, l.(inflight := l.inflight + 1), g, OnWire(b.ID, sent));
  }

  lemma {:induction false} TrackSend(run: Trace, s: State, home: map<Backend, Ref>, f: Face, route: Route, b: Backend,
                                     c: Choice, sent: Option<Fields>, g: Glimpse)
    returns (run': Trace, s': State)
    requires Matches(run, s, home, f) && OwnNames(home) && b in home && home[b] == Ref(route.service, b.ID)
             && b in f.seen
    requires Mine(run, s).pc.Acquiring? && Mine(run, s).pc.id == b.ID && Mine(run, s).route == Some(route)
    requires Observe(run.u, s, Mine(run, s), c) == SeenTarget(sent)
             && g == f.seen[b].(inflight := f.seen[b].inflight + 1)
    ensures SameRun(run, run') && Acquired(Mine(run, s), Mine(run', s'), b.ID, sent)
    ensures Matches(run', s', home, f.(seen := f.seen[b := g], sent := f.sent + OnWire(b.ID, sent)))
  {
    var th := Mine(run, s);
    StepSends(th, route, b.ID, sent);
    run', s' := Take(run, s, c, SeenTarget(sent), Sending(th, b.ID, sent), Acquire(home[b]));
    SendMatches(run, s, run', s', home, f, b, sent);
  }

  ghost function RepliedPc(id: string, reply: Reply): Pc {
    match reply
    case Response(code, _) => Replying(id, code)
    case TransportError(retryable, _) => Releasing(id, Failed(retryable))
  }

  lemma {:induction false} TrackReply(run: Trace, s: State, home: map<Backend, Ref>, f: Face, route: Route, b: Backend,
                                      reply: Reply, g: Glimpse)
    returns (run': Trace, s': State)
    requires Matches(run, s, home, f) && OwnNames(home) && b in home && home[b] == Ref(route.service, b.ID)
             && b in f.seen
    requires Mine(run, s).pc == Forwarding(b.ID) && Mine(run, s).route == Some(route)
    requires g == f.seen[b].(stats := Ewma.Next(f.seen[b].stats, Ewma.Record(reply.nanos)))
    ensures SameRun(run, run') && Matches(run', s', home, f.(seen := f.seen[b := g]))
    ensures Mine(run', s') == Mine(run, s).(pc := RepliedPc(b.ID, reply))
  {
    var l := Look(s.live, home[b]);
    run', s' := Take(run, s, Idle.(reply := reply), SeenReply(reply), Mine(run, s).(pc := RepliedPc(b.ID, reply)),
                     Latency(home[b], reply.nanos));
    SeenIsLive(s, home, f, b);
    LiveMatches(run, s, run', s', home, f, b, l.WithView(Ewma.Next(l.View(), Ewma.Record(reply.nanos))), g, []);
  }

  lemma {:induction false} TrackPassOn(run: Trace, s: State, home: map<Backend, Ref>, f: Face, id: string, code: int)
    returns (run': Trace, s': State)
    requires Matches(run, s, home, f) && Mine(run, s).pc == Replying(id, code) && Mine(run, s).route.Some?
    ensures SameRun(run, run') && Matches(run', s', home, f.(statuses := f.statuses + [code]))
    ensures Mine(run', s')
            == Mine(run, s).(pc := Releasing(id, Served(code)), statuses := Mine(run, s).statuses + [code])
  {
    var th := Mine(run, s);
    var th' := th.(pc := Releasing(id, Served(code)), statuses := th.statuses + [code]);
    run', s' := Take(run, s, Idle, SeenNothing, th', Silent);
  }

  /** Where a request goes when its forwards are over. */
  ghost function FinalPc(route: Route, outcome: Outcome): Pc {
    PcAfter(route, outcome, 2)
  }

  lemma {:induction false} StepReleases(th: Thread, route: Route, id: string, outcome: Outcome)
    requires th.pc == Releasing(id, outcome) && th.route == Some(route)
    ensures Step(th, SeenNothing) == (th.(pc := PcAfter(route, outcome, |th.attempts|)),
                                      Release(Ref(route.service, id)))
  {
  }

  lemma {:induction false} ReleaseMatches(run: Trace, s: State, run': Trace, s': State, home: map<Backend, Ref>,
                                          f: Face, b: Backend, pc: Pc)
    requires Matches(run, s, home, f) && OwnNames(home) && b in home && b in f.seen
    requires s' == Here(run') == Moved(run, s, Mine(run, s).(pc := pc), Release(home[b])) && SameRun(run, run')
    ensures Matches(run', s', home, f.(seen := f.seen[b := f.seen[b].(inflight := f.seen[b].inflight - 1)]))
  {
    var l, g := Look(s.live, home[b]), f.seen[b].(inflight := f.seen[b].inflight - 1);
    SeenIsLive(s, home, f, b);
    CountMoves(run, s, Mine(run, s).(pc := pc), home[b]);
    LiveMatches(run, s, run', s', home, f, b, l.(inflight := l.inflight - 1), g, []);
  }

  lemma {:induction false} TrackRelease(run: Trace, s: State, home: map<Backend, Ref>, f: Face, route: Route,
                                        b: Backend, outcome: Outcome, g: Glimpse)
    returns (run': Trace, s': State)
    requires Matches(run, s, home, f) && OwnNames(home) && b in home && home[b] == Ref(route.service, b.ID)
             && b in f.seen
    requires Mine(run, s).pc == Releasing(b.ID, outcome) && Mine(run, s).route == Some(route)
    requires g == f.seen[b].(inflight := f.seen[b].inflight - 1)
    ensures SameRun(run, run') && Matches(run', s', home, f.(seen := f.seen[b := g]))
    ensures Mine(run', s') == Mine(run, s).(pc := PcAfter(route, outcome, |Mine(run, s).attempts|))
  {
    var th, pc := Mine(run, s), PcAfter(route, outcome, |Mine(run, s).attempts|);
    StepReleases(th, route, b.ID, outcome);
    run', s' := Take(run, s, Idle, SeenNothing, th.(pc := pc), Release(home[b]));
    ReleaseMatches(run, s, run', s', home, f, b, pc);
  }

  /** The thread when the upstream's answer has been dealt with: only a response has written its status. */
  ghost function Replied(th: Thread, id: string, outcome: Outcome): Thread {
    th.(pc := Releasing(id, outcome), statuses := if outcome.Served? then th.statuses + [outcome.code] else th.statuses)
  }

  /** One more attempt, its answer dealt with. */
  ghost predicate Exchanged(th: Thread, th': Thread, id: string, outcome: Outcome) {
    && th' == Replied(th, id, outcome).(attempts := th'.attempts)
    && |th'.attempts| == |th.attempts| + 1 && th'.attempts[..|th.attempts|] == th.attempts
    && th'.attempts[|th.attempts|].id == id
  }

  lemma {:induction false} ExchangeSteps(th: Thread, th1: Thread, th2: Thread, id: string, sent: Option<Fields>,
                                         outcome: Outcome)
    requires Acquired(th, th1, id, sent) && th2 == (if sent.Some? then Replied(th1, id, outcome) else th1)
    requires sent.None? ==> outcome == Failed(true)
    ensures Exchanged(th, th2, id, outcome)
  {
  }

  /** One whole forward: one more attempt, its status if there was a response, and where it leads. */
  ghost predicate ForwardDone(th: Thread, th': Thread, route: Route, id: string, outcome: Outcome) {
    && th'.pc == PcAfter(route, outcome, |th'.attempts|)
    && |th'.attempts| == |th.attempts| + 1 && th'.attempts[..|th.attempts|] == th.attempts
    && th'.attempts[|th.attempts|].id == id
    && th'.req == th.req && th'.route == th.route && th'.verified == th.verified
    && th'.counted == th.counted && th'.authCounted == th.authCounted
    && th'.statuses == if outcome.Served? then th.statuses + [outcome.code] else th.statuses
  }

  lemma {:induction false} ForwardSteps(th: Thread, th1: Thread, th2: Thread, route: Route, id: string,
                                        outcome: Outcome)
    requires Exchanged(th, th1, id, outcome) && th2 == th1.(pc := PcAfter(route, outcome, |th1.attempts|))
    ensures ForwardDone(th, th2, route, id, outcome)
  {
  }

  // ---------------------------------------------------------------- a run of one thread in a run of the gateway

  lemma {:induction false} EffectCounted(s: State, t: nat, e: Effect, ref: Ref, l: Label, r: Reason)
    ensures var s' := Apply(s, t, e);
            && Look(s'.live, ref).inflight
               == Look(s.live, ref).inflight + One(e == Acquire(ref)) - One(e == Release(ref))
            && Count(s'.requests, l) == Count(s.requests, l) + One(e == CountRequest(l))
            && Count(s'.authFailures, r) == Count(s.authFailures, r) + One(e == CountAuth(r))
  {
  }

  /** What the thread accounts for is what has been counted since it began. */
  ghost predicate Accounted(from: State, s: State, t: nat, ref: Ref, l: Label, r: Reason) {
    && t in s.threads && Bookkeeping(s.threads[t])
    && Look(s.live, ref).inflight == Look(from.live, ref).inflight + One(Active(s.threads[t], ref))
    && Count(s.requests, l) == Count(from.requests, l) + One(l in s.threads[t].counted)
    && Count(s.authFailures, r) == Count(from.authFailures, r) + One(r in s.threads[t].authCounted)
  }

  lemma {:induction false} ActAccounted(u: Setup, from: State, s: State, t: nat, c: Choice, ref: Ref, l: Label,
                                        r: Reason)
    requires Accounted(from, s, t, ref, l, r)
    ensures Accounted(from, Next(u, s, Act(t, c)), t, ref, l, r)
  {
    var th := s.threads[t];
    var o := Observe(u, s, th, c);
    ObservedFairly(u, s, th, c);
    StepKeepsBookkeeping(th, o);
    StepActive(th, o, ref);
    StepCounted(th, o, l);
    StepAuthCounted(th, o, r);
    EffectCounted(s, t, Step(th, o).1, ref, l, r);
  }

  lemma {:induction false} ActsAccounted(u: Setup, from: State, t: nat, choices: seq<Choice>, ref: Ref, l: Label,
                                         r: Reason)
    requires t in from.threads && exists req :: from.threads[t] == NewThread(req)
    ensures Accounted(from, Acts(u, from, t, choices), t, ref, l, r)
  {
    if choices != [] {
      var n := |choices| - 1;
      ActsAccounted(u, from, t, choices[..n], ref, l, r);
      ActAccounted(u, from, Acts(u, from, t, choices[..n]), t, choices[n], ref, l, r);
    }
  }

  /** A finished request leaves every in-flight count as it was, and has moved each counter by what it counted. */
  lemma {:induction false} FinishedAccounts(run: Trace, s: State, req: Request, now: int, ref: Ref, l: Label, r: Reason)
    requires run.from == Begun(run.u, s, run.t, req, now) && run.t !in s.threads && Mine(run, Here(run)).pc == Finished
    ensures var s', th := Here(run), Mine(run, Here(run));
            && Look(s'.live, ref).inflight == Look(s.live, ref).inflight
            && Count(s'.requests, l) == Count(s.requests, l) + One(l in th.counted)
            && Count(s'.authFailures, r) == Count(s.authFailures, r) + One(r in th.authCounted)
  {
    assert run.from.threads[run.t] == NewThread(req);
    ActsAccounted(run.u, run.from, run.t, run.choices, ref, l, r);
  }

  function ActEvents(t: nat, choices: seq<Choice>): (events: seq<Event>) {
    seq(|choices|, i requires 0 <= i < |choices| => Act(t, choices[i]))
  }

  lemma {:induction false} ActsAreEvents(u: Setup, events: seq<Event>, t: nat, choices: seq<Choice>)
    ensures Run(u, events + ActEvents(t, choices)) == Acts(u, Run(u, events), t, choices)
  {
    var all := events + ActEvents(t, choices);
    if choices == [] {
      assert all == events;
    } else {
      var n := |choices| - 1;
      ActsAreEvents(u, events, t, choices[..n]);
      assert all[..|all| - 1] == events + ActEvents(t, choices[..n]);
    }
  }

  lemma {:induction false} RunOneMore(u: Setup, events: seq<Event>, e: Event)
    ensures Run(u, events + [e]) == Next(u, Run(u, events), e)
  {
    assert (events + [e])[..|events|] == events;
  }

  /** A request served on a reachable state is a continuation of that state's run. */
  lemma {:induction false} ServedInRun(run: Trace, events: seq<Event>, req: Request, now: int) returns (all: seq<Event>)
    requires run.from == Begun(run.u, Run(run.u, events), run.t, req, now)
    ensures events <= all && Run(run.u, all) == Here(run)
  {
    var tick, arrive := Tick(Until(Run(run.u, events), now)), Arrive(run.t, req);
    RunOneMore(run.u, events, tick);
    RunOneMore(run.u, events + [tick], arrive);
    all := events + [tick] + [arrive] + ActEvents(run.t, run.choices);
    ActsAreEvents(run.u, events + [tick] + [arrive], run.t, run.choices);
  }

  lemma {:induction false} ActsKeepRequest(u: Setup, from: State, t: nat, choices: seq<Choice>)
    requires t in from.threads
    ensures var s := Acts(u, from, t, choices); t in s.threads && s.threads[t].req == from.threads[t].req
  {
    if choices != [] {
      var n := |choices| - 1;
      ActsKeepRequest(u, from, t, choices[..n]);
      var s := Acts(u, from, t, choices[..n]);
      StepKeepsRequest(s.threads[t], Observe(u, s, s.threads[t], choices[n]));
    }
  }

  lemma {:induction false} StepKeepsRequest(th: Thread, o: Seen)
    ensures Step(th, o).0.req == th.req
  {
  }

  /** What at most two attempts, to different backends, put on the wire. */
  lemma {:induction false} FewSendings(attempts: seq<Attempt>, p: Fields -> bool)
    requires |attempts| <= 2 && (|attempts| == 2 ==> attempts[0].id != attempts[1].id)
    requires forall k | 0 <= k < |attempts| && attempts[k].headers.Some? :: p(attempts[k].headers.value)
    ensures var sent := Sendings(attempts);
            && |sent| <= |attempts| && (|sent| == 2 ==> sent[0].id != sent[1].id)
            && (forall k | 0 <= k < |sent| :: p(sent[k].headers))
            && (forall k | 0 <= k < |attempts| && attempts[k].headers.Some? ::
                  Sent(attempts[k].id, attempts[k].headers.value) in sent)
  {
    if |attempts| == 1 {
      SendingsOfOne(attempts[0]);
      assert attempts == [attempts[0]];
    } else if |attempts| == 2 {
      SendingsOfOne(attempts[0]);
      SendingsMore([attempts[0]], attempts[1]);
      assert attempts == [attempts[0]] + [attempts[1]];
    }
  }

  lemma {:induction false} SendingsOfOne(a: Attempt)
    ensures Sendings([a]) == OnWire(a.id, a.headers)
  {
    SendingsMore([], a);
    assert [] + [a] == [a];
  }

  ghost function Proper(th: Thread): Fields -> bool {
    h => th.verified.Some? && ProperlyForwarded(th.req.headers, th.verified.value.subject, th.req.rid, h)
  }

  lemma {:induction false} ProperAttempts(th: Thread)
    requires th.attempts != [] ==> GoodAttempts(th)
    ensures forall k | 0 <= k < |th.attempts| && th.attempts[k].headers.Some? ::
              Proper(th)(th.attempts[k].headers.value)
  {
    forall k | 0 <= k < |th.attempts| && th.attempts[k].headers.Some?
      ensures Proper(th)(th.attempts[k].headers.value)
    {
      assert GoodAttempt(th.req, th.verified.value, th.attempts[k]);
    }
  }

  /**
   * The wire shows at most two requests, to different backends, with proper headers, and every forward that had a
   * target.
   */
  ghost predicate WireRight(th: Thread, sent: seq<Sent>) {
    && |sent| <= 2 && (|sent| == 2 ==> sent[0].id != sent[1].id)
    && (forall k | 0 <= k < |sent| :: Proper(th)(sent[k].headers))
    && (forall k | 0 <= k < |th.attempts| && th.attempts[k].headers.Some? ::
          Sent(th.attempts[k].id, th.attempts[k].headers.value) in sent)
  }

  lemma {:induction false} SendingsRight(th: Thread)
    requires Bookkeeping(th) && (th.attempts != [] ==> GoodAttempts(th))
    ensures WireRight(th, Sendings(th.attempts)) && (LastWasSent(th) ==> Sendings(th.attempts) != [])
    ensures Sendings(th.attempts) != [] ==> th.attempts != []
  {
    ProperAttempts(th);
    FewSendings(th.attempts, Proper(th));
  }

  /**
   * What serving a request on any reachable state amounts to: one more status, the right one for a refusal;
   * one more RequestsTotal, under a label that tells what happened, and AuthFailures in step; at most two
   * requests on the wire, to different backends, with proper headers; and none of them unless the request had
   * the first matching route, its scope, and a token it alone owns an acceptance of.
   */
  lemma {:induction false} ServedRequest(run: Trace, events: seq<Event>, req: Request, now: int)
    requires run.from == Begun(run.u, Run(run.u, events), run.t, req, now) && run.t !in Run(run.u, events).threads
    requires Mine(run, Here(run)).pc == Finished
    ensures var th := Mine(run, Here(run)); var sent := Sendings(th.attempts);
            && th.req == req && |th.statuses| == 1 && |th.counted| == 1 && Tells(th, th.counted[0])
            && (th.counted[0].decision == Denied ==> RightStatus(th.counted[0].reason, th.statuses[0]))
            && th.authCounted == (if th.counted[0].reason.IsAuth() then [th.counted[0].reason] else [])
            && WireRight(th, sent) && (th.counted[0].reason == Success ==> sent != [])
            && (sent != [] ==>
                  && th.route == FirstMatch(run.u.routes, req.path) && Cleared(th)
                  && TokenAccepted(run.u, Here(run).replay.log, th))
  {
    var all := ServedInRun(run, events, req, now);
    assert run.from.threads[run.t] == NewThread(req);
    ActsKeepRequest(run.u, run.from, run.t, run.choices);
    ThreadBookkeeping(run.u, all, run.t);
    ThreadProvenance(run.u, all, run.t);
    EveryRequest(run.u, all, run.t);
    SendingsRight(Mine(run, Here(run)));
  }
}
