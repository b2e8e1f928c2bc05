/**
 * The handler as it runs: objects updated in place.  Each method carries along, as ghost state, a state
 * of module Gateway that the objects show, and moves it only by events of that machine.  So serving a
 * request is a run of one of the machine's threads, and inherits what every run of the gateway keeps.
 */
module Handlers {
  import Ewma
  import opened Common
  import opened Gateway
  import opened HandlerRuns
  import opened Headers
  import opened Pools
  import opened Routing
  import opened TwoChoices
  import opened Verifiers

  class Metrics {
    var requests: map<Label, int>
    var authFailures: map<Reason, int>

    constructor ()
      ensures requests == map[] && authFailures == map[]
    {
      requests, authFailures := map[], map[];
    }

    method CountRequest(l: Label)
      modifies this
      ensures requests == old(requests)[l := Count(old(requests), l) + 1] && authFailures == old(authFailures)
    {
      requests := requests[l := Count(requests, l) + 1];
    }

    method CountAuth(r: Reason)
      modifies this
      ensures authFailures == old(authFailures)[r := Count(old(authFailures), r) + 1] && requests == old(requests)
    {
      authFailures := authFailures[r := Count(authFailures, r) + 1];
    }
  }

  class ResponseWriter {
    const headers: HeaderMap
    var statuses: seq<int>

    constructor ()
      ensures statuses == [] && fresh(headers) && headers.fields == map[]
    {
      headers := new HeaderMap();
      statuses := [];
    }

    method WriteHeader(code: int)
      modifies `statuses
      ensures statuses == old(statuses) + [code]
    {
      statuses := statuses + [code];
    }
  }

  /** The clients towards the backends, seen through what they have sent. */
  class Wire {
    var sent: seq<Sent>

    constructor ()
      ensures sent == []
    {
      sent := [];
    }

    method Do(id: string, headers: Fields)
      modifies this
      ensures sent == old(sent) + [Sent(id, headers)]
    {
      sent := sent + [Sent(id, headers)];
    }
  }

  function Ids(bs: seq<Backend>): (ids: seq<string>) {
    if bs == [] then [] else Ids(bs[..|bs| - 1]) + [bs[|bs| - 1].ID]
  }

  lemma {:induction false} OneMoreBit(live: map<Ref, Live>, service: string, ids: seq<string>, id: string)
    ensures var up := Look(live, Ref(service, id)).node.healthy;
            HealthyReads(Bits(live, service, ids + [id]))
            == HealthyReads(Bits(live, service, ids)) + (if up then [id] else [])
  {
    var bits := Bits(live, service, ids + [id]);
    assert (ids + [id])[..|ids|] == ids;
    assert bits[..|bits| - 1] == Bits(live, service, ids);
  }

  /** The healthy bits are the IDs of the healthy snapshot, in order. */
  lemma {:induction false} HealthyBitsMatch(bs: seq<Backend>, live: map<Ref, Live>, service: string)
    requires forall b | b in bs :: Look(live, Ref(service, b.ID)).node.healthy == b.healthy
    ensures HealthyReads(Bits(live, service, Ids(bs))) == Ids(HealthyOf(bs))
  {
    if bs != [] {
      var n := |bs| - 1;
      var before, last := bs[..n], bs[n];
      assert last in bs;
      HealthyBitsMatch(before, live, service);
      OneMoreBit(live, service, Ids(before), last.ID);
      if last.healthy {
        var h := HealthyOf(before) + [last];
        assert HealthyOf(bs) == h && h[..|h| - 1] == HealthyOf(before);
      } else {
        assert HealthyOf(bs) == HealthyOf(before);
      }
    }
  }

  lemma {:induction false} IdsAt(bs: seq<Backend>, k: nat)
    requires k < |bs|
    ensures |Ids(bs)| == |bs| && Ids(bs)[k] == bs[k].ID
  {
    var n := |bs| - 1;
    if n > 0 {
      IdsAt(bs[..n], if k < n then k else 0);
    }
  }

  /** The score of a backend is that of its live state. */
  ghost predicate SameBackend(live: map<Ref, Live>, service: string, b: Backend)
    reads b
  {
    var l := Look(live, Ref(service, b.ID));
    l.node.healthy == b.healthy && Score(l.ewmaMs, l.inflight) == b.CurrentScore()
  }

  /** The healthy snapshot, seen from the machine: IDs and scores. */
  lemma {:induction false} SnapshotAt(h: seq<Backend>, live: map<Ref, Live>, service: string, k: nat)
    requires k < |h| && SameBackend(live, service, h[k])
    ensures |Ids(h)| == |h| && Ids(h)[k] == h[k].ID && ScoreOf(live, Ref(service, h[k].ID)) == ScoresOf(h)[k]
  {
    IdsAt(h, k);
  }

  /** The winner of a draw, seen from the machine. */
  lemma {:induction false} WinnerIsLower(h: seq<Backend>, live: map<Ref, Live>, service: string, i: nat, j: nat)
    requires i < |h| && j + 1 < |h| && forall x | x in h :: SameBackend(live, service, x)
    ensures |Ids(h)| == |h|
    ensures h[DrawWinner(ScoresOf(h), i, j)].ID == LowerOf(live, service, Ids(h)[i], Ids(h)[Skip(i, j)])
  {
    assert h[i] in h && h[Skip(i, j)] in h;
    SnapshotAt(h, live, service, i);
    SnapshotAt(h, live, service, Skip(i, j));
  }

  /** What Pick returns is what the machine chooses from the same bits, scores and draws. */
  lemma {:induction false} PickIsChosen(bs: seq<Backend>, live: map<Ref, Live>, service: string, i: nat, j: nat,
                                        b: Backend?)
    requires forall x | x in bs :: SameBackend(live, service, x)
    requires var h := HealthyOf(bs);
             if |h| == 0 then b == null
             else if |h| == 1 then b == h[0]
             else i < |h| && j + 1 < |h| && b == h[DrawWinner(ScoresOf(h), i, j)]
    ensures Chosen(live, service, Bits(live, service, Ids(bs)), i, j, if b == null then None else Some(b.ID))
  {
    var h := HealthyOf(bs);
    HealthyBitsMatch(bs, live, service);
    if |h| == 1 {
      IdsAt(h, 0);
    } else if |h| >= 2 {
      WinnerIsLower(h, live, service, i, j);
    }
  }

  /** Pick, with the draws it made. */
  method PickAny(pool: Pool, first: nat -> nat, second: nat -> nat) returns (b: Backend?, ghost i: nat, ghost j: nat)
    requires IsIntn(first) && IsIntn(second)
    ensures b != null ==> b in pool.backends && b.healthy
    ensures var h := HealthyOf(pool.backends);
            if |h| == 0 then b == null
            else if |h| == 1 then b == h[0]
            else i < |h| && j + 1 < |h| && b == h[DrawWinner(ScoresOf(h), i, j)]
  {
    b := pool.Pick(first, second);
    ghost var h := HealthyOf(pool.backends);
    i, j := if |h| < 2 then 0 else first(|h|), if |h| < 2 then 0 else second(|h| - 1);
    if |h| == 0 {
      assert forall x | x in pool.backends :: !x.healthy;
    }
  }

  datatype Upstream = BadTarget | Answer(reply: Reply, headers: Fields)

  /** The environment of one request: the clock, the four draws, and how up to two forwards end. */
  datatype Env = Env(now: int, draws: seq<nat -> nat>, upstreams: seq<Upstream>)

  ghost predicate ValidEnv(env: Env) {
    && |env.draws| == 4 && |env.upstreams| == 2
    && forall k | 0 <= k < 4 :: IsIntn(env.draws[k])
  }

  function OutcomeOf(up: Upstream): (o: Outcome) {
    match up
    case BadTarget => Failed(true)
    case Answer(Response(code, _), _) => Served(code)
    case Answer(TransportError(retryable, _), _) => Failed(retryable)
  }

  ghost function Glimpses(bs: set<Backend>): map<Backend, Glimpse>
    reads bs
  {
    map b | b in bs :: Glimpse(b.View(), b.inflight)
  }

  /** What a thread has done when its route is known and nothing was counted or answered. */
  ghost predicate Underway(th: Thread, req: Request, route: Route) {
    && th.req == req && th.route == Some(route)
    && th.statuses == [] && th.counted == [] && th.authCounted == []
  }

  /** As above, with the identity to forward under. */
  ghost predicate Identified(th: Thread, req: Request, route: Route, sub: string) {
    Underway(th, req, route) && th.verified.Some? && th.verified.value.subject == sub
  }

  /** What a second Pick leaves: the same request, on its way to another backend or over. */
  lemma {:induction false} RetryPicked(th: Thread, th': Thread, req: Request, route: Route, sub: string,
                                       failed: Outcome, alt: Option<string>)
    requires AfterPick(th, th', route, alt) && Identified(th, req, route, sub) && |th.attempts| == 1 && failed.Failed?
    ensures Identified(th', req, route, sub) && th'.attempts == th.attempts
    ensures if alt.None? || alt.value == th.attempts[0].id then th'.pc == FinalPc(route, failed)
            else th'.pc.Acquiring? && th'.pc.id == alt.value
  {
  }

  /** What a second forward leaves. */
  lemma {:induction false} RetryForwarded(th: Thread, th': Thread, route: Route, id: string, outcome: Outcome)
    requires ForwardDone(th, th', route, id, outcome) && |th.attempts| == 1
    ensures th'.pc == FinalPc(route, outcome) && |th'.attempts| == 2 && th'.attempts[1].id == id
  {
  }

  class Handler {
    const routes: seq<Route>
    const verifier: Verifier
    const pools: map<string, Pool>
    const metrics: Metrics
    const wire: Wire
    ghost const home: map<Backend, Ref>
    ghost const members: set<Backend>

    /** A backend object is in one pool at one place, and its ID is its own there. */
    constructor (routes: seq<Route>, verifier: Verifier, pools: map<string, Pool>, metrics: Metrics, wire: Wire,
                 ghost home: map<Backend, Ref>)
      requires forall i | 0 <= i < |routes| :: routes[i].service in pools
      requires forall svc, b | svc in pools && b in pools[svc].backends :: b in home && home[b] == Ref(svc, b.ID)
      requires OwnNames(home)
      ensures this.routes == routes && this.verifier == verifier && this.pools == pools
      ensures this.metrics == metrics && this.wire == wire && this.home == home
      ensures Valid()
    {
      this.routes, this.verifier, this.pools := routes, verifier, pools;
      this.metrics, this.wire := metrics, wire;
      this.home := home;
      this.members := home.Keys;
    }

    /** Every route's service has a pool, which the code does not check, and each backend object has its own name. */
    ghost predicate Valid() {
      && members == home.Keys && OwnNames(home)
      && (forall i | 0 <= i < |routes| :: routes[i].service in pools)
      && (forall svc, b | svc in pools && b in pools[svc].backends :: b in home && home[b] == Ref(svc, b.ID))
    }

    /** The machine's setup is this handler's configuration. */
    ghost predicate Fits(u: Setup) {
      && u.platform == verifier.platform && u.cfg == verifier.cfg
      && u.nonceTtl == verifier.nonces.ttl && u.routes == routes
      && u.pools.Keys == pools.Keys && forall svc | svc in pools :: u.pools[svc] == Ids(pools[svc].backends)
    }

    ghost function FaceNow(w: ResponseWriter): Face
      reads metrics, verifier.nonces, members, w, wire
    {
      Face(verifier.nonces.items, verifier.nonces.ttl, metrics.requests, metrics.authFailures, Glimpses(members),
           w.statuses, wire.sent)
    }

    /** The objects show this state of the machine. */
    ghost predicate Shows(s: State, w: ResponseWriter)
      reads metrics, verifier.nonces, members, w, wire
    {
      Shown(s, home, FaceNow(w))
    }

    /** The objects, the writer and the wire are where the run of thread `th` says. */
    ghost predicate InStep(run: Trace, th: Thread, w: ResponseWriter)
      reads metrics, verifier.nonces, members, w, wire
    {
      Valid() && Fits(run.u) && Matches(run, Here(run), home, FaceNow(w)) && th == Mine(run, Here(run))
    }

    /** Objects as NewPool, newNonceCache and the metrics registry make them show the machine's initial state. */
    lemma ShowsInit(u: Setup, w: ResponseWriter)
      requires Fits(u) && verifier.nonces.items == map[] && metrics.requests == map[] && metrics.authFailures == map[]
      requires forall b | b in members :: b.View() == Ewma.Fresh && b.inflight == 0
      ensures Shows(Init(u), w)
    {
    }

    method Match(path: string) returns (r: Option<Route>)
      ensures r == FirstMatch(routes, path)
    {
      for i := 0 to |routes|
        invariant FirstMatch(routes, path) == FirstMatch(routes[i..], path)
      {
        if routes[i].prefix <= path {
          return Some(routes[i]);
        }
        assert routes[i..][1..] == routes[i + 1..];
      }
      assert routes[|routes|..] == [];
      return None;
    }

    /** RequestsTotal, and the step that counts it. */
    method CountRequest(w: ResponseWriter, l: Label, ghost status: int, ghost auth: bool, ghost run: Trace,
                        ghost th: Thread)
      returns (ghost run': Trace, ghost th': Thread)
      requires InStep(run, th, w) && th.pc == Counting(l, status, auth)
      modifies metrics
      ensures w.headers.fields == old(w.headers.fields)
      ensures InStep(run', th', w) && SameRun(run, run')
      ensures verifier.nonces.items == old(verifier.nonces.items)
      ensures th' == th.(counted := th.counted + [l], pc := AfterCount(l, status, auth))
    {
      ghost var f := FaceNow(w);
      metrics.CountRequest(l);
      assert FaceNow(w) == f.(requests := f.requests[l := Count(f.requests, l) + 1]);
      ghost var s';
      run', s' := TrackCount(run, Here(run), home, f, l, status, auth);
      th' := Mine(run', s');
    }

    /** AuthFailures, and the step that counts it. */
    method CountAuth(w: ResponseWriter, reason: Reason, ghost status: int, ghost run: Trace, ghost th: Thread)
      returns (ghost run': Trace, ghost th': Thread)
      requires InStep(run, th, w) && th.pc == CountingAuth(reason, status)
      modifies metrics
      ensures w.headers.fields == old(w.headers.fields)
      ensures InStep(run', th', w) && SameRun(run, run')
      ensures verifier.nonces.items == old(verifier.nonces.items)
      ensures th' == th.(authCounted := th.authCounted + [reason], pc := Erroring(status))
    {
      ghost var f := FaceNow(w);
      metrics.CountAuth(reason);
      assert FaceNow(w) == f.(authFailures := f.authFailures[reason := Count(f.authFailures, reason) + 1]);
      ghost var s';
      run', s' := TrackCountAuth(run, Here(run), home, f, reason, status);
      th' := Mine(run', s');
    }

    /** http.Error, and the step that writes the status. */
    method WriteError(w: ResponseWriter, status: int, ghost run: Trace, ghost th: Thread)
      returns (ghost run': Trace, ghost th': Thread)
      requires InStep(run, th, w) && th.pc == Erroring(status)
      modifies w`statuses
      ensures w.headers.fields == old(w.headers.fields)
      ensures InStep(run', th', w) && SameRun(run, run')
      ensures verifier.nonces.items == old(verifier.nonces.items)
      ensures th' == th.(statuses := th.statuses + [status], pc := Finished)
    {
      ghost var f := FaceNow(w);
      w.WriteHeader(status);
      ghost var s';
      run', s' := TrackError(run, Here(run), home, f, status);
      th' := Mine(run', s');
    }

    /** Count a refusal in both counters, then answer it. */
    method DenyAuth(w: ResponseWriter, route: Route, reason: Reason, ghost run: Trace, ghost th: Thread)
      returns (ghost run': Trace, ghost th': Thread)
      requires InStep(run, th, w) && th.pc == Counting(Label(route.prefix, Denied, reason), StatusOf(reason), true)
      requires reason.IsAuth()
      modifies metrics, w`statuses
      ensures w.headers.fields == old(w.headers.fields)
      ensures InStep(run', th', w) && SameRun(run, run') && th'.pc == Finished
      ensures verifier.nonces.items == old(verifier.nonces.items)
    {
      run', th' := CountRequest(w, Label(route.prefix, Denied, reason), StatusOf(reason), true, run, th);
      run', th' := CountAuth(w, reason, StatusOf(reason), run', th');
      var status := 401;
      if reason == MissingScope {
        status := 403;
      }
      run', th' := WriteError(w, status, run', th');
    }

    /** Count a refusal that is not about authentication, and answer it. */
    method Refuse(w: ResponseWriter, l: Label, status: int, ghost run: Trace, ghost th: Thread)
      returns (ghost run': Trace, ghost th': Thread)
      requires InStep(run, th, w) && th.pc == Counting(l, status, false) && status != 0
      modifies metrics, w`statuses
      ensures w.headers.fields == old(w.headers.fields)
      ensures InStep(run', th', w) && SameRun(run, run') && th'.pc == Finished
      ensures verifier.nonces.items == old(verifier.nonces.items)
    {
      run', th' := CountRequest(w, l, status, false, run, th);
      run', th' := WriteError(w, status, run', th');
    }

    /** This backend object is the one the route's service knows by its ID. */
    ghost predicate Serves(b: Backend, route: Route) {
      b in members && b in home && home[b] == Ref(route.service, b.ID)
    }

    /** The members of a pool are as the live states say. */
    lemma MembersShown(route: Route, live: map<Ref, Live>)
      requires Valid() && Pictured(Glimpses(members), home, live) && route.service in pools
      ensures forall x | x in pools[route.service].backends :: Serves(x, route) && SameBackend(live, route.service, x)
    {
      forall x | x in pools[route.service].backends
        ensures Serves(x, route) && SameBackend(live, route.service, x)
      {
        assert x in home && home[x] == Ref(route.service, x.ID);
        assert Glimpses(members)[x] == Glimpse(x.View(), x.inflight);
      }
    }

    /** Pick from the route's pool, whose bits and scores are those of a machine state the objects show. */
    method ChooseFrom(route: Route, first: nat -> nat, second: nat -> nat, ghost live: map<Ref, Live>)
      returns (b: Backend?, ghost i: nat, ghost j: nat)
      requires Valid() && Pictured(Glimpses(members), home, live)
      requires IsIntn(first) && IsIntn(second) && route.service in pools
      ensures b != null ==> Serves(b, route) && b.healthy
      ensures Chosen(live, route.service, Bits(live, route.service, Ids(pools[route.service].backends)), i, j,
                     if b == null then None else Some(b.ID))
    {
      MembersShown(route, live);
      b, i, j := PickAny(pools[route.service], first, second);
      PickIsChosen(pools[route.service].backends, live, route.service, i, j, b);
    }

    /** A Pick, and the steps that read the bits, draw and compare. */
    method PickFrom(w: ResponseWriter, route: Route, first: nat -> nat, second: nat -> nat, ghost run: Trace,
                    ghost th: Thread)
      returns (b: Backend?, ghost run': Trace, ghost th': Thread)
      requires InStep(run, th, w) && IsIntn(first) && IsIntn(second)
      requires th.pc == Picking([]) && th.route == Some(route) && route.service in pools
      ensures w.headers.fields == old(w.headers.fields)
      ensures InStep(run', th', w) && SameRun(run, run')
      ensures b != null ==> Serves(b, route) && b.healthy
      ensures AfterPick(th, th', route, if b == null then None else Some(b.ID))
    {
      ghost var i, j;
      b, i, j := ChooseFrom(route, first, second, Here(run).live);
      ghost var s';
      run', s' := TrackPick(run, Here(run), home, FaceNow(w), route, i, j, if b == null then None else Some(b.ID));
      th' := Mine(run', s');
    }

    /** Acquire, Release and RecordLatency on one member, seen from all of them. */
    method AcquireMember(b: Backend)
      requires b in members
      modifies b
      ensures Glimpses(members) == old(Glimpses(members))[b := Glimpse(old(b.View()), old(b.inflight) + 1)]
      ensures b.inflight == old(b.inflight) + 1 && b.View() == old(b.View())
    {
      b.Acquire();
    }

    method ReleaseMember(b: Backend)
      requires b in members
      modifies b
      ensures Glimpses(members) == old(Glimpses(members))[b := Glimpse(old(b.View()), old(b.inflight) - 1)]
      ensures b.inflight == old(b.inflight) - 1 && b.View() == old(b.View())
    {
      b.Release();
    }

    method RecordMember(b: Backend, nanos: int)
      requires b in members
      modifies b
      ensures Glimpses(members)
              == old(Glimpses(members))[b := Glimpse(Ewma.Next(old(b.View()), Ewma.Record(nanos)), old(b.inflight))]
      ensures b.inflight == old(b.inflight) && b.View() == Ewma.Next(old(b.View()), Ewma.Record(nanos))
    {
      b.RecordLatency(nanos);
    }

    /** Build the request and send it, unless its target is malformed. */
    method Emit(req: Request, b: Backend, sub: string, up: Upstream)
      returns (ghost c: Choice, ghost sent: Option<Fields>)
      modifies wire
      ensures wire.sent == old(wire.sent) + OnWire(b.ID, sent)
      ensures sent.Some? == up.Answer? && Targeted(req, sub, c, sent)
    {
      c, sent := Idle, None;
      if up.Answer? {
        var h;
        ghost var order;
        h, order := BuildHeaders(req, sub);
        wire.Do(b.ID, h);
        c, sent := Idle.(parses := true, order := order), Some(h);
      }
    }

    /** Acquire the backend, then send. */
    method Ship(req: Request, w: ResponseWriter, b: Backend, sub: string, up: Upstream)
      returns (ghost c: Choice, ghost sent: Option<Fields>)
      requires b in members
      modifies b, wire
      ensures var f := old(FaceNow(w));
              FaceNow(w) == f.(seen := f.seen[b := Glimpse(old(b.View()), old(b.inflight) + 1)],
                               sent := f.sent + OnWire(b.ID, sent))
      ensures sent.Some? == up.Answer? && Targeted(req, sub, c, sent)
    {
      AcquireMember(b);
      c, sent := Emit(req, b, sub, up);
    }

    /** The same, and the step that acquires and sends. */
    method Send(req: Request, w: ResponseWriter, route: Route, b: Backend, sub: string, up: Upstream, ghost run: Trace,
                ghost th: Thread)
      returns (ghost sent: Option<Fields>, ghost run': Trace, ghost th': Thread)
      requires InStep(run, th, w) && Identified(th, req, route, sub) && Serves(b, route)
      requires th.pc.Acquiring? && th.pc.id == b.ID
      modifies b, wire
      ensures InStep(run', th', w) && SameRun(run, run')
      ensures verifier.nonces.items == old(verifier.nonces.items)
      ensures sent.Some? == up.Answer? && Acquired(th, th', b.ID, sent)
    {
      ghost var f := FaceNow(w);
      ghost var c;
      c, sent := Ship(req, w, b, sub, up);
      ObserveTarget(run.u, Here(run), th, c, sent);
      ghost var s';
      run', s' := TrackSend(run, Here(run), home, f, route, b, c, sent, f.seen[b].(inflight := f.seen[b].inflight + 1));
      th' := Mine(run', s');
    }

    /** The upstream answered, or failed to: its latency is recorded. */
    method RecordReply(w: ResponseWriter, route: Route, b: Backend, reply: Reply, ghost run: Trace, ghost th: Thread)
      returns (ghost run': Trace, ghost th': Thread)
      requires InStep(run, th, w) && Serves(b, route) && th.route == Some(route) && th.pc == Forwarding(b.ID)
      modifies b
      ensures w.statuses == old(w.statuses)
      ensures InStep(run', th', w) && SameRun(run, run')
      ensures verifier.nonces.items == old(verifier.nonces.items)
      ensures th' == th.(pc := RepliedPc(b.ID, reply))
    {
      ghost var f := FaceNow(w);
      RecordMember(b, reply.nanos);
      ghost var s';
      run', s' := TrackReply(run, Here(run), home, f, route, b, reply, Glimpse(b.View(), b.inflight));
      th' := Mine(run', s');
    }

    /** Pass a response on to the client. */
    method PassOn(w: ResponseWriter, id: string, code: int, headers: Fields, ghost run: Trace, ghost th: Thread)
      returns (ghost run': Trace, ghost th': Thread)
      requires InStep(run, th, w) && th.route.Some? && th.pc == Replying(id, code)
      modifies w`statuses, w.headers
      ensures InStep(run', th', w) && SameRun(run, run')
      ensures verifier.nonces.items == old(verifier.nonces.items)
      ensures th' == th.(pc := Releasing(id, Served(code)), statuses := th.statuses + [code])
      ensures Values(w.headers.fields, UPSTREAM) == [id] && KeepsId(old(w.headers.fields), w.headers.fields)
      ensures w.statuses == old(w.statuses) + [code]
    {
      ghost var f := FaceNow(w);
      Respond(w, code, headers, id);
      ghost var s';
      run', s' := TrackPassOn(run, Here(run), home, f, id, code);
      th' := Mine(run', s');
    }

    method Release(w: ResponseWriter, route: Route, b: Backend, ghost outcome: Outcome, ghost run: Trace,
                   ghost th: Thread)
      returns (ghost run': Trace, ghost th': Thread)
      requires InStep(run, th, w) && Serves(b, route) && th.route == Some(route)
      requires th.pc == Releasing(b.ID, outcome)
      modifies b
      ensures InStep(run', th', w) && SameRun(run, run')
      ensures verifier.nonces.items == old(verifier.nonces.items)
      ensures th' == th.(pc := PcAfter(route, outcome, |th.attempts|)) && w.headers.fields == old(w.headers.fields)
    {
      ghost var f := FaceNow(w);
      ReleaseMember(b);
      ghost var s';
      assert FaceNow(w) == f.(seen := f.seen[b := Glimpse(b.View(), b.inflight)]);
      run', s' := TrackRelease(run, Here(run), home, f, route, b, outcome, Glimpse(b.View(), b.inflight));
      th' := Mine(run', s');
    }

    /** What comes back: the latency is recorded, and only a response touches the writer. */
    method Receive(w: ResponseWriter, route: Route, b: Backend, up: Upstream, ghost run: Trace, ghost th: Thread)
      returns (outcome: Outcome, ghost run': Trace, ghost th': Thread)
      requires InStep(run, th, w) && Serves(b, route) && th.route == Some(route)
      requires th.pc == Forwarding(b.ID) && up.Answer?
      modifies b, w`statuses, w.headers
      ensures InStep(run', th', w) && SameRun(run, run') && outcome == OutcomeOf(up)
      ensures verifier.nonces.items == old(verifier.nonces.items)
      ensures th' == Replied(th, b.ID, outcome)
      ensures w.statuses == if up.reply.Response? then old(w.statuses) + [up.reply.code] else old(w.statuses)
      ensures Written(old(w.headers.fields), w.headers.fields, b.ID, outcome)
    {
      run', th' := RecordReply(w, route, b, up.reply, run, th);
      match up.reply {
        case TransportError(retryable, _) =>
          outcome := Failed(retryable);
        case Response(code, _) =>
          run', th' := PassOn(w, b.ID, code, up.headers, run', th');
          outcome := Served(code);
      }
    }

    /** Send, and deal with the answer. */
    method Exchange(req: Request, w: ResponseWriter, route: Route, b: Backend, sub: string, up: Upstream,
                    ghost run: Trace, ghost th: Thread)
      returns (outcome: Outcome, ghost run': Trace, ghost th': Thread)
      requires InStep(run, th, w) && Identified(th, req, route, sub) && Serves(b, route)
      requires th.pc.Acquiring? && th.pc.id == b.ID
      modifies b, wire, w`statuses, w.headers
      ensures InStep(run', th', w) && SameRun(run, run') && outcome == OutcomeOf(up)
              && Exchanged(th, th', b.ID, outcome)
      ensures verifier.nonces.items == old(verifier.nonces.items)
      ensures Written(old(w.headers.fields), w.headers.fields, b.ID, outcome)
    {
      ghost var sent;
      sent, run', th' := Send(req, w, route, b, sub, up, run, th);
      ghost var th1 := th';
      outcome := Failed(true);
      if up.Answer? {
        outcome, run', th' := Receive(w, route, b, up, run', th');
      }
      ExchangeSteps(th, th1, th', b.ID, sent, outcome);
    }

    /**
     * One forward, as the thread's steps from Acquire to Release.  An error leaves the writer untouched,
     * and only a response writes its status.
     */
    method Forward(req: Request, w: ResponseWriter, route: Route, b: Backend, sub: string, up: Upstream,
                   ghost run: Trace, ghost th: Thread)
      returns (outcome: Outcome, ghost run': Trace, ghost th': Thread)
      requires InStep(run, th, w) && Identified(th, req, route, sub) && Serves(b, route)
      requires th.pc.Acquiring? && th.pc.id == b.ID
      modifies b, wire, w`statuses, w.headers
      ensures InStep(run', th', w) && SameRun(run, run') && outcome == OutcomeOf(up)
      ensures verifier.nonces.items == old(verifier.nonces.items)
      ensures ForwardDone(th, th', route, b.ID, outcome)
      ensures Written(old(w.headers.fields), w.headers.fields, b.ID, outcome)
    {
      outcome, run', th' := Exchange(req, w, route, b, sub, up, run, th);
      ghost var th1 := th';
      assert th1.route == Some(route) && th1.pc == Releasing(b.ID, outcome);
      run', th' := Release(w, route, b, outcome, run', th');
      ForwardSteps(th, th1, th', route, b.ID, outcome);
      assert Written(old(w.headers.fields), w.headers.fields, b.ID, outcome);
    }

    /** Count and answer a request whose forwards are over. */
    method Conclude(w: ResponseWriter, route: Route, outcome: Outcome, ghost run: Trace, ghost th: Thread)
      returns (ghost run': Trace, ghost th': Thread)
      requires InStep(run, th, w) && th.pc == FinalPc(route, outcome)
      modifies metrics, w`statuses
      ensures w.headers.fields == old(w.headers.fields)
      ensures InStep(run', th', w) && SameRun(run, run') && th'.pc == Finished
      ensures verifier.nonces.items == old(verifier.nonces.items)
    {
      if outcome.Failed? {
        run', th' := Refuse(w, Label(route.prefix, Denied, UpstreamError), 502, run, th);
      } else {
        run', th' := CountRequest(w, Label(route.prefix, Allowed, Success), 0, false, run, th);
      }
    }

    /** The one retry: on another backend, if a Pick finds one. */
    method Retry(req: Request, w: ResponseWriter, route: Route, b: Backend, failed: Outcome, sub: string, env: Env,
                 ghost run: Trace, ghost th: Thread)
      returns (outcome: Outcome, ghost run': Trace, ghost th': Thread)
      requires InStep(run, th, w) && ValidEnv(env) && route.service in pools && failed.Failed?
      requires th.pc == Picking([]) && Identified(th, req, route, sub)
      requires |th.attempts| == 1 && th.attempts[0].id == b.ID
      modifies wire, w`statuses, w.headers, members
      ensures KeepsId(old(w.headers.fields), w.headers.fields)
      ensures InStep(run', th', w) && SameRun(run, run') && th'.pc == FinalPc(route, outcome)
      ensures verifier.nonces.items == old(verifier.nonces.items)
      ensures th'.attempts == th.attempts || (|th'.attempts| == 2 && th'.attempts[1].id != b.ID)
    {
      outcome := failed;
      var alt;
      alt, run', th' := PickFrom(w, route, env.draws[2], env.draws[3], run, th);
      RetryPicked(th, th', req, route, sub, failed, if alt == null then None else Some(alt.ID));
      if alt != null && alt.ID != b.ID {
        ghost var th1 := th';
        outcome, run', th' := Forward(req, w, route, alt, sub, env.upstreams[1], run', th');
        RetryForwarded(th1, th', route, alt.ID, outcome);
      }
    }

    /** Forward to the picked backend, with the one retry. */
    method ForwardWithRetry(req: Request, w: ResponseWriter, route: Route, b: Backend, sub: string, env: Env,
                            ghost run: Trace, ghost th: Thread)
      returns (outcome: Outcome, ghost run': Trace, ghost th': Thread)
      requires InStep(run, th, w) && ValidEnv(env) && route.service in pools && Serves(b, route)
      requires th.pc.Acquiring? && th.pc.id == b.ID && th.attempts == [] && Identified(th, req, route, sub)
      modifies wire, w`statuses, w.headers, members
      ensures KeepsId(old(w.headers.fields), w.headers.fields)
      ensures InStep(run', th', w) && SameRun(run, run') && th'.pc == FinalPc(route, outcome)
      ensures verifier.nonces.items == old(verifier.nonces.items)
    {
      outcome, run', th' := Forward(req, w, route, b, sub, env.upstreams[0], run, th);
      if outcome.Failed? && outcome.retryable {
        ghost var h := w.headers.fields;
        outcome, run', th' := Retry(req, w, route, b, outcome, sub, env, run', th');
        KeepsIdOn(old(w.headers.fields), h, w.headers.fields);
      }
    }

    /** Pick, forward, retry at most once, and answer. */
    method Dispatch(req: Request, w: ResponseWriter, route: Route, sub: string, env: Env, ghost run: Trace,
                    ghost th: Thread)
      returns (ghost run': Trace, ghost th': Thread)
      requires InStep(run, th, w) && ValidEnv(env) && route.service in pools
      requires th.pc == Picking([]) && th.attempts == [] && Identified(th, req, route, sub)
      modifies metrics, wire, w`statuses, w.headers, members
      ensures KeepsId(old(w.headers.fields), w.headers.fields)
      ensures InStep(run', th', w) && SameRun(run, run') && th'.pc == Finished
      ensures verifier.nonces.items == old(verifier.nonces.items)
    {
      var b;
      b, run', th' := PickFrom(w, route, env.draws[0], env.draws[1], run, th);
      if b == null {
        run', th' := Refuse(w, Label(route.prefix, Denied, NoHealthyBackend), 503, run', th');
      } else {
        var outcome;
        outcome, run', th' := ForwardWithRetry(req, w, route, b, sub, env, run', th');
        run', th' := Conclude(w, route, outcome, run', th');
      }
    }

    /** Verify the token, and the thread's two steps: past the checks, and past the store. */
    method Authenticated(w: ResponseWriter, route: Route, token: string, now: int, ghost run: Trace, ghost th: Thread)
      returns (r: Result<Verified, Reason>, ghost run': Trace, ghost th': Thread)
      requires InStep(run, th, w) && th.pc == Verifying(token) && th.route == Some(route)
               && now == Here(run).replay.clock
      modifies verifier.nonces
      ensures w.headers.fields == old(w.headers.fields)
      ensures InStep(run', th', w) && SameRun(run, run')
      ensures th' == AfterVerdict(th, route, r, |Here(run).replay.log|)
      ensures r == Verdict(verifier.platform, verifier.cfg, old(verifier.nonces.items), token, now)
      ensures r.Err? ==> r.error.IsAuth()
      ensures verifier.nonces.items
              == StoreAfter(verifier.platform, verifier.cfg, old(verifier.nonces.items), verifier.nonces.ttl, token,
                            now)
    {
      ghost var f := FaceNow(w);
      r := verifier.Verify(token, now);
      VerdictReasons(verifier.platform, verifier.cfg, f.items, token, now);
      assert FaceNow(w) == f.(items := verifier.nonces.items);
      ghost var s';
      run', s' := TrackVerify(run, Here(run), home, f, route, token, r, verifier.nonces.items);
      th' := Mine(run', s');
    }

    /** Verify the token and check the scope; a refusal is counted and answered here. */
    method Admit(req: Request, w: ResponseWriter, route: Route, token: string, now: int, ghost run: Trace,
                 ghost th: Thread)
      returns (admitted: Option<Verified>, ghost run': Trace, ghost th': Thread)
      requires InStep(run, th, w) && th.pc == Verifying(token) && Underway(th, req, route)
               && now == Here(run).replay.clock
      modifies metrics, verifier.nonces, w`statuses
      ensures w.headers.fields == old(w.headers.fields)
      ensures InStep(run', th', w) && SameRun(run, run')
      ensures admitted.None? ==> th'.pc == Finished
      ensures admitted.Some? ==>
                && th'.pc == Picking([]) && th'.attempts == th.attempts
                && Identified(th', req, route, admitted.value.subject)
      ensures admitted == match Verdict(verifier.platform, verifier.cfg, old(verifier.nonces.items), token, now)
                          case Err(_) => None
                          case Ok(v) => if InScope(v.claims, route.requiredScope) then Some(v) else None
      ensures verifier.nonces.items
              == StoreAfter(verifier.platform, verifier.cfg, old(verifier.nonces.items), verifier.nonces.ttl, token,
                            now)
    {
      var r;
      r, run', th' := Authenticated(w, route, token, now, run, th);
      if r.Err? {
        run', th' := DenyAuth(w, route, r.error, run', th');
        return None, run', th';
      }
      var ok := HasScope(r.value.claims, route.requiredScope);
      if !ok {
        run', th' := DenyAuth(w, route, MissingScope, run', th');
        return None, run', th';
      }
      return Some(r.value), run', th';
    }

    /** A request whose route and token are known. */
    method ServeRouted(req: Request, w: ResponseWriter, route: Route, token: string, env: Env, ghost run: Trace,
                       ghost th: Thread)
      returns (ghost run': Trace, ghost th': Thread)
      requires InStep(run, th, w) && ValidEnv(env) && route.service in pools && env.now == Here(run).replay.clock
      requires th.pc == Verifying(token) && Underway(th, req, route) && th.attempts == []
      modifies metrics, verifier.nonces, wire, w`statuses, w.headers, members
      ensures KeepsId(old(w.headers.fields), w.headers.fields)
      ensures InStep(run', th', w) && SameRun(run, run') && th'.pc == Finished
      ensures verifier.nonces.items
              == StoreAfter(verifier.platform, verifier.cfg, old(verifier.nonces.items), verifier.nonces.ttl, token,
                            env.now)
    {
      var admitted;
      admitted, run', th' := Admit(req, w, route, token, env.now, run, th);
      if admitted.Some? {
        run', th' := Dispatch(req, w, route, admitted.value.subject, env, run', th');
      }
    }

    /** Refuse a request without a route or a token, or serve it. */
    method ServeMatched(req: Request, w: ResponseWriter, route: Option<Route>, token: string, env: Env,
                        ghost run: Trace, ghost th: Thread)
      returns (ghost run': Trace, ghost th': Thread)
      requires InStep(run, th, w) && ValidEnv(env) && (route.Some? ==> route.value.service in pools)
               && env.now == Here(run).replay.clock
      requires th == NewThread(req).(route := route, pc := ArrivalPc(route, token))
      modifies metrics, verifier.nonces, wire, w`statuses, w.headers, members
      ensures KeepsId(old(w.headers.fields), w.headers.fields)
      ensures InStep(run', th', w) && SameRun(run, run') && th'.pc == Finished
      ensures verifier.nonces.items
              == if route.None? || token == "" then old(verifier.nonces.items)
                 else StoreAfter(verifier.platform, verifier.cfg, old(verifier.nonces.items), verifier.nonces.ttl,
                                 token, env.now)
    {
      if route.None? {
        run', th' := Refuse(w, Label("none", Denied, NoRoute), 404, run, th);
      } else if token == "" {
        run', th' := DenyAuth(w, route.value, NoToken, run, th);
      } else {
        run', th' := ServeRouted(req, w, route.value, token, env, run, th);
      }
    }

    /** The request has arrived, and the objects have not moved. */
    lemma BegunInStep(u: Setup, s: State, t: nat, req: Request, now: int, w: ResponseWriter)
      returns (run: Trace, th: Thread)
      requires Valid() && Fits(u) && Shows(s, w) && t !in s.threads && s.replay.clock <= now
      ensures run == Trace(u, Begun(u, s, t, req, now), t, [], w.statuses, wire.sent)
      ensures th == NewThread(req) && InStep(run, th, w) && Here(run).replay.clock == now
    {
      run := Trace(u, Begun(u, s, t, req, now), t, [], w.statuses, wire.sent);
      th := NewThread(req);
    }

    /** The route and the token, and the thread's first step. */
    method Route(req: Request, w: ResponseWriter, ghost run: Trace, ghost th: Thread)
      returns (route: Option<Route>, token: string, ghost run': Trace, ghost th': Thread)
      requires InStep(run, th, w) && th == NewThread(req)
      ensures w.headers.fields == old(w.headers.fields)
      ensures InStep(run', th', w) && SameRun(run, run') && Here(run').replay == Here(run).replay
      ensures route == FirstMatch(routes, req.path) && token == Bearer(req.headers)
      ensures route.Some? ==> route.value.service in pools
      ensures th' == th.(route := route, pc := ArrivalPc(route, token))
    {
      route := Match(req.path);
      token := Bearer(req.headers);
      FirstMatchMeaning(routes, req.path);
      ghost var s';
      run', s' := TrackArrival(run, Here(run), home, FaceNow(w), route, token);
      th' := Mine(run', s');
    }

    /** The in-flight counts of the members are those of the machine. */
    lemma InflightShown(s: State, w: ResponseWriter, b: Backend)
      requires Valid() && Shows(s, w) && b in members
      ensures b in home && b.inflight == Look(s.live, home[b]).inflight
    {
      assert Glimpses(members)[b].inflight == b.inflight;
    }

    /**
     * One request, start to end, on objects that show any state of the machine of module Gateway.  They then
     * show the state that machine reaches when the clock moves on to the reading, the request arrives as a
     * thread of its own, and that thread alone acts until it has finished; the writer has the statuses that
     * thread wrote and the wire the requests it sent.  Every in-flight count is back where it was.
     */
    method ServeHTTP(req: Request, w: ResponseWriter, env: Env, ghost u: Setup, ghost s: State, ghost t: nat)
      returns (ghost run: Trace, ghost th: Thread)
      requires Valid() && ValidEnv(env) && Fits(u) && Shows(s, w) && t !in s.threads && s.replay.clock <= env.now
      modifies metrics, verifier.nonces, wire, w`statuses, w.headers, members
      ensures InStep(run, th, w) && th.pc == Finished
      ensures SameRun(Trace(u, Begun(u, s, t, req, env.now), t, [], old(w.statuses), old(wire.sent)), run)
      ensures verifier.nonces.items
              == if FirstMatch(routes, req.path).None? || Bearer(req.headers) == "" then old(verifier.nonces.items)
                 else StoreAfter(verifier.platform, verifier.cfg, old(verifier.nonces.items), verifier.nonces.ttl,
                                 Bearer(req.headers), env.now)
      ensures forall b | b in members :: b.inflight == old(b.inflight)
      ensures [req.rid] <= Values(w.headers.fields, "X-Request-Id")
    {
      ghost var was := Glimpses(members);
      OwnNamesAreCanonical();
      w.headers.Set(REQUEST_ID, req.rid);
      run, th := BegunInStep(u, s, t, req, env.now, w);
      var route, token;
      route, token, run, th := Route(req, w, run, th);
      run, th := ServeMatched(req, w, route, token, env, run, th);
      forall b | b in members
        ensures b.inflight == was[b].inflight
      {
        FinishedAccounts(run, s, req, env.now, home[b], Label("", Denied, NoRoute), NoRoute);
        InflightShown(Here(run), w, b);
      }
    }
  }

  /** The writer's headers after a forward: untouched by a failure, naming the backend after a response. */
  ghost predicate Written(before: Fields, after: Fields, id: string, outcome: Outcome) {
    && (if outcome.Failed? then after == before else Values(after, UPSTREAM) == [id])
    && KeepsId(before, after)
  }

  /** The request ids set so far come first. */
  ghost predicate KeepsId(before: Fields, after: Fields) {
    Values(before, REQUEST_ID) <= Values(after, REQUEST_ID)
  }

  lemma {:induction false} KeepsIdOn(a: Fields, b: Fields, c: Fields)
    requires KeepsId(a, b) && KeepsId(b, c)
    ensures KeepsId(a, c)
  {
  }

  /** The request headers sent to a backend, in the iteration order the ghost result names. */
  method BuildHeaders(req: Request, sub: string) returns (h: Fields, ghost order: seq<string>)
    ensures Enumerates(order, req.headers.Keys) && h == Forwarded(req.headers, order, sub, req.rid)
    ensures ProperlyForwarded(req.headers, sub, req.rid, h)
  {
    var sent := new HeaderMap();
    order := CopyHeaders(req.headers, sent);
    sent.Del(AUTHORIZATION);
    sent.Set(FORWARDED_SUB, sub);
    sent.Set(REQUEST_ID, req.rid);
    OwnNamesAreCanonical();
    ForwardedProperly(req.headers, order, sub, req.rid);
    h := sent.fields;
  }

  const UPSTREAM := "X-Upstream"

  /** Pass a response on: its headers are added to those already set, then the status is written. */
  method Respond(w: ResponseWriter, code: int, headers: Fields, id: string)
    modifies w`statuses, w.headers
    ensures w.statuses == old(w.statuses) + [code]
    ensures Values(w.headers.fields, UPSTREAM) == [id] && KeepsId(old(w.headers.fields), w.headers.fields)
    ensures exists order :: Enumerates(order, headers.Keys)
              && w.headers.fields == CopyInOrder(headers, old(w.headers.fields), order)[UPSTREAM := [id]]
  {
    ghost var order := CopyHeaders(headers, w.headers);
    CopyKeepsValues(headers, old(w.headers.fields), order, REQUEST_ID);
    InCaseIsCanonical(UPSTREAM);
    w.headers.Set(UPSTREAM, id);
    w.WriteHeader(code);
  }
}
