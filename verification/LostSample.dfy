/**
 * A run of the gateway that loses a sample: a backend is ejected while a request is still waiting for it, comes back,
 * and the reply is recorded after the bit has turned and before the average is wiped.
 */
module LostSample {
  import Ewma
  import Health
  import opened Common
  import opened Gateway
  import opened GatewayAverages
  import opened HandlerRuns
  import opened Headers
  import opened Routing
  import opened Verifiers

  /** A request this gateway lets through to its service's only backend. */
  ghost predicate Welcome(u: Setup, req: Request, route: Route, id: string, v: Verified) {
    && FirstMatch(u.routes, req.path) == Some(route) && route.service in u.pools && u.pools[route.service] == [id]
    && Bearer(req.headers) != "" && Authenticate(u.platform, u.cfg, Bearer(req.headers), u.start) == Ok(v)
    && InScope(v.claims, route.requiredScope)
  }

  lemma {:induction false} OnlyBackend(service: string, id: string)
    ensures Chosen(map[], service, Bits(map[], service, [id]), 0, 0, Some(id))
  {
    var live: map<Ref, Live>, ids := map[], [id];
    assert ids[..0] == [] && Bits(live, service, ids[..0]) == [];
    var bits := Bits(live, service, ids);
    assert bits == [Read(id, true)] && bits[..0] == [] && HealthyReads(bits[..0]) == [];
    assert HealthyReads(bits) == [id];
  }

  lemma {:induction false} BegunMatches(u: Setup, req: Request, f: Face)
    requires f == Face(map[], u.nonceTtl, map[], map[], map[], [], [])
    ensures var s := Begun(u, Init(u), 0, req, u.start); var run := Trace(u, s, 0, [], [], []);
            && Matches(run, s, map[], f) && Mine(run, s) == NewThread(req) && s.live == map[]
            && s.replay.clock == u.start && s.replay.items == map[]
  {
  }

  /** The request has been let through, and is about to acquire the backend. */
  lemma {:induction false} LetThrough(u: Setup, req: Request, route: Route, id: string, v: Verified)
    returns (run: Trace, s: State)
    requires Welcome(u, req, route, id, v)
    ensures run.u == u && run.from == Begun(u, Init(u), 0, req, u.start) && run.t == 0
    ensures s == Here(run) && 0 in s.threads && s.live == map[]
    ensures var th := Mine(run, s);
            && th.pc.Acquiring? && th.pc.id == id && th.route == Some(route) && th.req == req && th.verified == Some(v)
  {
    run := Trace(u, Begun(u, Init(u), 0, req, u.start), 0, [], [], []);
    s := Here(run);
    var f := Face(map[], u.nonceTtl, map[], map[], map[], [], []);
    BegunMatches(u, req, f);
    run, s := TrackArrival(run, s, map[], f, Some(route), Bearer(req.headers));
    var items := StoreAfter(u.platform, u.cfg, f.items, f.ttl, Bearer(req.headers), s.replay.clock);
    run, s := TrackVerify(run, s, map[], f, route, Bearer(req.headers), Ok(v), items);
    OnlyBackend(route.service, id);
    run, s := TrackPick(run, s, map[], f.(items := items), route, 0, 0, Some(id));
  }

  /** The request is at the backend, and waiting. */
  lemma {:induction false} Waiting(u: Setup, req: Request, route: Route, id: string, v: Verified, order: seq<string>)
    returns (events: seq<Event>)
    requires Welcome(u, req, route, id, v) && Enumerates(order, req.headers.Keys)
    ensures var s := Run(u, events);
            && 0 in s.threads && s.threads[0].pc == Forwarding(id) && s.threads[0].route == Some(route)
            && Look(s.live, Ref(route.service, id)) == FreshLive.(inflight := 1)
  {
    var run, s := LetThrough(u, req, route, id, v);
    var th, c := Mine(run, s), Idle.(parses := true, order := order);
    var sent := Some(Forwarded(req.headers, order, v.subject, req.rid));
    ObserveTarget(u, s, th, c, sent);
    StepSends(th, route, id, sent);
    run, s := Take(run, s, c, SeenTarget(sent), Sending(th, id, sent), Acquire(Ref(route.service, id)));
    assert Run(u, []) == Init(u);
    events := ServedInRun(run, [], req, u.start);
  }

  /** One more probe of the backend. */
  lemma {:induction false} OneMoreProbe(u: Setup, events: seq<Event>, ref: Ref, ok: bool) returns (more: seq<Event>)
    ensures more == events + [Probe(ref, ok)]
    ensures Run(u, more).threads == Run(u, events).threads
    ensures Look(Run(u, more).live, ref) == Probed(Look(Run(u, events).live, ref), ok)
  {
    more := events + [Probe(ref, ok)];
    RunOneMore(u, events, Probe(ref, ok));
  }

  /** Three failures and a success: one more success will bring the backend back. */
  lemma {:induction false} AlmostBack(u: Setup, events: seq<Event>, ref: Ref) returns (more: seq<Event>)
    requires Look(Run(u, events).live, ref) == FreshLive.(inflight := 1)
    ensures Run(u, more).threads == Run(u, events).threads
    ensures Look(Run(u, more).live, ref) == AlmostUp
  {
    more := OneMoreProbe(u, events, ref, false);
    more := OneMoreProbe(u, more, ref, false);
    more := OneMoreProbe(u, more, ref, false);
    more := OneMoreProbe(u, more, ref, true);
  }

  lemma {:induction false} MarksMore(u: Setup, events: seq<Event>, e: Event, ref: Ref)
    ensures MarksOf(u, events + [e], ref) == MarksOf(u, events, ref) + EventMarks(u, Run(u, events), e, ref)
  {
    assert (events + [e])[..|events|] == events;
  }

  const AlmostUp := Live(Health.Node(false, 0, 1, Some(false)), 0.0, false, 1, false)
  const JustUp := Live(Health.Node(true, 0, 2, Some(true)), 0.0, false, 1, true)

  /** The bit turns up. */
  lemma {:induction false} Turn(u: Setup, events: seq<Event>, ref: Ref) returns (more: seq<Event>)
    requires Look(Run(u, events).live, ref) == AlmostUp
    ensures Run(u, more).threads == Run(u, events).threads && Look(Run(u, more).live, ref) == JustUp
    ensures MarksOf(u, more, ref) == MarksOf(u, events, ref) + [TurnedUp]
  {
    more := OneMoreProbe(u, events, ref, true);
    MarksMore(u, events, Probe(ref, true), ref);
  }

  lemma {:induction false} StepReplies(th: Thread, route: Route, id: string, d: nat)
    requires th.pc == Forwarding(id) && th.route == Some(route)
    ensures Step(th, SeenReply(Response(200, d))).1 == Latency(Ref(route.service, id), d)
  {
  }

  /** The reply is recorded. */
  lemma {:induction false} RecordReply(u: Setup, events: seq<Event>, route: Route, id: string, d: nat)
    returns (more: seq<Event>)
    requires var s := Run(u, events);
             0 in s.threads && s.threads[0].pc == Forwarding(id) && s.threads[0].route == Some(route)
    requires Look(Run(u, events).live, Ref(route.service, id)) == JustUp
    ensures var ref := Ref(route.service, id);
            && Look(Run(u, more).live, ref) == JustUp.(ewmaMs := Ewma.Sample(d), hasStats := true)
            && MarksOf(u, more, ref) == MarksOf(u, events, ref) + [Sampled(d)]
  {
    var s, reply := Run(u, events), Act(0, Idle.(reply := Response(200, d)));
    StepReplies(s.threads[0], route, id, d);
    more := events + [reply];
    RunOneMore(u, events, reply);
    MarksMore(u, events, reply, Ref(route.service, id));
  }

  /** The average is wiped. */
  lemma {:induction false} WipeIt(u: Setup, events: seq<Event>, ref: Ref) returns (more: seq<Event>)
    requires Look(Run(u, events).live, ref).wiping
    ensures Look(Run(u, more).live, ref) == Wiped(Look(Run(u, events).live, ref))
    ensures MarksOf(u, more, ref) == MarksOf(u, events, ref) + [Emptied]
  {
    more := events + [Wipe(ref)];
    RunOneMore(u, events, Wipe(ref));
    MarksMore(u, events, Wipe(ref), ref);
  }

  lemma {:induction false} MarksSinceTurn(marks: seq<Mark>, all: seq<Mark>, d: nat)
    requires all == marks + [TurnedUp] + [Sampled(d)] + [Emptied]
    ensures JustAfter(all, TurnedUp, |marks| + 1) && SamplesIn(all[|marks| + 1..]) == [Ewma.Sample(d)]
  {
    var tail, sampled := all[|marks| + 1..], [Sampled(d)];
    assert tail == [Sampled(d), Emptied] && tail[..1] == sampled && sampled[..0] == [];
    assert SamplesIn(sampled[..0]) == [];
    assert SamplesIn(sampled) == [Ewma.Sample(d)];
  }

  /**
   * From a fresh gateway, for every request it lets through and every latency: a run after which the backend is up and
   * has no average, although the latency was recorded since it came back up.
   */
  lemma {:induction false} SampleLost(u: Setup, req: Request, route: Route, id: string, v: Verified, order: seq<string>,
                                      d: nat)
    returns (events: seq<Event>, turn: nat)
    requires Welcome(u, req, route, id, v) && Enumerates(order, req.headers.Keys)
    ensures var ref := Ref(route.service, id); var l, marks := Look(Run(u, events).live, ref), MarksOf(u, events, ref);
            && l.node.healthy && !l.wiping && !l.hasStats && l.ewmaMs == 0.0
            && JustAfter(marks, TurnedUp, turn) && SamplesIn(marks[turn..]) == [Ewma.Sample(d)]
  {
    var ref := Ref(route.service, id);
    var waiting := Waiting(u, req, route, id, v, order);
    var almost := AlmostBack(u, waiting, ref);
    events := Turn(u, almost, ref);
    events := RecordReply(u, events, route, id, d);
    events := WipeIt(u, events, ref);
    turn := |MarksOf(u, almost, ref)| + 1;
    MarksSinceTurn(MarksOf(u, almost, ref), MarksOf(u, events, ref), d);
  }
}
