/** Health hysteresis: two counters per backend drive the bit the balancer reads. */
module Health {
  import Ewma
  import opened Common
  import opened Pools

  const FAIL_THRESHOLD := 3
  const PASS_THRESHOLD := 2

  /** What the checker holds about one backend; the gauge is absent until first set. */
  datatype Node = Node(healthy: bool, fails: int, passes: int, gauge: Option<bool>)

  /** NewPool starts a backend healthy; the checker starts with empty maps. */
  const Start := Node(true, 0, 0, None)

  /** One recorded probe. */
  function Probe(n: Node, ok: bool): (n': Node) {
    if ok then
      var passes := n.passes + 1;
      var up := n.healthy || passes >= PASS_THRESHOLD;
      Node(up, 0, passes, if up then Some(true) else n.gauge)
    else
      var fails := n.fails + 1;
      var down := n.healthy && fails >= FAIL_THRESHOLD;
      Node(n.healthy && !down, fails, 0, if down then Some(false) else n.gauge)
  }

  function Run(probes: seq<bool>): (n: Node) {
    if probes == [] then Start else Probe(Run(probes[..|probes| - 1]), probes[|probes| - 1])
  }

  class Checker {
    const pool: Pool
    var fails: map<string, int>
    var passes: map<string, int>
    var gauge: map<string, bool>

    constructor (pool: Pool)
      ensures this.pool == pool && fails == map[] && passes == map[] && gauge == map[]
    {
      this.pool := pool;
      fails, passes, gauge := map[], map[], map[];
    }

    /** A Go map read: a missing counter is zero. */
    static function Counter(m: map<string, int>, id: string): (c: int) {
      if id in m then m[id] else 0
    }

    function NodeOf(b: Backend): (n: Node)
      reads this, b
    {
      Node(b.healthy, Counter(fails, b.ID), Counter(passes, b.ID), if b.ID in gauge then Some(gauge[b.ID]) else None)
    }

    /** Counters and gauge are keyed by ID: only this backend's entries and bit move. */
    method Record(b: Backend, ok: bool)
      modifies this, b
      ensures NodeOf(b) == Probe(old(NodeOf(b)), ok)
      ensures b.ID in fails && fails == old(fails)[b.ID := fails[b.ID]]
      ensures b.ID in passes && passes == old(passes)[b.ID := passes[b.ID]]
      ensures gauge == old(gauge) || (b.ID in gauge && gauge == old(gauge)[b.ID := gauge[b.ID]])
      ensures b.inflight == old(b.inflight)
      ensures b.View() == if b.healthy == old(b.healthy) then old(b.View())
                          else Ewma.Next(old(b.View()), Ewma.SetHealthy(ok))
    {
      if ok {
        fails := fails[b.ID := 0];
        passes := passes[b.ID := Counter(passes, b.ID) + 1];
        if !b.healthy && passes[b.ID] >= PASS_THRESHOLD {
          b.SetHealthy(true);
          gauge := gauge[b.ID := true];
        } else if b.healthy {
          gauge := gauge[b.ID := true];
        }
        return;
      }
      passes := passes[b.ID := 0];
      fails := fails[b.ID := Counter(fails, b.ID) + 1];
      if b.healthy && fails[b.ID] >= FAIL_THRESHOLD {
        b.SetHealthy(false);
        gauge := gauge[b.ID := false];
      }
    }
  }

  /** The last three of the first k probes all failed. */
  ghost predicate FailRunEnds(probes: seq<bool>, k: int) {
    3 <= k <= |probes| && !probes[k - 3] && !probes[k - 2] && !probes[k - 1]
  }

  /** The last two of the first k probes both passed. */
  ghost predicate PassRunEnds(probes: seq<bool>, k: int) {
    2 <= k <= |probes| && probes[k - 2] && probes[k - 1]
  }

  /** Every run of three failures has been answered by a later run of two successes. */
  ghost predicate HealthyByHistory(probes: seq<bool>) {
    forall k | FailRunEnds(probes, k) :: exists m :: k < m && PassRunEnds(probes, m)
  }

  /** How many probes at the end of the history all had outcome v. */
  function Trailing(probes: seq<bool>, v: bool): (n: nat) {
    if probes == [] || probes[|probes| - 1] != v then 0 else 1 + Trailing(probes[..|probes| - 1], v)
  }

  lemma {:induction false} TrailingIsRun(probes: seq<bool>, v: bool, n: nat)
    ensures Trailing(probes, v) >= n <==> n <= |probes| && forall i | |probes| - n <= i < |probes| :: probes[i] == v
  {
    if probes != [] && n != 0 {
      TrailingIsRun(probes[..|probes| - 1], v, n - 1);
    }
  }

  lemma {:induction false} HistoryExtends(probes: seq<bool>, more: seq<bool>)
    requires |more| == |probes| + 1 && more[..|probes|] == probes
    ensures forall k | k <= |probes| :: FailRunEnds(more, k) <==> FailRunEnds(probes, k)
    ensures forall k | k <= |probes| :: PassRunEnds(more, k) <==> PassRunEnds(probes, k)
    ensures FailRunEnds(more, |more|) <==> Trailing(more, false) >= 3
    ensures PassRunEnds(more, |more|) <==> Trailing(more, true) >= 2
  {
    assert forall k | 0 <= k < |probes| :: more[k] == probes[k];
    TrailingIsRun(more, false, 3);
    TrailingIsRun(more, true, 2);
  }

  /** The counter machine computes the history statement, and its counters are the trailing runs. */
  lemma {:induction false} HealthyIffHistory(probes: seq<bool>)
    ensures var n := Run(probes);
            && (n.healthy <==> HealthyByHistory(probes))
            && n.fails == Trailing(probes, false) && n.passes == Trailing(probes, true)
            && (n.fails == 0 || n.passes == 0)
            && (n.healthy ==> n.fails < FAIL_THRESHOLD)
            && (!n.healthy ==> n.passes < PASS_THRESHOLD)
  {
    if probes != [] {
      var before := probes[..|probes| - 1];
      HealthyIffHistory(before);
      HistoryExtends(before, probes);
      if PassRunEnds(probes, |probes|) {
        assert HealthyByHistory(probes);
      } else if FailRunEnds(probes, |probes|) {
        assert !HealthyByHistory(probes);
      } else {
        HistoryUnchanged(before, probes);
      }
    }
  }

  lemma {:induction false} HistoryUnchanged(before: seq<bool>, probes: seq<bool>)
    requires |probes| == |before| + 1 && probes[..|before|] == before
    requires !PassRunEnds(probes, |probes|) && !FailRunEnds(probes, |probes|)
    ensures HealthyByHistory(probes) <==> HealthyByHistory(before)
  {
    HistoryExtends(before, probes);
    assert forall k :: FailRunEnds(probes, k) <==> FailRunEnds(before, k);
    assert forall k :: PassRunEnds(probes, k) <==> PassRunEnds(before, k);
  }

  /** Once set, the gauge shows the bit; it is set by the first success or the third failure, whichever comes first. */
  lemma {:induction false} GaugeShowsBit(probes: seq<bool>)
    ensures Run(probes).gauge.Some? ==> Run(probes).gauge.value == Run(probes).healthy
    ensures Run(probes).gauge.Some? <==> true in probes || |probes| >= 3
    ensures Run(probes).gauge.None? ==> Run(probes).healthy && Run(probes).fails == |probes|
  {
    if probes != [] {
      var n := |probes| - 1;
      GaugeShowsBit(probes[..n]);
      assert probes == probes[..n] + [probes[n]];
    }
  }

  function CountOf(probes: seq<bool>, v: bool): (n: nat) {
    if probes == [] then 0 else CountOf(probes[..|probes| - 1], v) + (if probes[|probes| - 1] == v then 1 else 0)
  }

  /** How often the bit has turned to v. */
  function Turns(probes: seq<bool>, v: bool): (n: nat) {
    if probes == [] then 0 else
    var before := probes[..|probes| - 1];
    Turns(before, v) + (if Run(before).healthy != v && Run(probes).healthy == v then 1 else 0)
  }

  lemma {:induction false} FlapLedger(probes: seq<bool>)
    ensures var n := Run(probes); var ejected := Turns(probes, false); var restored := Turns(probes, true);
            && ejected == restored + (if n.healthy then 0 else 1)
            && 3 * ejected + (if n.healthy then n.fails else 0) <= CountOf(probes, false)
            && 2 * restored + (if n.healthy then 0 else n.passes) <= CountOf(probes, true)
            && CountOf(probes, false) + CountOf(probes, true) == |probes|
            && 0 <= n.fails && 0 <= n.passes
  {
    if probes != [] {
      FlapLedger(probes[..|probes| - 1]);
    }
  }

  /** Anti-flap: of n probes at most two in five turn the bit. */
  lemma {:induction false} FlapBound(probes: seq<bool>)
    ensures var ejected := Turns(probes, false); var restored := Turns(probes, true);
            && restored <= ejected <= restored + 1
            && 3 * ejected <= CountOf(probes, false)
            && 2 * restored <= CountOf(probes, true)
            && 5 * (ejected + restored) <= 2 * |probes|
  {
    FlapLedger(probes);
  }

  /** A backend all of whose probes fail is down from its third probe on, although it starts up. */
  lemma {:induction false} AlwaysFailingIsDown(probes: seq<bool>)
    requires forall k | 0 <= k < |probes| :: !probes[k]
    ensures Run(probes).healthy <==> |probes| < 3
  {
    HealthyIffHistory(probes);
    assert |probes| >= 3 ==> FailRunEnds(probes, 3);
  }

  /** A probe of one backend among many. */
  datatype Event = Event(id: string, ok: bool)

  /** The outcomes one backend has seen. */
  function OutcomesOf(events: seq<Event>, id: string): (probes: seq<bool>) {
    if events == [] then [] else
    var last := events[|events| - 1];
    OutcomesOf(events[..|events| - 1], id) + (if last.id == id then [last.ok] else [])
  }

  /** All backends of a pool, probed in any interleaving. */
  function RunAll(ids: set<string>, events: seq<Event>): (nodes: map<string, Node>)
    ensures nodes.Keys == ids
  {
    if events == [] then map id | id in ids :: Start else
    var nodes := RunAll(ids, events[..|events| - 1]);
    var last := events[|events| - 1];
    if last.id in ids then nodes[last.id := Probe(nodes[last.id], last.ok)] else nodes
  }

  /** Backends with distinct IDs do not disturb each other: each sees only its own probes. */
  lemma {:induction false} BackendsIndependent(ids: set<string>, events: seq<Event>, id: string)
    requires id in ids
    ensures RunAll(ids, events)[id] == Run(OutcomesOf(events, id))
  {
    if events != [] {
      var before := events[..|events| - 1];
      BackendsIndependent(ids, before, id);
      if events[|events| - 1].id == id {
        var probes := OutcomesOf(events, id);
        assert probes[..|probes| - 1] == OutcomesOf(before, id);
      } else {
        assert OutcomesOf(events, id) == OutcomesOf(before, id);
      }
    }
  }
}
