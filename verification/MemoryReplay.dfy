/**
 * The verifier over the in-memory store as a system of interleaved steps: the clock advances,
 * a request passes its time check, a request runs CheckAndStore, the sweeper reads the clock,
 * the sweeper deletes.  Every sequence of steps is a run; a step that is not enabled does nothing.
 */
module MemoryReplay {
  import opened Clock
  import opened Common
  import opened NonceCaches
  import opened ReplayLaw

  /** A request between its time check and its store step. */
  datatype Pending = Pending(jti: string, exp: int, checkedAt: int)

  /** A deletion pass that used clock reading `reading`, after the first `after` acceptances. */
  datatype Pass = Pass(reading: int, after: nat)

  datatype State = State(
    clock: int,
    ttl: int,
    items: map<string, int>,
    pending: map<nat, Pending>,
    sweeper: Option<int>,
    log: seq<Acceptance>,
    passes: seq<Pass>)

  datatype Step =
    | Tick(elapsed: nat)
    | Check(thread: nat, jti: string, iat: int, exp: int)
    | Store(thread: nat)
    | SweepRead
    | SweepDelete

  /** A gateway that has just started, with a clock somewhere after Go's zero time. */
  ghost predicate Init(s: State) {
    && ZERO_TIME < s.clock
    && s.items == map[] && s.pending == map[] && s.sweeper == None && s.log == [] && s.passes == []
  }

  /** Would thread `t`'s CheckAndStore let its jti in? */
  predicate Accepts(s: State, t: nat) {
    t in s.pending && s.pending[t].jti !in s.items
  }

  function Next(s: State, step: Step): State {
    match step
    case Tick(d) => s.(clock := s.clock + d)
    case Check(t, jti, iat, exp) =>
      if CheckTime(s.clock, iat, exp) == InWindow && jti != ""
      then s.(pending := s.pending[t := Pending(jti, Unix(exp), s.clock)])
      else s
    case Store(t) =>
      if t !in s.pending then s else
      var p := s.pending[t];
      s.(pending := s.pending - {t},
         items := Stored(s.items, s.ttl, p.jti, p.exp, s.clock),
         log := if Accepts(s, t) then s.log + [Acceptance(p.jti, p.exp, 0, p.checkedAt, s.clock)] else s.log)
    case SweepRead => s.(sweeper := Some(s.clock))
    case SweepDelete =>
      if s.sweeper.None? then s else
      s.(items := Swept(s.items, s.sweeper.value),
         sweeper := None,
         passes := s.passes + [Pass(s.sweeper.value, |s.log|)])
  }

  function Run(s: State, steps: seq<Step>): State {
    if steps == [] then s else Next(Run(s, steps[..|steps| - 1]), steps[|steps| - 1])
  }

  /** Acceptance `i` has outlived every deletion pass that came after it. */
  ghost predicate Live(s: State, i: nat)
    requires i < |s.log|
  {
    forall k | 0 <= k < |s.passes| && i < s.passes[k].after :: s.passes[k].reading <= s.log[i].exp
  }

  /** The map holds exactly the live acceptances: the declarative reading of the mutable state. */
  ghost predicate ItemsAreLive(s: State) {
    && (forall i | 0 <= i < |s.log| && Live(s, i) :: s.log[i].jti in s.items && s.items[s.log[i].jti] == s.log[i].exp)
    && (forall j | j in s.items :: exists i :: 0 <= i < |s.log| && s.log[i].jti == j && Live(s, i))
  }

  ghost predicate ClocksInOrder(s: State) {
    && ZERO_TIME < s.clock
    && (s.sweeper.Some? ==> s.sweeper.value <= s.clock)
    && (forall k | 0 <= k < |s.passes| :: s.passes[k].reading <= s.clock && s.passes[k].after <= |s.log|)
    && (forall t | t in s.pending ::
          ZERO_TIME < s.pending[t].checkedAt <= s.clock && s.pending[t].checkedAt <= s.pending[t].exp)
  }

  ghost predicate Inv(s: State) {
    ClocksInOrder(s) && ItemsAreLive(s) && Synchronised(s.log)
  }

  lemma {:induction false} StoreKeepsInv(s: State, t: nat)
    requires Inv(s)
    ensures Inv(Next(s, Store(t)))
  {
    if Accepts(s, t) {
      var s' := Next(s, Store(t));
      assert forall i | 0 <= i < |s.log| :: s'.log[i] == s.log[i] && (Live(s', i) <==> Live(s, i));
      assert Live(s', |s.log|);
    }
  }

  lemma {:induction false} SweepKeepsInv(s: State)
    requires Inv(s)
    ensures Inv(Next(s, SweepDelete))
  {
    if s.sweeper.Some? {
      var s' := Next(s, SweepDelete);
      var n := |s.passes|;
      assert s'.passes[n] == Pass(s.sweeper.value, |s.log|);
      assert forall k | 0 <= k < n :: s'.passes[k] == s.passes[k];
      forall i | 0 <= i < |s.log|
        ensures Live(s', i) <==> Live(s, i) && s.sweeper.value <= s.log[i].exp
      {
        if Live(s', i) {
          assert s'.passes[n].reading <= s.log[i].exp;
          assert forall k | 0 <= k < n && i < s.passes[k].after :: s'.passes[k].reading <= s.log[i].exp;
        }
      }
    }
  }

  lemma {:induction false} NextKeepsInv(s: State, step: Step)
    requires Inv(s)
    ensures Inv(Next(s, step))
  {
    match step
    case Store(t) => StoreKeepsInv(s, t);
    case SweepDelete => SweepKeepsInv(s);
    case _ =>
      var s' := Next(s, step);
      assert forall i | 0 <= i < |s.log| :: Live(s', i) <==> Live(s, i);
  }

  lemma {:induction false} RunKeepsInv(s: State, steps: seq<Step>)
    requires Init(s)
    ensures Inv(Run(s, steps))
  {
    if steps != [] {
      RunKeepsInv(s, steps[..|steps| - 1]);
      NextKeepsInv(Run(s, steps[..|steps| - 1]), steps[|steps| - 1]);
    }
  }

  /** An earlier acceptance is no longer in the way exactly when some later pass read a time past its expiry. */
  ghost predicate SweptAway(s: State, i: nat)
    requires i < |s.log|
  {
    exists k :: 0 <= k < |s.passes| && i < s.passes[k].after && s.log[i].exp < s.passes[k].reading
  }

  /**
   * Exactly when a request that passed its time check is let in: every earlier acceptance of its
   * jti has been swept.  In particular a first presentation is always let in, and a repeated one
   * never while the clock is still at or before an earlier acceptance's expiry.
   */
  lemma {:induction false} AcceptsIffAllSwept(s0: State, steps: seq<Step>, t: nat)
    requires Init(s0) && t in Run(s0, steps).pending
    ensures var s := Run(s0, steps); var jti := s.pending[t].jti;
            && (Accepts(s, t) <==> forall i | 0 <= i < |s.log| && s.log[i].jti == jti :: SweptAway(s, i))
            && ((forall i | 0 <= i < |s.log| :: s.log[i].jti != jti) ==> Accepts(s, t))
            && (Accepts(s, t) ==> MayAccept(s.log, jti, s.clock))
  {
    RunKeepsInv(s0, steps);
    var s := Run(s0, steps);
    assert forall i | 0 <= i < |s.log| :: Live(s, i) <==> !SweptAway(s, i);
  }

  /** Every step of the concrete system is a step of the abstract store. */
  lemma {:induction false} NextRefinesAbstract(s: State, step: Step)
    requires Inv(s)
    ensures AbstractNext(s.log, Next(s, step).log)
  {
    if step.Store? && Accepts(s, step.thread) {
      var p := s.pending[step.thread];
      var a := Acceptance(p.jti, p.exp, 0, p.checkedAt, s.clock);
      forall i | 0 <= i < |s.log| && s.log[i].jti == a.jti
        ensures s.log[i].Until() < a.storedAt
      {
        assert !Live(s, i);
      }
      assert MayAccept(s.log, a.jti, a.storedAt);
      assert Next(s, step).log == s.log + [a];
    }
  }

  /** Safety of every interleaving. */
  lemma {:induction false} ReplaySafe(s: State, steps: seq<Step>)
    requires Init(s)
    ensures Lawful(Run(s, steps).log)
    ensures AtMostOneOnTime(Run(s, steps).log)
    ensures Instantaneous(Run(s, steps).log) ==> ExpiriesGrow(Run(s, steps).log)
  {
    RunIsLawful(s, steps);
    LawConsequences(Run(s, steps).log);
  }

  lemma {:induction false} RunIsLawful(s: State, steps: seq<Step>)
    requires Init(s)
    ensures Lawful(Run(s, steps).log) && Synchronised(Run(s, steps).log)
  {
    if steps != [] {
      var before := steps[..|steps| - 1];
      RunIsLawful(s, before);
      RunKeepsInv(s, before);
      NextRefinesAbstract(Run(s, before), steps[|steps| - 1]);
      AbstractNextKeepsLaw(Run(s, before).log, Run(s, steps).log);
    }
  }

  /**
   * One token let in twice: two requests pass the time check, the first is stored, the clock passes
   * the expiry, the sweeper runs, and only then does the second request reach the store.  So the
   * "at or before its expiry" in AtMostOneOnTime cannot be dropped.
   */
  lemma {:induction false} LateStoreLetsTokenInTwice()
    ensures exists s, steps :: Init(s) && |Run(s, steps).log| == 2
              && Run(s, steps).log[0].jti == Run(s, steps).log[1].jti
              && Run(s, steps).log[0].exp == Run(s, steps).log[1].exp
  {
    var s0 := State(0, FIVE_MINUTES, map[], map[], None, [], []);
    var p := Pending("a", Unix(60), 0);
    var s1 := s0.(pending := map[0 := p]);
    var s2 := s0.(pending := map[0 := p, 1 := p]);
    var s3 := s0.(pending := map[1 := p], items := map["a" := Unix(60)], log := [Acceptance("a", Unix(60), 0, 0, 0)]);
    var s4 := s3.(clock := 61 * NANOS);
    var s5 := s4.(sweeper := Some(61 * NANOS));
    var s6 := s4.(items := map[], passes := [Pass(61 * NANOS, 1)]);
    var r1 := RunExtend(s0, [], s0, Check(0, "a", 0, 60), s1);
    var r2 := RunExtend(s0, r1, s1, Check(1, "a", 0, 60), s2);
    var r3 := RunExtend(s0, r2, s2, Store(0), s3);
    var r4 := RunExtend(s0, r3, s3, Tick(61 * NANOS), s4);
    var r5 := RunExtend(s0, r4, s4, SweepRead, s5);
    var r6 := RunExtend(s0, r5, s5, SweepDelete, s6);
    var r7 := RunExtend(s0, r6, s6, Store(1), Next(s6, Store(1)));
  }

  lemma {:induction false} RunExtend(s0: State, steps: seq<Step>, s: State, step: Step, s': State)
    returns (more: seq<Step>)
    requires Run(s0, steps) == s && Next(s, step) == s'
    ensures more == steps + [step] && Run(s0, more) == s'
  {
    more := steps + [step];
    assert more[..|steps|] == steps;
  }
}
