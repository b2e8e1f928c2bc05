/**
 * Any number of gateway replicas sharing one Redis, as interleaved steps.  Replica r reads global
 * time shifted by offsets(r).  A request passes its time check, later computes its time to live,
 * later still has its SET NX carried out; the command's answer may be lost either way.
 */
module RedisReplay {
  import opened Clock
  import opened RedisNonces
  import opened ReplayLaw

  type Offsets = nat -> int

  datatype Pending =
    | Checked(replica: nat, jti: string, exp: int, checkedAt: int)
    | Sending(replica: nat, jti: string, exp: int, checkedAt: int, readAt: int, ttl: int)

  /** A key actually written, by an answered command or by one whose answer was lost. */
  datatype Write = Write(jti: string, deadline: int)

  datatype State = State(
    time: int,
    keys: map<string, int>,
    pending: map<nat, Pending>,
    log: seq<Acceptance>,
    writes: seq<Write>)

  datatype Step =
    | Tick(elapsed: nat)
    | Check(thread: nat, replica: nat, jti: string, iat: int, exp: int)
    | ComputeTtl(thread: nat)
    | Send(thread: nat, delivery: Delivery)

  ghost predicate Init(s: State) {
    s.keys == map[] && s.pending == map[] && s.log == [] && s.writes == []
  }

  /** Would an answered SET NX of thread `t` report a new key? */
  predicate FindsNew(s: State, t: nat) {
    t in s.pending && s.pending[t].Sending? && !Visible(s.keys, Key(s.pending[t].jti), s.time)
  }

  function Next(off: Offsets, s: State, step: Step): State {
    match step
    case Tick(d) => s.(time := s.time + d)
    case Check(t, r, jti, iat, exp) =>
      if CheckTime(s.time + off(r), iat, exp) == InWindow && jti != ""
      then s.(pending := s.pending[t := Checked(r, jti, Unix(exp), s.time)])
      else s
    case ComputeTtl(t) =>
      if t !in s.pending || s.pending[t].Sending? then s else
      var p := s.pending[t];
      var ttl := Ttl(p.exp, s.time + off(p.replica));
      s.(pending := s.pending[t := Sending(p.replica, p.jti, p.exp, p.checkedAt, s.time, ttl)])
    case Send(t, delivery) =>
      if t !in s.pending || s.pending[t].Checked? then s else
      var p := s.pending[t];
      var s1 := s.(pending := s.pending - {t});
      if delivery == FailedBeforeSet then s1 else
      s1.(keys := AfterSetNx(s.keys, Key(p.jti), s.time, p.ttl),
          writes := if FindsNew(s, t) then s.writes + [Write(p.jti, s.time + p.ttl)] else s.writes,
          log := if FindsNew(s, t) && delivery == Answered
                 then s.log + [Acceptance(p.jti, p.exp, off(p.replica), p.checkedAt, s.time)]
                 else s.log)
  }

  function Run(off: Offsets, s: State, steps: seq<Step>): State {
    if steps == [] then s else Next(off, Run(off, s, steps[..|steps| - 1]), steps[|steps| - 1])
  }

  ghost predicate PendingInOrder(off: Offsets, s: State) {
    forall t | t in s.pending ::
      var p := s.pending[t];
      && p.checkedAt <= s.time && p.checkedAt <= p.exp - off(p.replica)
      && (p.Sending? ==> p.ttl > 0 && p.readAt <= s.time && p.exp - off(p.replica) <= p.readAt + p.ttl)
  }

  /** The key of every accepted token outlives the token, on the clock that accepted it. */
  ghost predicate KeysCoverLog(s: State) {
    forall i | 0 <= i < |s.log| :: Key(s.log[i].jti) in s.keys && s.log[i].Until() <= s.keys[Key(s.log[i].jti)]
  }

  /** The server's keys are exactly the writes made so far. */
  ghost predicate KeysAreWrites(s: State) {
    forall jti: string, at: int | s.time <= at ::
      Visible(s.keys, Key(jti), at)
      <==> exists k :: 0 <= k < |s.writes| && s.writes[k].jti == jti && at <= s.writes[k].deadline
  }

  ghost predicate Inv(off: Offsets, s: State) {
    PendingInOrder(off, s) && KeysCoverLog(s) && KeysAreWrites(s)
  }

  lemma {:induction false} SetNxKeepsWrites(s: State, jti: string, ttl: int, s': State)
    requires KeysAreWrites(s) && ttl > 0 && !Visible(s.keys, Key(jti), s.time)
    requires s'.time == s.time && s'.keys == AfterSetNx(s.keys, Key(jti), s.time, ttl)
    requires s'.writes == s.writes + [Write(jti, s.time + ttl)]
    ensures KeysAreWrites(s')
  {
    var n := |s.writes|;
    forall other: string, at: int | s.time <= at
      ensures Visible(s'.keys, Key(other), at) <==>
              exists k :: 0 <= k < |s'.writes| && s'.writes[k].jti == other && at <= s'.writes[k].deadline
    {
      KeyInjective(jti, other);
      if other == jti {
        assert s'.writes[n] == Write(jti, s.time + ttl);
        assert forall k | 0 <= k < n && s.writes[k].jti == jti :: s.writes[k].deadline < s.time;
      } else {
        assert Visible(s'.keys, Key(other), at) == Visible(s.keys, Key(other), at);
        assert forall k | 0 <= k < n :: s'.writes[k] == s.writes[k];
      }
    }
  }

  lemma {:induction false} SendKeepsInv(off: Offsets, s: State, t: nat, delivery: Delivery)
    requires Inv(off, s)
    ensures Inv(off, Next(off, s, Send(t, delivery)))
  {
    var s' := Next(off, s, Send(t, delivery));
    if FindsNew(s, t) && delivery != FailedBeforeSet {
      var p := s.pending[t];
      SetNxKeepsWrites(s, p.jti, p.ttl, s');
      forall i | 0 <= i < |s'.log|
        ensures Key(s'.log[i].jti) in s'.keys && s'.log[i].Until() <= s'.keys[Key(s'.log[i].jti)]
      {
        if i < |s.log| {
          KeyInjective(s.log[i].jti, p.jti);
        }
      }
    } else {
      assert s'.keys == s.keys && s'.writes == s.writes && s'.log == s.log;
    }
  }

  lemma {:induction false} NextKeepsInv(off: Offsets, s: State, step: Step)
    requires Inv(off, s)
    ensures Inv(off, Next(off, s, step))
  {
    if step.Send? {
      SendKeepsInv(off, s, step.thread, step.delivery);
    }
  }

  lemma {:induction false} RunKeepsInv(off: Offsets, s: State, steps: seq<Step>)
    requires Init(s)
    ensures Inv(off, Run(off, s, steps))
  {
    if steps != [] {
      RunKeepsInv(off, s, steps[..|steps| - 1]);
      NextKeepsInv(off, Run(off, s, steps[..|steps| - 1]), steps[|steps| - 1]);
    }
  }

  /** The shared store refines the same abstract store, with or without lost answers. */
  lemma {:induction false} NextRefinesAbstract(off: Offsets, s: State, step: Step)
    requires Inv(off, s)
    ensures AbstractNext(s.log, Next(off, s, step).log)
  {
    if step.Send? && FindsNew(s, step.thread) && step.delivery == Answered {
      var p := s.pending[step.thread];
      var a := Acceptance(p.jti, p.exp, off(p.replica), p.checkedAt, s.time);
      assert a.TimelyChecked() && MayAccept(s.log, a.jti, a.storedAt);
      assert Next(off, s, step).log == s.log + [a];
    }
  }

  /** Safety of every interleaving of every number of replicas, lost answers included. */
  lemma {:induction false} ReplaySafe(off: Offsets, s: State, steps: seq<Step>)
    requires Init(s)
    ensures Lawful(Run(off, s, steps).log)
    ensures SkewWindow(Run(off, s, steps).log)
    ensures (forall r :: off(r) == 0) ==> AtMostOneOnTime(Run(off, s, steps).log)
    ensures (forall r :: off(r) == 0) && Instantaneous(Run(off, s, steps).log) ==> ExpiriesGrow(Run(off, s, steps).log)
  {
    RunIsLawful(off, s, steps);
    LawConsequences(Run(off, s, steps).log);
  }

  lemma {:induction false} RunIsLawful(off: Offsets, s: State, steps: seq<Step>)
    requires Init(s)
    ensures Lawful(Run(off, s, steps).log)
    ensures (forall r :: off(r) == 0) ==> Synchronised(Run(off, s, steps).log)
  {
    if steps != [] {
      var before := steps[..|steps| - 1];
      RunIsLawful(off, s, before);
      RunKeepsInv(off, s, before);
      NextRefinesAbstract(off, Run(off, s, before), steps[|steps| - 1]);
      AbstractNextKeepsLaw(Run(off, s, before).log, Run(off, s, steps).log);
    }
  }

  /** A command finds no key exactly when every key written for its jti has run out. */
  lemma {:induction false} FindsNewIff(off: Offsets, s0: State, steps: seq<Step>, t: nat)
    requires Init(s0) && t in Run(off, s0, steps).pending && Run(off, s0, steps).pending[t].Sending?
    ensures var s := Run(off, s0, steps);
            FindsNew(s, t) <==>
            forall k | 0 <= k < |s.writes| && s.writes[k].jti == s.pending[t].jti :: s.writes[k].deadline < s.time
  {
    RunKeepsInv(off, s0, steps);
    var s := Run(off, s0, steps);
    assert FindsNew(s, t) <==> !Visible(s.keys, Key(s.pending[t].jti), s.time);
  }

  /**
   * Exactly when an answered command lets a request in: no key written for its jti, by an
   * acceptance or by a command whose answer was lost, has a deadline still ahead.
   */
  lemma {:induction false} AcceptsIffNoDeadlineAhead(off: Offsets, s0: State, steps: seq<Step>, t: nat)
    requires Init(s0) && t in Run(off, s0, steps).pending && Run(off, s0, steps).pending[t].Sending?
    ensures var s := Run(off, s0, steps); var jti := s.pending[t].jti;
            && (Next(off, s, Send(t, Answered)).log != s.log <==>
                forall k | 0 <= k < |s.writes| && s.writes[k].jti == jti :: s.writes[k].deadline < s.time)
            && Next(off, s, Send(t, FailedAfterSet)).log == s.log
            && Next(off, s, Send(t, FailedBeforeSet)).log == s.log
  {
    FindsNewIff(off, s0, steps, t);
  }

  /** A token that passes the time check, with no key of its jti visible, is let in on the spot. */
  lemma {:induction false} LetInNow(off: Offsets, s0: State, steps: seq<Step>, t: nat, r: nat, jti: string, exp: int)
    returns (more: seq<Step>)
    requires var s := Run(off, s0, steps);
             && CheckTime(s.time + off(r), 0, exp) == InWindow && jti != "" && !Visible(s.keys, Key(jti), s.time)
    ensures var s := Run(off, s0, steps); var s' := Run(off, s0, more);
            && s'.time == s.time && s'.keys == s.keys[Key(jti) := s.time + Ttl(Unix(exp), s.time + off(r))]
            && s'.log == s.log + [Acceptance(jti, Unix(exp), off(r), s.time, s.time)]
  {
    var s := Run(off, s0, steps);
    var s1 := Next(off, s, Check(t, r, jti, 0, exp));
    var s2 := Next(off, s1, ComputeTtl(t));
    more := RunExtend(off, s0, steps, s, Check(t, r, jti, 0, exp), s1);
    more := RunExtend(off, s0, more, s1, ComputeTtl(t), s2);
    more := RunExtend(off, s0, more, s2, Send(t, Answered), Next(off, s2, Send(t, Answered)));
  }

  /**
   * The skew window is not empty: a token accepted by a replica ten seconds ahead is accepted again,
   * while still unexpired, by a replica on time.  So without synchronised clocks at-most-once fails.
   */
  lemma {:induction false} SkewLetsTokenInTwice()
    ensures exists off: Offsets, s, steps ::
              && Init(s) && |Run(off, s, steps).log| == 2 && Instantaneous(Run(off, s, steps).log)
              && Run(off, s, steps).log[0].jti == Run(off, s, steps).log[1].jti
              && Run(off, s, steps).log[0].exp == Run(off, s, steps).log[1].exp
  {
    var off: Offsets := r => if r == 0 then 10 * NANOS else 0;
    var s0 := State(0, map[], map[], [], []);
    var first := LetInNow(off, s0, [], 0, 0, "a", 60);
    var s := Run(off, s0, first);
    var waited := RunExtend(off, s0, first, s, Tick(55 * NANOS), s.(time := 55 * NANOS));
    var second := LetInNow(off, s0, waited, 1, 1, "a", 60);
    assert Run(off, s0, second).log == [Acceptance("a", Unix(60), 10 * NANOS, 0, 0),
                                        Acceptance("a", Unix(60), 0, 55 * NANOS, 55 * NANOS)];
  }

  lemma {:induction false} RunExtend(off: Offsets, s0: State, steps: seq<Step>, s: State, step: Step, s': State)
    returns (more: seq<Step>)
    requires Run(off, s0, steps) == s && Next(off, s, step) == s'
    ensures more == steps + [step] && Run(off, s0, more) == s'
  {
    more := steps + [step];
    assert more[..|steps|] == steps;
  }
}
