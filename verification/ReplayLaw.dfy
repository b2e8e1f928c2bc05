/**
 * The contract both nonce stores must meet, stated on the history of acceptances.
 *
 * An acceptance records who was let in and when.  `checkedAt` and `storedAt` are instants of
 * one global time; the accepting gateway reads that time shifted by its own `offset`, and `exp`
 * is the token's expiry on that shifted clock.
 */
module ReplayLaw {

  datatype Acceptance = Acceptance(jti: string, exp: int, offset: int, checkedAt: int, storedAt: int)
  {
    /** The global instant up to which the accepting gateway's clock still shows the token valid. */
    function Until(): (t: int) {
      exp - offset
    }

    /** The token was unexpired, on the accepting clock, when it passed the time check. */
    ghost predicate TimelyChecked() {
      checkedAt <= Until() && checkedAt <= storedAt
    }
  }

  /** The abstract store: `jti` may be let in at `at` only when every earlier acceptance of it is over. */
  ghost predicate MayAccept(log: seq<Acceptance>, jti: string, at: int) {
    forall i | 0 <= i < |log| && log[i].jti == jti :: log[i].Until() < at
  }

  /** One step of the abstract store: it may refuse anything, and accepts only what it may. */
  ghost predicate AbstractNext(log: seq<Acceptance>, log': seq<Acceptance>) {
    || log' == log
    || (exists a :: log' == log + [a] && a.TimelyChecked() && MayAccept(log, a.jti, a.storedAt))
  }

  /** What a whole history of the abstract store satisfies. */
  ghost predicate Lawful(log: seq<Acceptance>) {
    && (forall i | 0 <= i < |log| :: log[i].TimelyChecked())
    && (forall i, j | 0 <= i < j < |log| && log[i].jti == log[j].jti :: log[i].Until() < log[j].storedAt)
  }

  lemma {:induction false} AbstractNextKeepsLaw(log: seq<Acceptance>, log': seq<Acceptance>)
    requires Lawful(log) && AbstractNext(log, log')
    ensures Lawful(log')
  {
  }

  /** One clock for all: no two acceptances of a token are both stored at or before its expiry. */
  ghost predicate AtMostOneOnTime(log: seq<Acceptance>) {
    forall i, j | 0 <= i < j < |log| && log[i].jti == log[j].jti && log[i].exp == log[j].exp ::
      !(log[i].storedAt <= log[i].exp && log[j].storedAt <= log[j].exp)
  }

  /** When check and store share one instant, acceptances of a jti have strictly growing expiries. */
  ghost predicate ExpiriesGrow(log: seq<Acceptance>) {
    forall i, j | 0 <= i < j < |log| && log[i].jti == log[j].jti :: log[i].exp < log[j].exp
  }

  ghost predicate Synchronised(log: seq<Acceptance>) {
    forall i | 0 <= i < |log| :: log[i].offset == 0
  }

  ghost predicate Instantaneous(log: seq<Acceptance>) {
    forall i | 0 <= i < |log| :: log[i].checkedAt == log[i].storedAt
  }

  /**
   * With per-gateway offsets: a token let in twice, the second time at one instant, was let in
   * the second time by a clock behind the first, inside a window exactly as long as the difference.
   */
  ghost predicate SkewWindow(log: seq<Acceptance>) {
    forall i, j | 0 <= i < j < |log| && log[i].jti == log[j].jti && log[i].exp == log[j].exp
                  && log[j].checkedAt == log[j].storedAt ::
      && log[j].offset < log[i].offset
      && log[i].Until() < log[j].storedAt <= log[i].Until() + (log[i].offset - log[j].offset)
  }

  lemma {:induction false} LawConsequences(log: seq<Acceptance>)
    requires Lawful(log)
    ensures Synchronised(log) ==> AtMostOneOnTime(log)
    ensures Synchronised(log) && Instantaneous(log) ==> ExpiriesGrow(log)
    ensures SkewWindow(log)
  {
  }
}
