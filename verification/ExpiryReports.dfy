/** Under which settings the expiry of a list is reported twice within a minute. */
module ExpiryReports {
  import opened Prelude
  import opened Staleness
  import opened Settings
  import opened Backoff
  import opened RefreshLoop

  /** Turns `i` and `j` of one streak warn, none in between does, they are less than a minute apart,
      and both warnings say that the list is too old. */
  ghost predicate ReportsTwice(maxAge: int, rounds: seq<Round>, i: nat, j: nat) {
    && Streak(rounds, i, j) && i < j
    && WarnedAt(maxAge, rounds, i) && WarnedAt(maxAge, rounds, j)
    && (forall k :: i < k < j ==> !WarnedAt(maxAge, rounds, k))
    && rounds[j].at - rounds[i].at < FAILURE_REMINDER
    && StandingAt(maxAge, rounds, i).Expired? && StandingAt(maxAge, rounds, j).Expired?
  }

  /** The settings under which this can happen. */
  predicate MayReportTwice(c: Config) {
    c.refresh <= c.maxAge && c.refresh <= FAILURE_REMINDER - 2
  }

  lemma PauseIsRefreshAtLeast(c: Config, s: Loop)
    requires ValidConfig(c)
    ensures Pause(c.refresh, s) >= c.refresh
  {
    if s.locals.failures > 0 {
      DelayMonotone(c.refresh, 1, s.locals.failures);
      DelayDoubles(c.refresh, 1);
    }
  }

  /** When a request fails, the stored list is at least one refresh interval old. */
  lemma {:induction false} ListIsARefreshOld(c: Config, rounds: seq<Round>, i: nat)
    requires ValidConfig(c) && Unhurried(c, rounds) && Chronological(rounds)
    requires i < |rounds| && rounds[i].Bad? && Before(c.maxAge, rounds, i).current.Some?
    ensures rounds[i].at >= Before(c.maxAge, rounds, i).current.value.receivedAt + c.refresh
  {
    if i > 0 {
      BeforeNext(c.maxAge, rounds, i - 1);
      PauseIsRefreshAtLeast(c, Before(c.maxAge, rounds, i));
      assert Due(c, rounds[..i], Judged(rounds[i]));
      if rounds[i - 1].Bad? {
        ListIsARefreshOld(c, rounds, i - 1);
      }
    }
  }

  /** Between two failures lies at least the refresh interval. */
  lemma NextFailureIsARefreshLater(c: Config, rounds: seq<Round>, i: nat, j: nat)
    requires ValidConfig(c) && Unhurried(c, rounds) && Chronological(rounds)
    requires Streak(rounds, i, j) && i < j
    ensures rounds[j].at >= rounds[i].loggedAt + c.refresh
  {
    PauseIsRefreshAtLeast(c, Before(c.maxAge, rounds, i + 1));
    assert Due(c, rounds[..i + 1], Judged(rounds[i + 1]));
    assert i + 1 < j ==> rounds[i + 1].loggedAt <= rounds[j].at;
  }

  /** A loop that keeps its pauses reports an expiry twice only under these settings. */
  lemma ReportingTwiceNeeds(c: Config, rounds: seq<Round>, i: nat, j: nat)
    requires ValidConfig(c) && Unhurried(c, rounds) && Chronological(rounds)
    requires ReportsTwice(c.maxAge, rounds, i, j)
    ensures MayReportTwice(c)
  {
    ReportedTwiceIffItCrosses(c.maxAge, rounds, i, j);
    ListIsARefreshOld(c, rounds, i);
    NextFailureIsARefreshLater(c, rounds, i, j);
  }

  /** A list received at 0, a request that fails when it has just not expired, and the next one. */
  function Witness(c: Config, count: nat): seq<Round> {
    var again := c.maxAge + 1 + c.refresh;
    [Good(count, 0, 0), Bad(c.maxAge, c.maxAge, c.maxAge + 1), Bad(again, again, again)]
  }

  lemma WitnessRuns(c: Config, count: nat)
    requires ValidConfig(c) && c.maxAge > 0 && count > 0
    ensures var rounds, held := Witness(c, count), Some(Held(count, 0));
            && Before(c.maxAge, rounds, 0) == Loop(START, None, [])
            && Before(c.maxAge, rounds, 1) == Loop(Locals(0, count, false, 0, 0), held, [FirstList(count)])
            && Before(c.maxAge, rounds, 2) == Loop(Locals(1, count, false, c.maxAge, c.maxAge), held,
                 [FirstList(count), Warning(c.maxAge, 0, Expired(c.maxAge + 1))])
  {
    var rounds := Witness(c, count);
    assert rounds[..0] == [];
    BeforeNext(c.maxAge, rounds, 0);
    BeforeNext(c.maxAge, rounds, 1);
  }

  lemma WitnessIsUnhurried(c: Config, count: nat)
    requires ValidConfig(c) && c.refresh <= c.maxAge && count > 0
    ensures Unhurried(c, Witness(c, count)) && Chronological(Witness(c, count))
  {
    var rounds := Witness(c, count);
    WitnessRuns(c, count);
    DelayDoubles(c.refresh, 1);
    assert rounds[..1][0] == rounds[0] && rounds[..2][1] == rounds[1];
  }

  lemma WitnessReportsTwice(c: Config, count: nat)
    requires ValidConfig(c) && MayReportTwice(c) && count > 0
    ensures ReportsTwice(c.maxAge, Witness(c, count), 1, 2)
  {
    var rounds := Witness(c, count);
    WitnessRuns(c, count);
    WarnedAtMeans(c.maxAge, rounds, 1);
    ExpiryIsReported(c.maxAge, rounds, 2);
  }

  /** So the settings decide: with these, and with no others, some loop that keeps its pauses
      reports an expiry twice within a minute. */
  lemma ExpiryCanBeReportedTwice(c: Config)
    requires ValidConfig(c)
    ensures (exists rounds, i, j ::
               Unhurried(c, rounds) && Chronological(rounds) && ReportsTwice(c.maxAge, rounds, i, j))
            <==> MayReportTwice(c)
  {
    if MayReportTwice(c) {
      WitnessIsUnhurried(c, 1);
      WitnessReportsTwice(c, 1);
      assert ReportsTwice(c.maxAge, Witness(c, 1), 1, 2);
    }
    forall rounds, i, j | Unhurried(c, rounds) && Chronological(rounds) && ReportsTwice(c.maxAge, rounds, i, j)
      ensures MayReportTwice(c)
    {
      ReportingTwiceNeeds(c, rounds, i, j);
    }
  }
}
