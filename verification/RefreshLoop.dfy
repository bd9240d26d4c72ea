/** refresh_pods of pod_cache.c as a timed state machine: failure streaks, reminders and expiry. */
module RefreshLoop {
  import opened Prelude
  import opened Staleness
  import opened Settings
  import opened Backoff

  /** FAILURE_REMINDER. */
  const FAILURE_REMINDER := 60

  /** One turn of the loop that did not end in closing, with the instants at which it read the clock.
      A good turn published `count` pods stamped `receivedAt` and did its bookkeeping at `at`. A bad
      one took its `now` at `at`, ran is_expired at `checkedAt` and described the list at `loggedAt`. */
  datatype Round =
    | Good(count: nat, receivedAt: int, at: int)
    | Bad(at: int, checkedAt: int, loggedAt: int)

  /** What is logged, without its text. */
  datatype Message =
    | FirstList(count: nat)
    | ListChanged(count: nat)
    | Recovered(after: int, count: nat)
    | Warning(at: int, failingFor: int, standing: Standing)

  /** The local variables of refresh_pods. */
  datatype Locals = Locals(
    failures: nat,
    lastCount: nat,
    expiryReported: bool,
    failingSince: int,
    lastReminder: int)

  const START := Locals(0, 0, false, 0, 0)

  /** A turn that published: pod_cache.c:238-257. */
  function OnGood(l: Locals, count: nat, at: int): (Locals, seq<Message>) {
    (l.(failures := 0, expiryReported := false, lastCount := count),
     if l.failures > 0 then [Recovered(at - l.failingSince, count)]
     else if l.lastCount == 0 then [FirstList(count)]
     else if count != l.lastCount then [ListChanged(count)]
     else [])
  }

  /** Does a failed turn warn? */
  predicate Warns(l: Locals, at: int, expired: bool) {
    l.failures == 0 || at - l.lastReminder >= FAILURE_REMINDER || (expired && !l.expiryReported)
  }

  /** A turn that failed, pod_cache.c:264-281, given the answer of is_expired and what log_failure makes of the list. */
  function OnBad(l: Locals, at: int, expired: bool, standing: Standing): (Locals, seq<Message>) {
    var since := if l.failures == 0 then at else l.failingSince;
    var warns := Warns(l, at, expired);
    (l.(failures := l.failures + 1,
        expiryReported := expired,
        failingSince := since,
        lastReminder := if warns then at else l.lastReminder),
     if warns then [Warning(at, at - since, standing)] else [])
  }

  /** The loop after some turns. */
  datatype Loop = Loop(locals: Locals, current: Option<Held>, log: seq<Message>)

  function Step(maxAge: int, s: Loop, r: Round): Loop {
    match r
    case Good(count, receivedAt, at) =>
      var (l, m) := OnGood(s.locals, count, at);
      Loop(l, Some(Held(count, receivedAt)), s.log + m)
    case Bad(at, checkedAt, loggedAt) =>
      var (l, m) := OnBad(s.locals, at, IsExpired(s.current, checkedAt, maxAge),
                          FailureStanding(s.current, loggedAt, maxAge));
      Loop(l, s.current, s.log + m)
  }

  function Run(maxAge: int, rounds: seq<Round>): Loop {
    if rounds == [] then Loop(START, None, [])
    else Step(maxAge, Run(maxAge, rounds[..|rounds| - 1]), rounds[|rounds| - 1])
  }

  /** How long the loop sleeps after its last turn. */
  function Pause(refresh: int, s: Loop): int {
    if s.locals.failures == 0 then refresh else Delay(refresh, s.locals.failures)
  }

  function Pauses(refresh: int, maxAge: int, rounds: seq<Round>): (p: seq<int>)
    ensures |p| == |rounds|
  {
    if rounds == [] then []
    else Pauses(refresh, maxAge, rounds[..|rounds| - 1]) + [Pause(refresh, Run(maxAge, rounds))]
  }

  /** refresh_pods itself, fed with the turns it takes. `failures` is an int in the source; a streak
      long enough to overflow it lasts centuries, and the bound on `rounds` leaves it out. */
  method RefreshPods(refresh: Int32, maxAge: int, rounds: seq<Round>)
    returns (log: seq<Message>, pauses: seq<int>)
    requires refresh >= 1 && |rounds| < INT_MAX
    ensures log == Run(maxAge, rounds).log
    ensures pauses == Pauses(refresh as int, maxAge, rounds)
  {
    var failures: Int32 := 0;
    var lastCount: nat := 0;
    var expiryReported := false;
    var failingSince, lastReminder := 0, 0;
    var current: Option<Held> := None;
    log, pauses := [], [];
    var i := 0;
    while i < |rounds|
      invariant 0 <= i <= |rounds|
      invariant 0 <= failures as int <= i
      invariant Run(maxAge, rounds[..i]) ==
                Loop(Locals(failures as int, lastCount, expiryReported, failingSince, lastReminder), current, log)
      invariant pauses == Pauses(refresh as int, maxAge, rounds[..i])
    {
      assert rounds[..i + 1][..i] == rounds[..i];
      match rounds[i] {
      case Good(count, receivedAt, at) =>
        current := Some(Held(count, receivedAt));
        if failures > 0 {
          log := log + [Recovered(at - failingSince, count)];
        } else if lastCount == 0 {
          log := log + [FirstList(count)];
        } else if count != lastCount {
          log := log + [ListChanged(count)];
        }
        failures := 0;
        expiryReported := false;
        lastCount := count;
        pauses := pauses + [refresh as int];
      case Bad(now, checkedAt, loggedAt) =>
        var expired := IsExpired(current, checkedAt, maxAge);
        if failures == 0 {
          failingSince := now;
          lastReminder := now;
          log := log + [Warning(now, 0, FailureStanding(current, loggedAt, maxAge))];
        } else if now - lastReminder >= FAILURE_REMINDER || (expired && !expiryReported) {
          lastReminder := now;
          log := log + [Warning(now, now - failingSince, FailureStanding(current, loggedAt, maxAge))];
        }
        expiryReported := expired;
        failures := failures + 1;
        var pause := NextDelay(refresh, failures);
        pauses := pauses + [pause as int];
      }
      i := i + 1;
    }
    assert rounds[..|rounds|] == rounds;
  }

  // ---------- Streaks and warnings ----------

  /** The loop before turn `i`. */
  function Before(maxAge: int, rounds: seq<Round>, i: nat): Loop
    requires i <= |rounds|
  {
    Run(maxAge, rounds[..i])
  }

  lemma BeforeNext(maxAge: int, rounds: seq<Round>, i: nat)
    requires i < |rounds|
    ensures Before(maxAge, rounds, i + 1) == Step(maxAge, Before(maxAge, rounds, i), rounds[i])
  {
    assert rounds[..i + 1][..i] == rounds[..i];
  }

  /** Turns `i` to `j` belong to one failure streak. */
  ghost predicate Streak(rounds: seq<Round>, i: nat, j: nat) {
    i <= j < |rounds| && forall k :: i <= k <= j ==> rounds[k].Bad?
  }

  /** What is_expired answered in turn `i`. */
  ghost predicate ExpiredAt(maxAge: int, rounds: seq<Round>, i: nat)
    requires i < |rounds| && rounds[i].Bad?
  {
    IsExpired(Before(maxAge, rounds, i).current, rounds[i].checkedAt, maxAge)
  }

  /** Turn `i` logged a warning. */
  ghost predicate WarnedAt(maxAge: int, rounds: seq<Round>, i: nat)
    requires i < |rounds|
  {
    |Before(maxAge, rounds, i + 1).log| > |Before(maxAge, rounds, i).log|
  }

  lemma WarnedAtMeans(maxAge: int, rounds: seq<Round>, i: nat)
    requires i < |rounds| && rounds[i].Bad?
    ensures WarnedAt(maxAge, rounds, i) <==>
            Warns(Before(maxAge, rounds, i).locals, rounds[i].at, ExpiredAt(maxAge, rounds, i))
  {
    BeforeNext(maxAge, rounds, i);
  }

  /** The instants of a run are in order. */
  ghost predicate Chronological(rounds: seq<Round>) {
    && (forall i :: 0 <= i < |rounds| && rounds[i].Bad? ==>
          rounds[i].at <= rounds[i].checkedAt <= rounds[i].loggedAt)
    && (forall i, j :: 0 <= i < j < |rounds| && rounds[i].Bad? && rounds[j].Bad? ==>
          rounds[i].loggedAt <= rounds[j].at)
  }

  /** Within a streak the stored list stays as it was. */
  lemma {:induction false} StreakKeepsList(maxAge: int, rounds: seq<Round>, i: nat, j: nat)
    requires Streak(rounds, i, j)
    ensures Before(maxAge, rounds, j).current == Before(maxAge, rounds, i).current
    decreases j
  {
    if i < j {
      StreakKeepsList(maxAge, rounds, i, j - 1);
      BeforeNext(maxAge, rounds, j - 1);
    }
  }

  /** In a streak that began with turn `first`, the counter is the length of the streak so far and
      `failing_since` is the instant of its first failure. */
  lemma {:induction false} StreakCounters(maxAge: int, rounds: seq<Round>, first: nat, j: nat)
    requires Streak(rounds, first, j) && (first == 0 || rounds[first - 1].Good?)
    ensures Before(maxAge, rounds, first).locals.failures == 0
    ensures Before(maxAge, rounds, j + 1).locals.failures == j + 1 - first
    ensures Before(maxAge, rounds, j + 1).locals.failingSince == rounds[first].at
    decreases j
  {
    if first > 0 {
      BeforeNext(maxAge, rounds, first - 1);
    }
    if first < j {
      StreakCounters(maxAge, rounds, first, j - 1);
    }
    BeforeNext(maxAge, rounds, j);
  }

  /** The n-th failure in a row is followed by the n-th backoff. */
  lemma PauseInStreak(c: Config, rounds: seq<Round>, first: nat, j: nat)
    requires ValidConfig(c)
    requires Streak(rounds, first, j) && (first == 0 || rounds[first - 1].Good?)
    ensures Pauses(c.refresh, c.maxAge, rounds[..j + 1])[j] == Delay(c.refresh, j + 1 - first)
  {
    StreakCounters(c.maxAge, rounds, first, j);
  }

  /** After a warning at `i` and none since, the reminder clock stands at that warning and the
      remembered expiry is the last answer of is_expired. */
  lemma {:induction false} SinceWarning(maxAge: int, rounds: seq<Round>, i: nat, j: nat)
    requires Streak(rounds, i, j) && i < j && WarnedAt(maxAge, rounds, i)
    requires forall k :: i < k < j ==> !WarnedAt(maxAge, rounds, k)
    ensures Before(maxAge, rounds, j).locals.lastReminder == rounds[i].at
    ensures Before(maxAge, rounds, j).locals.expiryReported == ExpiredAt(maxAge, rounds, j - 1)
    ensures Before(maxAge, rounds, j).locals.failures > 0
    decreases j
  {
    BeforeNext(maxAge, rounds, j - 1);
    WarnedAtMeans(maxAge, rounds, j - 1);
    if i < j - 1 {
      SinceWarning(maxAge, rounds, i, j - 1);
    }
  }

  /** Two consecutive warnings of one streak are at least a minute apart, or the second one marks
      the change from not expired to expired. */
  lemma WarningsAreSpaced(maxAge: int, rounds: seq<Round>, i: nat, j: nat)
    requires Streak(rounds, i, j) && i < j
    requires WarnedAt(maxAge, rounds, i) && WarnedAt(maxAge, rounds, j)
    requires forall k :: i < k < j ==> !WarnedAt(maxAge, rounds, k)
    ensures || rounds[j].at - rounds[i].at >= FAILURE_REMINDER
            || (ExpiredAt(maxAge, rounds, j) && !ExpiredAt(maxAge, rounds, j - 1))
  {
    SinceWarning(maxAge, rounds, i, j);
    WarnedAtMeans(maxAge, rounds, j);
  }

  /** That change happens at most once per streak: expiry is final while requests fail. */
  lemma ExpiryChangesOnce(maxAge: int, rounds: seq<Round>, i: nat, j: nat)
    requires Streak(rounds, i, j) && Chronological(rounds) && i < j
    requires ExpiredAt(maxAge, rounds, i)
    ensures ExpiredAt(maxAge, rounds, j)
  {
    StreakKeepsList(maxAge, rounds, i, j);
    ExpiryIsFinal(Before(maxAge, rounds, i).current, rounds[i].checkedAt, rounds[j].checkedAt, maxAge);
  }

  lemma NotExpiredBefore(maxAge: int, rounds: seq<Round>, i: nat, j: nat)
    requires Streak(rounds, i, j) && Chronological(rounds) && !ExpiredAt(maxAge, rounds, j)
    ensures forall k :: i <= k <= j ==> !ExpiredAt(maxAge, rounds, k)
  {
    forall k | i <= k < j
      ensures !ExpiredAt(maxAge, rounds, k)
    {
      if ExpiredAt(maxAge, rounds, k) {
        ExpiryChangesOnce(maxAge, rounds, k, j);
      }
    }
  }

  /** Both together: of two consecutive warnings of one streak less than a minute apart, the second
      is the first turn of the streak that found the list expired. */
  lemma CloseWarningsReportExpiry(maxAge: int, rounds: seq<Round>, i: nat, j: nat)
    requires Streak(rounds, i, j) && Chronological(rounds) && i < j
    requires WarnedAt(maxAge, rounds, i) && WarnedAt(maxAge, rounds, j)
    requires forall k :: i < k < j ==> !WarnedAt(maxAge, rounds, k)
    ensures || rounds[j].at - rounds[i].at >= FAILURE_REMINDER
            || (ExpiredAt(maxAge, rounds, j) && forall k :: i <= k < j ==> !ExpiredAt(maxAge, rounds, k))
  {
    WarningsAreSpaced(maxAge, rounds, i, j);
    if !ExpiredAt(maxAge, rounds, j - 1) {
      NotExpiredBefore(maxAge, rounds, i, j - 1);
    }
  }

  /** The moment announcing stops is reported at once: the first turn of a streak that finds the
      list expired warns, whenever the last reminder was. */
  lemma ExpiryIsReported(maxAge: int, rounds: seq<Round>, i: nat)
    requires 0 < i < |rounds| && rounds[i].Bad? && ExpiredAt(maxAge, rounds, i)
    requires rounds[i - 1].Good? || !ExpiredAt(maxAge, rounds, i - 1)
    ensures WarnedAt(maxAge, rounds, i)
  {
    BeforeNext(maxAge, rounds, i - 1);
    WarnedAtMeans(maxAge, rounds, i);
  }

  /** Every streak opens with a warning. */
  lemma StreakOpensWithWarning(maxAge: int, rounds: seq<Round>, i: nat)
    requires i < |rounds| && rounds[i].Bad? && (i == 0 || rounds[i - 1].Good?)
    ensures WarnedAt(maxAge, rounds, i)
  {
    if i > 0 {
      BeforeNext(maxAge, rounds, i - 1);
    }
    WarnedAtMeans(maxAge, rounds, i);
  }

  // ---------- How long a failing loop stays quiet ----------

  /** Each failed turn comes within the pause the previous one asked for, plus one request's
      timeout, plus `slack` for everything in between. */
  ghost predicate Paced(c: Config, slack: nat, rounds: seq<Round>) {
    forall i :: 0 < i < |rounds| && rounds[i].Bad? && rounds[i - 1].Bad? ==>
      rounds[i].at - rounds[i - 1].at <=
        Pause(c.refresh, Before(c.maxAge, rounds, i)) + c.timeout + slack
  }

  /** A turn that stays silent is within a minute of the last warning. */
  lemma SilenceIsRecent(maxAge: int, rounds: seq<Round>, i: nat, k: nat)
    requires Streak(rounds, i, k) && i < k && WarnedAt(maxAge, rounds, i)
    requires forall m :: i < m <= k ==> !WarnedAt(maxAge, rounds, m)
    ensures rounds[k].at - rounds[i].at < FAILURE_REMINDER
  {
    SinceWarning(maxAge, rounds, i, k);
    WarnedAtMeans(maxAge, rounds, k);
  }

  /** While requests keep failing, the next turn that could warn is less than
      60 + timeout + max(refresh, 30) seconds (and slack) after the last warning. */
  lemma QuietIsBounded(c: Config, slack: nat, rounds: seq<Round>, i: nat, j: nat)
    requires ValidConfig(c) && Paced(c, slack, rounds)
    requires Streak(rounds, i, j) && i < j && WarnedAt(c.maxAge, rounds, i)
    requires forall k :: i < k < j ==> !WarnedAt(c.maxAge, rounds, k)
    ensures rounds[j].at - rounds[i].at < FAILURE_REMINDER + c.timeout + Max(c.refresh, 30) + slack
  {
    BeforeNext(c.maxAge, rounds, j - 1);
    if i < j - 1 {
      SilenceIsRecent(c.maxAge, rounds, i, j - 1);
    }
  }

  // ---------- How soon the next turn may come ----------

  lemma RunStep(maxAge: int, rounds: seq<Round>, r: Round)
    ensures Run(maxAge, rounds + [r]) == Step(maxAge, Run(maxAge, rounds), r)
  {
    assert (rounds + [r])[..|rounds|] == rounds;
  }

  /** When a turn got its answer judged, and when it went to sleep. */
  function Judged(r: Round): int {
    match r
    case Good(_, receivedAt, _) => receivedAt
    case Bad(at, _, _) => at
  }

  function AsleepAt(r: Round): int {
    match r
    case Good(_, _, at) => at
    case Bad(_, _, loggedAt) => loggedAt
  }

  /** The end of the sleep after the last of these turns. */
  function NextTurn(c: Config, rounds: seq<Round>): int
    requires rounds != []
  {
    AsleepAt(rounds[|rounds| - 1]) + Pause(c.refresh, Run(c.maxAge, rounds))
  }

  ghost predicate Due(c: Config, rounds: seq<Round>, t: int) {
    rounds == [] || NextTurn(c, rounds) <= t
  }

  /** No turn judges an answer before the sleep of the turn before it is over, nor goes to sleep
      before it has. */
  ghost predicate Unhurried(c: Config, rounds: seq<Round>) {
    && (forall i :: 0 <= i < |rounds| ==> Judged(rounds[i]) <= AsleepAt(rounds[i]))
    && (forall i :: 0 < i < |rounds| ==> Due(c, rounds[..i], Judged(rounds[i])))
  }

  lemma UnhurriedGrows(c: Config, rounds: seq<Round>, r: Round)
    requires Unhurried(c, rounds) && Due(c, rounds, Judged(r)) && Judged(r) <= AsleepAt(r)
    ensures Unhurried(c, rounds + [r])
  {
    var all := rounds + [r];
    forall i | 0 < i < |all|
      ensures Due(c, all[..i], Judged(all[i]))
    {
      if i < |rounds| {
        assert all[..i] == rounds[..i];
      } else {
        assert all[..i] == rounds;
      }
    }
  }

  lemma TurnPace(c: Config, rounds: seq<Round>, r: Round)
    requires Unhurried(c, rounds) && Due(c, rounds, Judged(r)) && Judged(r) <= AsleepAt(r)
    ensures Unhurried(c, rounds + [r])
    ensures NextTurn(c, rounds + [r]) ==
            AsleepAt(r) + if r.Good? then c.refresh else Delay(c.refresh, Run(c.maxAge, rounds).locals.failures + 1)
  {
    UnhurriedGrows(c, rounds, r);
    RunStep(c.maxAge, rounds, r);
  }

  // ---------- is_expired and log_failure look at the clock twice ----------

  /** What log_failure makes of the stored list in turn `i`. */
  ghost function StandingAt(maxAge: int, rounds: seq<Round>, i: nat): Standing
    requires i < |rounds| && rounds[i].Bad?
  {
    FailureStanding(Before(maxAge, rounds, i).current, rounds[i].loggedAt, maxAge)
  }

  /** And that is what the warning of a turn says, if there is one. */
  lemma WarningSaysStanding(maxAge: int, rounds: seq<Round>, i: nat)
    requires i < |rounds| && rounds[i].Bad? && WarnedAt(maxAge, rounds, i)
    ensures exists failingFor :: Before(maxAge, rounds, i + 1).log == Before(maxAge, rounds, i).log +
              [Warning(rounds[i].at, failingFor, StandingAt(maxAge, rounds, i))]
  {
    BeforeNext(maxAge, rounds, i);
    var l, at := Before(maxAge, rounds, i).locals, rounds[i].at;
    var failingFor := at - if l.failures == 0 then at else l.failingSince;
    assert Before(maxAge, rounds, i + 1).log == Before(maxAge, rounds, i).log +
             [Warning(at, failingFor, StandingAt(maxAge, rounds, i))];
  }

  /** And it says for how long the streak has lasted: since its first failure. */
  lemma WarningSaysHowLong(maxAge: int, rounds: seq<Round>, first: nat, i: nat)
    requires Streak(rounds, first, i) && (first == 0 || rounds[first - 1].Good?) && WarnedAt(maxAge, rounds, i)
    ensures Before(maxAge, rounds, i + 1).log == Before(maxAge, rounds, i).log +
              [Warning(rounds[i].at, rounds[i].at - rounds[first].at, StandingAt(maxAge, rounds, i))]
  {
    BeforeNext(maxAge, rounds, i);
    StreakCounters(maxAge, rounds, first, first);
    if first < i {
      StreakCounters(maxAge, rounds, first, i - 1);
    }
  }

  /** The first list of a run is announced. */
  lemma FirstListIsSaid(maxAge: int, rounds: seq<Round>)
    requires rounds != [] && rounds[0].Good?
    ensures Before(maxAge, rounds, 1).log == [FirstList(rounds[0].count)]
  {
    BeforeNext(maxAge, rounds, 0);
  }

  /** A good turn after a good one says something exactly when the number of pods changed. */
  lemma ChangeIsSaid(maxAge: int, rounds: seq<Round>, i: nat)
    requires 0 < i < |rounds| && rounds[i - 1].Good? && rounds[i].Good? && rounds[i - 1].count > 0
    ensures Before(maxAge, rounds, i + 1).log == Before(maxAge, rounds, i).log +
              if rounds[i].count != rounds[i - 1].count then [ListChanged(rounds[i].count)] else []
  {
    BeforeNext(maxAge, rounds, i - 1);
    BeforeNext(maxAge, rounds, i);
  }

  /** A good turn after a streak says how long ago its first failure was. */
  lemma RecoveryIsSaid(maxAge: int, rounds: seq<Round>, first: nat, i: nat)
    requires 0 < i < |rounds| && rounds[i].Good?
    requires Streak(rounds, first, i - 1) && (first == 0 || rounds[first - 1].Good?)
    ensures Before(maxAge, rounds, i + 1).log == Before(maxAge, rounds, i).log +
              [Recovered(rounds[i].at - rounds[first].at, rounds[i].count)]
  {
    StreakCounters(maxAge, rounds, first, i - 1);
    BeforeNext(maxAge, rounds, i);
  }

  /** In turn `i` the stored list outlives its maximum age between is_expired and log_failure. */
  ghost predicate Crosses(maxAge: int, rounds: seq<Round>, i: nat)
    requires i < |rounds| && rounds[i].Bad?
  {
    var c := Before(maxAge, rounds, i).current;
    && c.Some? && c.value.count > 0 && maxAge > 0
    && rounds[i].checkedAt <= c.value.receivedAt + maxAge < rounds[i].loggedAt
  }

  /** The branch log_failure takes agrees with the is_expired of the same turn exactly unless the
      list crosses its maximum age between the two looks. */
  lemma LogAgreesUnlessItCrosses(maxAge: int, rounds: seq<Round>, i: nat)
    requires i < |rounds| && rounds[i].Bad? && rounds[i].checkedAt <= rounds[i].loggedAt
    ensures (ExpiredAt(maxAge, rounds, i) <==> StandingAt(maxAge, rounds, i).Expired?) <==> !Crosses(maxAge, rounds, i)
  {}

  /** Of two consecutive warnings of one streak less than a minute apart, the second always reports
      that the list is too old; the first does so too exactly when the list crossed its maximum age
      between the two looks of that turn. */
  lemma ReportedTwiceIffItCrosses(maxAge: int, rounds: seq<Round>, i: nat, j: nat)
    requires Streak(rounds, i, j) && Chronological(rounds) && i < j
    requires WarnedAt(maxAge, rounds, i) && WarnedAt(maxAge, rounds, j)
    requires forall k :: i < k < j ==> !WarnedAt(maxAge, rounds, k)
    requires rounds[j].at - rounds[i].at < FAILURE_REMINDER
    ensures StandingAt(maxAge, rounds, j).Expired?
    ensures StandingAt(maxAge, rounds, i).Expired? <==> Crosses(maxAge, rounds, i)
  {
    CloseWarningsReportExpiry(maxAge, rounds, i, j);
    StreakKeepsList(maxAge, rounds, i, j);
    LogAgreesUnlessItCrosses(maxAge, rounds, i);
  }

  /** From a warning on: it reports the expiry and the next failure, within the minute, warns again,
      exactly when the list crosses in its turn. */
  lemma NextFailureRepeatsIffItCrosses(maxAge: int, rounds: seq<Round>, i: nat)
    requires Streak(rounds, i, i + 1) && Chronological(rounds) && WarnedAt(maxAge, rounds, i)
    requires rounds[i + 1].at - rounds[i].at < FAILURE_REMINDER
    ensures StandingAt(maxAge, rounds, i).Expired? && WarnedAt(maxAge, rounds, i + 1) <==> Crosses(maxAge, rounds, i)
  {
    if WarnedAt(maxAge, rounds, i + 1) {
      ReportedTwiceIffItCrosses(maxAge, rounds, i, i + 1);
    } else if Crosses(maxAge, rounds, i) {
      StreakKeepsList(maxAge, rounds, i, i + 1);
      ExpiryIsReported(maxAge, rounds, i + 1);
    }
  }
}
