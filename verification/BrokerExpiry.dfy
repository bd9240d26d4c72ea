/** The reports of an expiry in the runs of the module, and a run that makes two within a minute. */
module BrokerExpiry {
  import opened Settings
  import opened SnapshotHeap
  import opened Broker
  import opened BrokerRuns
  import opened BrokerWalk
  import opened RefreshLoop
  import opened ExpiryReports
  import Backoff
  import BrokerPace
  import PodList

  /** In every run: of two consecutive warnings of a streak less than a minute apart both report the
      expiry exactly when the list crossed its maximum age within the first one's turn. */
  lemma ReportedTwiceInAnyRun(w: World, s: State, i: nat, j: nat)
    requires Reachable(w, s)
    requires Streak(s.refresher.rounds, i, j) && i < j
    requires WarnedAt(w.config.maxAge, s.refresher.rounds, i) && WarnedAt(w.config.maxAge, s.refresher.rounds, j)
    requires forall k :: i < k < j ==> !WarnedAt(w.config.maxAge, s.refresher.rounds, k)
    requires s.refresher.rounds[j].at - s.refresher.rounds[i].at < FAILURE_REMINDER
    ensures ReportsTwice(w.config.maxAge, s.refresher.rounds, i, j) <==>
            Crosses(w.config.maxAge, s.refresher.rounds, i)
  {
    RefresherFollowsTheTimedLoop(w, s);
    ReportedTwiceIffItCrosses(w.config.maxAge, s.refresher.rounds, i, j);
  }

  // ---------- A run that reports it twice ----------

  /** A step of the refresher, of which its own variables and the heap are all that matters. */
  lemma Go(w: World, s: State, a: RefresherAction) returns (t: State)
    requires Reachable(w, s) && RefresherReady(s, a)
    ensures RefresherFits(s, a) && Reachable(w, t)
    ensures t.refresher == RefresherNext(w, s, a) && t.heap == RefresherHeap(w, s, a)
    ensures t.clock == s.clock && t.closing == s.closing && t.maxAge == s.maxAge
  {
    t := Walk(w, s, OfRefresher(a));
  }

  lemma Started(w: World) returns (s: State)
    ensures Reachable(w, s) && s.refresher.pc.Checking? && s.refresher.rounds == []
    ensures !s.closing && s.clock == 0 && s.heap.current.None? && s.heap.holds[..] == [Nothing, Nothing]
  {
    s := INITIAL;
    assert CanRun(w, INITIAL, []) && Final(w, INITIAL, []) == INITIAL;
    s := Walk(w, s, OfMain(Load(true, true, true)));
    s := Walk(w, s, OfMain(Cron));
    s := Walk(w, s, OfMain(StartCache(true, true)));
  }

  /** A request that succeeds, up to publish. */
  lemma Fetches(w: World, s: State, q: PodList.Request) returns (t: State)
    requires Reachable(w, s) && s.refresher.pc.Checking? && !s.closing
    requires w.answer(q).Some? && w.answer(q).value != []
    ensures Reachable(w, t) && t.refresher.pc.Publishing? && t.refresher.rounds == s.refresher.rounds
    ensures t.clock == s.clock && !t.closing && t.heap.current == s.heap.current
  {
    t := Go(w, s, CheckFlag);
    t := Go(w, t, FetchPods(q));
    t := Go(w, t, CheckFlagAgain);
  }

  lemma Allocates(w: World, s: State) returns (t: State)
    requires Reachable(w, s) && s.refresher.pc.Publishing? && !s.closing
    ensures Reachable(w, t) && t.refresher.pc.Swapping? && t.refresher.pc.receivedAt == s.clock
    ensures t.refresher.rounds == s.refresher.rounds && t.refresher.pc.count > 0
    ensures t.clock == s.clock && !t.closing && t.heap.current == s.heap.current
  {
    t := Go(w, s, Allocate(true));
    ReachableInv(w, t);
  }

  /** The first list of a load is published. */
  lemma Succeeds(w: World, s: State) returns (t: State, count: nat)
    requires Reachable(w, s) && s.refresher.pc.Publishing? && !s.closing && s.heap.current.None?
    ensures Reachable(w, t) && t.refresher.pc == Pausing(s.clock + w.config.refresh)
    ensures t.refresher.rounds == s.refresher.rounds + [Good(count, s.clock, s.clock)] && count > 0
    ensures t.clock == s.clock && !t.closing
  {
    t := Allocates(w, s);
    count := t.refresher.pc.count;
    t := Go(w, t, Exchange);
    t := Go(w, t, ReleaseOld);
    t := Go(w, t, NoteSuccess);
  }

  /** A list that cannot be published for want of memory is a failure. */
  lemma LacksMemory(w: World, s: State) returns (t: State)
    requires Reachable(w, s) && s.refresher.pc.Publishing? && !s.closing
    ensures Reachable(w, t) && t.refresher == s.refresher.(pc := Failed)
    ensures t.clock == s.clock && !t.closing
  {
    t := Go(w, s, Allocate(false));
    t := Go(w, t, FreeFetched);
  }

  lemma Looks(w: World, s: State) returns (t: State)
    requires Reachable(w, s) && s.refresher.pc.Failed? && !s.closing
    ensures Reachable(w, t) && !t.closing && t.clock == s.clock
    ensures t.refresher.pc.Logging? && t.refresher == s.refresher.(pc := t.refresher.pc)
    ensures t.refresher.pc.now == t.refresher.pc.checkedAt == s.clock
  {
    t := Go(w, s, ReadClock);
    t := Go(w, t, CheckExpiry);
  }

  /** The turn that failed ends; the clock advances by `d` between is_expired and log_failure. */
  lemma Fails(w: World, s: State, d: nat) returns (t: State)
    requires Reachable(w, s) && s.refresher.pc.Failed? && !s.closing
    ensures Reachable(w, t) && !t.closing && t.clock == s.clock + d
    ensures t.refresher.rounds == s.refresher.rounds + [Bad(s.clock, s.clock, s.clock + d)]
    ensures t.refresher.pc ==
            Pausing(t.clock + Backoff.Delay(w.config.refresh, s.refresher.locals.failures + 1))
  {
    t := Looks(w, s);
    t := Walk(w, t, Tick(d));
    t := Go(w, t, NoteFailure);
  }

  lemma Waits(w: World, s: State, d: nat) returns (t: State)
    requires Reachable(w, s) && s.refresher.pc.Pausing? && s.clock + d >= s.refresher.pc.until
    ensures Reachable(w, t) && t.refresher == s.refresher.(pc := Checking)
    ensures t.clock == s.clock + d && t.closing == s.closing && t.heap.current == s.heap.current
  {
    t := Walk(w, s, Tick(d));
    t := Go(w, t, EndPause);
  }

  /** From one wait to the next: a request that ends in a failed turn `d` seconds long. */
  lemma WaitsAndFails(w: World, s: State, q: PodList.Request, wait: nat, d: nat) returns (t: State)
    requires Reachable(w, s) && s.refresher.pc.Pausing? && s.clock + wait >= s.refresher.pc.until && !s.closing
    requires w.answer(q).Some? && w.answer(q).value != []
    ensures Reachable(w, t) && !t.closing && t.clock == s.clock + wait + d
    ensures t.refresher.rounds == s.refresher.rounds + [Bad(s.clock + wait, s.clock + wait, t.clock)]
    ensures var failures := Run(w.config.maxAge, s.refresher.rounds).locals.failures;
            t.refresher.pc == Pausing(t.clock + Backoff.Delay(w.config.refresh, failures + 1))
  {
    t := Waits(w, s, wait);
    t := Fetches(w, t, q);
    t := LacksMemory(w, t);
    RefresherFollowsTheTimedLoop(w, t);
    t := Fails(w, t, d);
  }

  /** Where some request succeeds, the witness is a run of the module. */
  lemma WitnessIsReachable(w: World, q: PodList.Request) returns (s: State, count: nat)
    requires ValidConfig(w.config) && w.config.refresh <= w.config.maxAge
    requires w.answer(q).Some? && w.answer(q).value != []
    ensures Reachable(w, s) && count > 0 && s.refresher.rounds == Witness(w.config, count)
  {
    var c := w.config;
    s := Started(w);
    s := Fetches(w, s, q);
    s, count := Succeeds(w, s);
    assert s.refresher.rounds == [Good(count, 0, 0)];
    RunStep(c.maxAge, [], Good(count, 0, 0));
    s := WaitsAndFails(w, s, q, c.maxAge, 1);
    Backoff.DelayDoubles(c.refresh, 1);
    s := WaitsAndFails(w, s, q, c.refresh, 0);
  }

  /** The settings decide it for the module too: in some run an expiry is reported twice within a
      minute exactly with these. */
  lemma SomeRunReportsTwiceIff(w: World, q: PodList.Request)
    requires ValidConfig(w.config) && w.answer(q).Some? && w.answer(q).value != []
    ensures (exists s, i, j :: Reachable(w, s) && ReportsTwice(w.config.maxAge, s.refresher.rounds, i, j))
            <==> MayReportTwice(w.config)
  {
    if MayReportTwice(w.config) {
      var s, count := WitnessIsReachable(w, q);
      WitnessReportsTwice(w.config, count);
      assert ReportsTwice(w.config.maxAge, s.refresher.rounds, 1, 2);
    }
    forall s, i, j | Reachable(w, s) && ReportsTwice(w.config.maxAge, s.refresher.rounds, i, j)
      ensures MayReportTwice(w.config)
    {
      BrokerPace.NothingIsHurried(w, s, 0);
      RefresherFollowsTheTimedLoop(w, s);
      ReportingTwiceNeeds(w.config, s.refresher.rounds, i, j);
    }
  }

  /** And for the module as deployed, with its own pod_list_fetch. */
  lemma DeployedReportsTwiceIff(config: Config, selected: seq<string>, leadingZeros: bool)
    requires ValidConfig(config)
    ensures var w := Deploy(config, selected, leadingZeros);
            (exists s, i, j :: Reachable(w, s) && ReportsTwice(config.maxAge, s.refresher.rounds, i, j))
            <==> MayReportTwice(config)
  {
    var q := PodList.SomeRequestSucceeds(leadingZeros);
    SomeRunReportsTwiceIff(Deploy(config, selected, leadingZeros), q);
  }

  /** With every setting at its default but the maximum age, that is from five seconds on. */
  lemma DefaultsMayReportTwice(env: Environment, selected: seq<string>, leadingZeros: bool)
    requires "REDIS_BROADCAST_PODS_REFRESH" !in env
    ensures var c := ReadConfig(env);
            (exists s, i, j :: Reachable(Deploy(c, selected, leadingZeros), s)
                               && ReportsTwice(c.maxAge, s.refresher.rounds, i, j)) <==> c.maxAge >= 5
  {
    EveryEnvironmentIsValid(env);
    DeployedReportsTwiceIff(ReadConfig(env), selected, leadingZeros);
  }
}
