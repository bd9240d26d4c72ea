/** What stops a loaded module, and that nothing else does. */
module BrokerAtWork {
  import opened Prelude
  import opened Broker
  import opened BrokerFrame
  import opened BrokerInvariant
  import opened BrokerRuns
  import Patterns

  // ---------- The flag tells what Redis did last ----------

  predicate Starts(a: Action) {
    a.OfMain? && a.main.Load?
  }

  predicate Stops(a: Action) {
    a.OfMain? && (a.main.RefuseLoad? || a.main.Shutdown? || a.main.Unload?)
  }

  predicate StoppedAfter(before: bool, a: Action) {
    Stops(a) || (before && !Starts(a))
  }

  /** A refused load, a shutdown or an unload came since the last load, or had before the run. */
  predicate StoppedSinceLoad(before: bool, run: seq<Action>)
    decreases |run|
  {
    if run == [] then before else StoppedSinceLoad(StoppedAfter(before, run[0]), run[1..])
  }

  /** The flag goes up in the first step after one of them. */
  ghost predicate FlagTells(s: State, stopped: bool) {
    if s.main.RaisingFlag? then stopped else s.closing == stopped
  }

  lemma EventTells(w: World, s: State, a: MainAction, stopped: bool)
    requires FlagTells(s, stopped) && MainReady(s, a) && MainFits(s, a) && IsEvent(a)
    ensures FlagTells(MainStep(w, s, a), StoppedAfter(stopped, OfMain(a)))
  {
  }

  /** Only the events enter the clean-up. */
  lemma OthersDoNotRaise(w: World, s: State, a: MainAction)
    requires MainReady(s, a) && MainFits(s, a) && !IsEvent(a)
    ensures !MainStep(w, s, a).main.RaisingFlag?
  {}

  lemma MainTells(w: World, s: State, a: MainAction, stopped: bool)
    requires FlagTells(s, stopped) && MainReady(s, a) && MainFits(s, a)
    ensures FlagTells(MainStep(w, s, a), StoppedAfter(stopped, OfMain(a)))
  {
    if IsEvent(a) {
      EventTells(w, s, a, stopped);
    } else {
      OthersDoNotRaise(w, s, a);
      if !a.StartCache? && !a.NextInterface? {
        MainLeaves(w, s, a);
      }
    }
  }

  lemma StepTells(w: World, s: State, a: Action, stopped: bool)
    requires FlagTells(s, stopped) && Ready(s, a) && Fits(s, a)
    ensures FlagTells(Next(w, s, a), StoppedAfter(stopped, a))
  {
    if a.OfMain? {
      MainTells(w, s, a.main, stopped);
    }
  }

  lemma {:induction false} RunTells(w: World, s: State, run: seq<Action>, stopped: bool)
    requires FlagTells(s, stopped) && CanRun(w, s, run)
    ensures FlagTells(Final(w, s, run), StoppedSinceLoad(stopped, run))
    decreases |run|
  {
    if run != [] {
      StepTells(w, s, run[0], stopped);
      RunTells(w, Next(w, s, run[0]), run[1..], StoppedAfter(stopped, run[0]));
    }
  }

  /** In every run, whenever Redis has the main thread back, the module is closing exactly when a
      refused load, a shutdown or an unload came since the last load that was not refused. */
  lemma ClosingMeansStopped(w: World, run: seq<Action>)
    requires CanRun(w, INITIAL, run) && Final(w, INITIAL, run).main.EventLoop?
    ensures Final(w, INITIAL, run).closing <==> StoppedSinceLoad(false, run)
  {
    RunTells(w, INITIAL, run, false);
  }

  // ---------- Without the flag every thread is at work ----------

  ghost predicate AtWork(s: State) {
    && (forall m :: 0 <= m < |s.threadIds| ==> s.threadIds[m] < |s.senders| && !s.senders[s.threadIds[m]].pc.Exited?)
    && (s.refresherRunning ==> !s.refresher.pc.Ended?)
  }

  ghost predicate Working(s: State) {
    && (!s.closing ==> AtWork(s))
    && (s.refresher.pc.Dropping? && s.refresher.pc.why.OnClosing? ==> s.closing)
  }

  lemma SenderKeepsWorking(w: World, s: State, i: nat, a: SenderAction)
    requires Working(s) && SenderReady(s, i, a) && SenderFits(s, i, a)
    requires s.senders[i].closing ==> s.closing
    ensures Working(SenderStep(w, s, i, a))
  {}

  lemma RefresherKeepsWorking(w: World, s: State, a: RefresherAction)
    requires Working(s) && RefresherReady(s, a) && RefresherFits(s, a)
    ensures Working(RefresherStep(w, s, a))
  {}

  lemma LoadKeepsWorking(s: State, curlOk: bool, listening: bool, hooked: bool)
    requires Working(s) && Quiet(s)
    ensures Working(LoadStep(s, curlOk, listening, hooked))
  {}

  lemma StartCacheKeepsWorking(s: State, maxAge: int, clientOk: bool, threadOk: bool)
    requires Working(s) && s.main.StartingCache?
    ensures Working(StartCacheStep(s, maxAge, clientOk, threadOk))
  {}

  lemma ListInterfacesKeepsWorking(s: State, found: Option<seq<Interface>>, hasMemory: bool, stored: seq<string>)
    requires Working(s)
    ensures Working(ListInterfacesStep(s, found, hasMemory, stored))
  {
    var s' := ListInterfacesStep(s, found, hasMemory, stored);
    assert s'.threadIds == [];
  }

  lemma NextInterfaceKeepsWorking(s: State, taskOk: bool, threadOk: bool)
    requires Working(s) && s.main.Spawning? && s.main.rest != []
    ensures Working(NextInterfaceStep(s, taskOk, threadOk))
  {}

  lemma EventKeepsWorking(w: World, s: State, a: MainAction)
    requires Working(s) && MainReady(s, a) && MainFits(s, a) && IsEvent(a) && !a.Load?
    ensures Working(MainStep(w, s, a))
  {}

  /** The clean-up works with the flag up. */
  lemma CleanUpKeepsWorking(w: World, s: State, a: MainAction)
    requires MAIN < |s.heap.holds| && MainOk(s) && Working(s)
    requires MainReady(s, a) && MainFits(s, a) && !IsEvent(a) && !StartsThreads(a)
    ensures Working(MainStep(w, s, a))
  {
    MainLeaves(w, s, a);
  }

  lemma MainKeepsWorking(w: World, s: State, a: MainAction)
    requires MAIN < |s.heap.holds| && MainOk(s) && Working(s) && MainReady(s, a) && MainFits(s, a)
    ensures Working(MainStep(w, s, a))
  {
    if a.Load? {
      LoadKeepsWorking(s, a.curlOk, a.listening, a.hooked);
    } else if a.StartCache? {
      StartCacheKeepsWorking(s, w.config.maxAge, a.clientOk, a.threadOk);
    } else if a.ListInterfaces? {
      ListInterfacesKeepsWorking(s, a.found, a.hasMemory, Patterns.Stored(s.patterns, w.selected));
    } else if a.NextInterface? {
      NextInterfaceKeepsWorking(s, a.taskOk, a.threadOk);
    } else if IsEvent(a) {
      EventKeepsWorking(w, s, a);
    } else {
      CleanUpKeepsWorking(w, s, a);
    }
  }

  lemma StepKeepsWorking(w: World, s: State, a: Action)
    requires Inv(w, s) && Working(s) && Ready(s, a) && Fits(s, a)
    ensures Working(Next(w, s, a))
  {
    if a.OfSender? {
      assert SenderOk(w, s, a.i);
      SenderKeepsWorking(w, s, a.i, a.sender);
    } else if a.OfRefresher? {
      RefresherKeepsWorking(w, s, a.refresher);
    } else if a.OfMain? {
      MainKeepsWorking(w, s, a.main);
    }
  }

  lemma {:induction false} RunKeepsWorking(w: World, s: State, run: seq<Action>)
    requires Inv(w, s) && Working(s) && CanRun(w, s, run)
    ensures Working(Final(w, s, run))
    decreases |run|
  {
    if run != [] {
      StepKeepsWorking(w, s, run[0]);
      StepKeeps(w, s, run[0]);
      RunKeepsWorking(w, Next(w, s, run[0]), run[1..]);
    }
  }

  /** Whatever happens, as long as the flag is down no sender of the load has ended, and neither has
      the refresher once it runs. */
  lemma NothingElseStops(w: World, s: State)
    requires Reachable(w, s) && !s.closing
    ensures AtWork(s)
  {
    var run :| CanRun(w, INITIAL, run) && Final(w, INITIAL, run) == s;
    InitialInv(w);
    RunKeepsWorking(w, INITIAL, run);
  }

  /** Together: whenever Redis has the main thread back, either one of the three came since the last
      load, and then no thread is left and none starts before the next load, or none came, and then
      every thread started for this load is at work. */
  lemma StoppedOrAtWork(w: World, run: seq<Action>)
    requires CanRun(w, INITIAL, run) && Final(w, INITIAL, run).main.EventLoop?
    ensures var s := Final(w, INITIAL, run);
            if StoppedSinceLoad(false, run) then s.closing && Quiet(s) else !s.closing && AtWork(s)
  {
    ClosingMeansStopped(w, run);
    var s := Final(w, INITIAL, run);
    ReachableInv(w, s);
    if !s.closing {
      NothingElseStops(w, s);
    }
  }
}
