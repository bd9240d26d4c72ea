/** What a clean-up leaves behind: silence until a load succeeds, even when a module stays loaded. */
module BrokerReload {
  import opened SnapshotHeap
  import opened Broker
  import opened BrokerInvariant
  import opened BrokerRuns
  import opened BrokerShutdown

  /** cleanup_threads has run and nothing was loaded since. */
  ghost predicate Silenced(s: State) {
    && s.closing && Quiet(s)
    && !s.main.StartingCache? && !s.main.StartingSenders? && !s.main.Spawning?
    && s.heap.holds != [] && s.heap.holds[MAIN].Nothing?
    && s.base == |s.published|
    && (s.main.JoiningSenders? ==> s.main.k == 0)
  }

  /** Nothing but the handler's own progress, the clock, the guid that each refused load writes, and
      whether Redis still has the module. */
  ghost predicate OnlyHandlerMoved(s: State, s': State) {
    s' == s.(main := s'.main, clock := s'.clock, guid := s'.guid, loaded := s'.loaded, subscribed := s'.subscribed)
  }

  lemma SilencedEvent(w: World, s: State, a: MainAction)
    requires Silenced(s) && MainReady(s, a) && MainFits(s, a)
    requires a in {RefuseLoad, Cron, Shutdown, Unload}
    ensures Silenced(MainStep(w, s, a)) && OnlyHandlerMoved(s, MainStep(w, s, a))
  {}

  lemma SilencedJoin(w: World, s: State, a: MainAction)
    requires Silenced(s) && MainReady(s, a) && MainFits(s, a)
    requires a in {RaiseFlag, FreeThreadIds, JoinRefresher, DestroyClient}
    ensures Silenced(MainStep(w, s, a)) && OnlyHandlerMoved(s, MainStep(w, s, a))
  {}

  lemma SilencedDrop(w: World, s: State, a: MainAction)
    requires Silenced(s) && MainReady(s, a) && MainFits(s, a)
    requires a in {DropCurrent, ReleaseCurrent, FreePatterns}
    ensures Silenced(MainStep(w, s, a)) && OnlyHandlerMoved(s, MainStep(w, s, a))
  {
    if a.DropCurrent? {
      assert Swap(s.heap, MAIN) == s.heap;
    }
  }

  /** A load, a thread start and a join are not among the steps of a silenced module. */
  lemma SilencedSteps(s: State, a: MainAction)
    requires Silenced(s) && MainReady(s, a) && !a.Load?
    ensures a in {RefuseLoad, Cron, Shutdown, Unload, RaiseFlag, FreeThreadIds, JoinRefresher, DestroyClient,
                  DropCurrent, ReleaseCurrent, FreePatterns}
  {}

  lemma SilencedMainStep(w: World, s: State, a: MainAction)
    requires Silenced(s) && MainReady(s, a) && MainFits(s, a) && !a.Load?
    ensures Silenced(MainStep(w, s, a)) && OnlyHandlerMoved(s, MainStep(w, s, a))
  {
    SilencedSteps(s, a);
    if a in {RefuseLoad, Cron, Shutdown, Unload} {
      SilencedEvent(w, s, a);
    } else if a in {RaiseFlag, FreeThreadIds, JoinRefresher, DestroyClient} {
      SilencedJoin(w, s, a);
    } else {
      SilencedDrop(w, s, a);
    }
  }

  lemma SilencedStep(w: World, s: State, a: Action)
    requires Silenced(s) && Ready(s, a) && Fits(s, a)
    requires a.OfMain? ==> !a.main.Load?
    ensures Silenced(Next(w, s, a)) && OnlyHandlerMoved(s, Next(w, s, a))
  {
    if a.OfMain? {
      SilencedMainStep(w, s, a.main);
    }
  }

  predicate NoLoad(run: seq<Action>) {
    forall k :: 0 <= k < |run| && run[k].OfMain? ==> !run[k].main.Load?
  }

  lemma {:induction false} SilencedRun(w: World, s: State, run: seq<Action>)
    requires Silenced(s) && CanRun(w, s, run) && NoLoad(run)
    ensures OnlyHandlerMoved(s, Final(w, s, run))
    decreases |run|
  {
    if run != [] {
      SilencedStep(w, s, run[0]);
      assert forall k :: 0 <= k < |run[1..]| ==> run[1..][k] == run[k + 1];
      SilencedRun(w, Next(w, s, run[0]), run[1..]);
    }
  }

  /** After a clean-up, whether by shutdown, unload or a refused second load, nothing happens any
      more until a load succeeds: no thread starts, nothing is published, and further clean-ups
      change nothing. In particular a refused load of the running module silences it for good. */
  lemma SilentUntilLoad(w: World, s: State, run: seq<Action>)
    requires Reachable(w, s) && s.main.EventLoop? && s.closing
    requires CanRun(w, s, run) && NoLoad(run)
    ensures OnlyHandlerMoved(s, Final(w, s, run))
  {
    ReachableInv(w, s);
    SilencedRun(w, s, run);
  }

  // ---------- A refused load ----------

  /** The clean-up of a module that Redis keeps. */
  ghost predicate Keeping(s: State) {
    s.loaded && s.closing && (s.main.EventLoop? || (CleaningUp(s) && s.main.fate.Keep?))
  }

  lemma MainKeepsModule(w: World, s: State, a: MainAction)
    requires CleaningUp(s) && Keeping(s) && MainReady(s, a) && MainFits(s, a)
    ensures Keeping(MainStep(w, s, a))
  {}

  lemma {:induction false} RunKeepsModule(w: World, s: State, run: seq<Action>)
    requires Keeping(s) && CanRun(w, s, run) && StillCleaning(w, s, run)
    ensures Keeping(Final(w, s, run))
    decreases |run|
  {
    if run != [] {
      if run[0].OfMain? {
        MainKeepsModule(w, s, run[0].main);
      }
      RunKeepsModule(w, Next(w, s, run[0]), run[1..]);
    }
  }

  /** A second load of the running module: RedisModule_Init refuses it, and the flag goes up. */
  ghost function Refuse(w: World, s: State): State
    requires s.main.EventLoop?
  {
    Next(w, Next(w, s, OfMain(RefuseLoad)), OfMain(RaiseFlag))
  }

  /** The refused load cleans up after the first: when the event loop runs again the module is still
      loaded, but its threads are gone and its list is dropped, and by SilentUntilLoad no cron tick
      brings them back. */
  lemma RefusedLoadStopsTheLiveModule(w: World, s: State, run: seq<Action>)
    requires Reachable(w, s) && s.main.EventLoop? && s.loaded
    requires CanRun(w, Refuse(w, s), run) && StillCleaning(w, Refuse(w, s), run)
    requires Final(w, Refuse(w, s), run).main.EventLoop?
    ensures var t := Final(w, Refuse(w, s), run);
            t.loaded && t.closing && Quiet(t)
  {
    ReachableInv(w, s);
    StepKeeps(w, s, OfMain(RefuseLoad));
    StepKeeps(w, Next(w, s, OfMain(RefuseLoad)), OfMain(RaiseFlag));
    RunKeeps(w, Refuse(w, s), run);
    RunKeepsModule(w, Refuse(w, s), run);
  }
}
