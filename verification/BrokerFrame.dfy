/** What a step of the main thread leaves alone. */
module BrokerFrame {
  import opened SnapshotHeap
  import opened HeapProofs
  import opened Broker
  import opened BrokerInvariant
  import opened BrokerSenders

  predicate IsEvent(a: MainAction) {
    a.Load? || a.RefuseLoad? || a.Cron? || a.Shutdown? || a.Unload? || a.EndSpawning?
  }

  predicate StartsThreads(a: MainAction) {
    a.StartCache? || a.ListInterfaces? || a.NextInterface?
  }

  /** Nothing another thread looks at but the flag, where it is raised or cleared, the guid, where a
      load writes it, and the list, where it is dropped; nor what Redis and the module know of each
      other, but where that is noted. */
  predicate OnlyFlag(s: State, s': State, a: MainAction) {
    && s'.clock == s.clock && s'.refresher == s.refresher && s'.senders == s.senders
    && s'.closing == (a.RaiseFlag? || (!a.Load? && s.closing))
    && s'.guid == s.guid + (if a.Load? || a.RefuseLoad? then 1 else 0)
    && s'.loadGuid == (if a.Load? then s'.guid else s.loadGuid)
    && (!a.DropCurrent? && !a.ReleaseCurrent? ==> s'.heap == s.heap)
    && (!a.Load? && !a.Cron? ==> s'.announced == s.announced)
    && (!a.Load? && !a.FreePatterns? ==> s'.loaded == s.loaded && s'.subscribed == s.subscribed)
  }

  lemma EventLeaves(w: World, s: State, a: MainAction)
    requires MainReady(s, a) && MainFits(s, a) && IsEvent(a)
    ensures OnlyFlag(s, MainStep(w, s, a), a)
  {}

  predicate DropsList(a: MainAction) {
    a.DropCurrent? || a.ReleaseCurrent? || a.FreePatterns?
  }

  lemma DropLeaves(w: World, s: State)
    requires MainReady(s, DropCurrent) && MainFits(s, DropCurrent)
    ensures OnlyFlag(s, MainStep(w, s, DropCurrent), DropCurrent)
  {}

  lemma ReleaseLeaves(s: State)
    requires MainReady(s, ReleaseCurrent) && MainFits(s, ReleaseCurrent)
    ensures OnlyFlag(s, ReleaseCurrentStep(s), ReleaseCurrent)
  {}

  lemma FreeLeaves(s: State)
    requires MainReady(s, FreePatterns)
    ensures OnlyFlag(s, FreePatternsStep(s), FreePatterns)
  {}

  lemma StopLeaves(w: World, s: State, a: MainAction)
    requires MainReady(s, a) && MainFits(s, a) && (a.RaiseFlag? || a.JoinSender? || a.FreeThreadIds?)
    ensures OnlyFlag(s, MainStep(w, s, a), a)
  {}

  lemma JoinLeaves(w: World, s: State, a: MainAction)
    requires MainReady(s, a) && MainFits(s, a) && (a.JoinRefresher? || a.DestroyClient?)
    ensures OnlyFlag(s, MainStep(w, s, a), a)
  {}

  lemma ListLeaves(w: World, s: State, a: MainAction)
    requires MainReady(s, a) && MainFits(s, a) && a.ListInterfaces?
    ensures OnlyFlag(s, MainStep(w, s, a), a)
  {}

  lemma MainLeaves(w: World, s: State, a: MainAction)
    requires MainReady(s, a) && MainFits(s, a) && !a.StartCache? && !a.NextInterface?
    ensures OnlyFlag(s, MainStep(w, s, a), a)
  {
    if IsEvent(a) {
      EventLeaves(w, s, a);
    } else if a.DropCurrent? {
      DropLeaves(w, s);
    } else if a.ReleaseCurrent? {
      ReleaseLeaves(s);
    } else if a.FreePatterns? {
      FreeLeaves(s);
    } else if a.ListInterfaces? {
      ListLeaves(w, s, a);
    } else if a.JoinRefresher? || a.DestroyClient? {
      JoinLeaves(w, s, a);
    } else {
      StopLeaves(w, s, a);
    }
  }

  /** What no start of a thread changes. */
  predicate SameStatics(s: State, s': State) {
    && s'.clock == s.clock && s'.closing == s.closing && s'.guid == s.guid && s'.loadGuid == s.loadGuid
    && s'.announced == s.announced && s'.loaded == s.loaded && s'.subscribed == s.subscribed
  }

  lemma StartCacheLeaves(s: State, maxAge: int, clientOk: bool, threadOk: bool)
    ensures SameStatics(s, StartCacheStep(s, maxAge, clientOk, threadOk))
    ensures StartCacheStep(s, maxAge, clientOk, threadOk).senders == s.senders
  {}

  lemma NextInterfaceLeaves(s: State, taskOk: bool, threadOk: bool)
    requires s.main.Spawning? && s.main.rest != []
    ensures SameStatics(s, NextInterfaceStep(s, taskOk, threadOk))
    ensures NextInterfaceStep(s, taskOk, threadOk).refresher == s.refresher
    ensures s.senders <= NextInterfaceStep(s, taskOk, threadOk).senders
  {}

  lemma StartLeaves(w: World, s: State, a: MainAction)
    requires MainReady(s, a) && MainFits(s, a) && (a.StartCache? || a.NextInterface?)
    ensures SameStatics(s, MainStep(w, s, a)) && s.senders <= MainStep(w, s, a).senders
    ensures a.StartCache? ==> MainStep(w, s, a).senders == s.senders
    ensures a.NextInterface? ==> MainStep(w, s, a).refresher == s.refresher
  {
    if a.StartCache? {
      StartCacheLeaves(s, w.config.maxAge, a.clientOk, a.threadOk);
    } else {
      NextInterfaceLeaves(s, a.taskOk, a.threadOk);
    }
  }

  lemma DropMovesHeap(w: World, s: State)
    requires HeapOk(s.heap) && MainReady(s, DropCurrent) && MainFits(s, DropCurrent)
    ensures HeapFrame(s.heap, MainStep(w, s, DropCurrent).heap, MAIN)
    ensures MainStep(w, s, DropCurrent).refresher == s.refresher
  {
    SwapKeeps(s.heap, MAIN);
  }

  lemma ReleaseMovesHeap(s: State)
    requires HeapOk(s.heap) && MainReady(s, ReleaseCurrent) && MainFits(s, ReleaseCurrent)
    ensures HeapFrame(s.heap, ReleaseCurrentStep(s).heap, MAIN)
  {
    ReleaseStepKeeps(s.heap, MAIN);
  }

  lemma NextInterfaceMovesHeap(s: State, taskOk: bool, threadOk: bool)
    requires WellFormed(s.heap) && s.main.Spawning? && s.main.rest != []
    ensures HeapFrame(s.heap, NextInterfaceStep(s, taskOk, threadOk).heap, MAIN)
  {}

  /** The lists and snapshots of the others stay as they are. */
  lemma MainMovesHeap(w: World, s: State, a: MainAction)
    requires HeapOk(s.heap) && MainReady(s, a) && MainFits(s, a)
    ensures HeapFrame(s.heap, MainStep(w, s, a).heap, MAIN)
  {
    if a.DropCurrent? {
      DropMovesHeap(w, s);
    } else if a.ReleaseCurrent? {
      ReleaseMovesHeap(s);
    } else if a.NextInterface? {
      NextInterfaceMovesHeap(s, a.taskOk, a.threadOk);
    } else if !a.StartCache? {
      MainLeaves(w, s, a);
    }
  }
}
