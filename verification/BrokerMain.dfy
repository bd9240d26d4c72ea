/** Every step of the main thread keeps the invariant. */
module BrokerMain {
  import opened Prelude
  import opened SnapshotHeap
  import opened HeapProofs
  import opened Broker
  import opened BrokerInvariant
  import opened BrokerSenders
  import RefreshLoop
  import Patterns

  /** The senders and the refresher do not notice the main thread changing its own variables. */
  lemma MainVariablesMove(w: World, s: State, s': State)
    requires Inv(w, s) && !s'.fault
    requires s'.heap == s.heap && MainOk(s')
    requires s'.senders == s.senders && s'.refresher == s.refresher
    requires s'.published == s.published && s'.base == s.base && s'.clock == s.clock
    requires AllExited(s, |s.senders|) || (s'.maxAge == s.maxAge && (s.closing ==> s'.closing))
    requires s.refresher.pc.Ended? || (s'.refresherRunning && s'.clientOpen)
    requires s'.refresherRunning ==> s.refresherRunning && s'.maxAge == s.maxAge
    ensures Inv(w, s')
  {
    assert HeapFrame(s.heap, s'.heap, MAIN);
    forall i | 0 <= i < |s.senders|
      ensures SenderOk(w, s', i)
    {
      assert SenderOk(w, s, i);
      SenderKept(w, s, s', MAIN, i);
    }
    RefresherKept(w, s, s', MAIN);
    RegisterKept(w, s, s', MAIN);
  }

  /** What the main thread's own steps rely on. */
  ghost predicate MainBasis(s: State) {
    && MAIN < |s.heap.holds|
    && MainOk(s)
    && (!s.refresher.pc.Ended? ==> s.refresherRunning)
  }

  /** Entering the clean-up, and leaving the loop that starts the senders. */
  lemma EventKeeps(w: World, s: State, s': State)
    requires Inv(w, s) && (s.main.EventLoop? || (s.main.Spawning? && s.main.rest == []))
    requires s' == s.(main := s'.main, guid := s'.guid)
    requires s'.main.RaisingFlag? || (s.main.Spawning? && s'.main.EventLoop?)
    ensures Inv(w, s')
  {
    MainVariablesMove(w, s, s');
  }

  lemma RaiseFlagKeeps(w: World, s: State, s': State)
    requires Inv(w, s) && s.main.RaisingFlag?
    requires s' == s.(closing := true, main := JoiningSenders(0, s.main.fate))
    ensures Inv(w, s')
  {
    MainVariablesMove(w, s, s');
  }

  lemma CronKeeps(w: World, s: State)
    requires Inv(w, s) && MainReady(s, Cron)
    ensures Inv(w, CronStep(s))
  {
    MainVariablesMove(w, s, CronStep(s));
  }

  lemma CleanUpInOrder(w: World, s: State, a: MainAction)
    requires MainBasis(s) && a in {FreeThreadIds, JoinRefresher, DestroyClient} && MainReady(s, a)
    ensures MainStep(w, s, a).heap == s.heap && MainOk(MainStep(w, s, a))
  {}

  lemma CleanUpKeeps(w: World, s: State, a: MainAction)
    requires Inv(w, s) && a in {FreeThreadIds, JoinRefresher, DestroyClient} && MainReady(s, a)
    ensures Inv(w, MainStep(w, s, a))
  {
    assert MainBasis(s);
    CleanUpInOrder(w, s, a);
    MainVariablesMove(w, s, MainStep(w, s, a));
  }

  lemma FreePatternsKeeps(w: World, s: State, s': State)
    requires Inv(w, s) && s.main.FreeingPatterns?
    requires s' == s.(patterns := [], main := EventLoop, loaded := s'.loaded, subscribed := s'.subscribed)
    ensures Inv(w, s')
  {
    assert Quiet(s');
    MainVariablesMove(w, s, s');
  }

  lemma JoinSenderInOrder(s: State, s': State)
    requires MainBasis(s) && s.main.JoiningSenders? && s.main.k < |s.threadIds|
    requires SenderDone(s, s.threadIds[s.main.k])
    requires s' == s.(main := JoiningSenders(s.main.k + 1, s.main.fate))
    ensures MainOk(s')
  {
    assert s.threadIds[s.main.k] == |s.senders| - |s.threadIds| + s.main.k;
  }

  lemma JoinSenderKeeps(w: World, s: State, s': State)
    requires Inv(w, s) && s.main.JoiningSenders? && s.main.k < |s.threadIds|
    requires SenderDone(s, s.threadIds[s.main.k])
    requires s' == s.(main := JoiningSenders(s.main.k + 1, s.main.fate))
    ensures Inv(w, s')
  {
    JoinSenderInOrder(s, s');
    MainVariablesMove(w, s, s');
  }

  lemma ListInterfacesInOrder(s: State, found: Option<seq<Interface>>, hasMemory: bool, stored: seq<string>)
    requires MainBasis(s) && s.main.StartingSenders? && |stored| <= Patterns.MAX_IP_PATTERNS
    ensures ListInterfacesStep(s, found, hasMemory, stored).heap == s.heap
    ensures MainOk(ListInterfacesStep(s, found, hasMemory, stored))
    ensures ListInterfacesStep(s, found, hasMemory, stored).fault == s.fault
  {}

  lemma ListInterfacesKeeps(w: World, s: State, found: Option<seq<Interface>>, hasMemory: bool, stored: seq<string>)
    requires Inv(w, s) && s.main.StartingSenders? && |stored| <= Patterns.MAX_IP_PATTERNS
    ensures Inv(w, ListInterfacesStep(s, found, hasMemory, stored))
  {
    assert MainBasis(s);
    ListInterfacesInOrder(s, found, hasMemory, stored);
    MainVariablesMove(w, s, ListInterfacesStep(s, found, hasMemory, stored));
  }

  /** A load finds no thread, so clearing the flag is safe. */
  lemma LoadKeeps(w: World, s: State, curlOk: bool, listening: bool, hooked: bool)
    requires Inv(w, s) && s.main.EventLoop? && !s.loaded
    ensures !AnyThread(s)
    ensures Inv(w, LoadStep(s, curlOk, listening, hooked))
  {
    assert Quiet(s);
    MainVariablesMove(w, s, LoadStep(s, curlOk, listening, hooked));
  }

  lemma StartCacheKeeps(w: World, s: State, clientOk: bool, threadOk: bool)
    requires Inv(w, s) && s.main.StartingCache?
    ensures Inv(w, StartCacheStep(s, w.config.maxAge, clientOk, threadOk))
  {
    var s' := StartCacheStep(s, w.config.maxAge, clientOk, threadOk);
    if s'.refresher == s.refresher {
      MainVariablesMove(w, s, s');
    } else {
      assert HeapFrame(s.heap, s'.heap, MAIN);
      forall i | 0 <= i < |s.senders|
        ensures SenderOk(w, s', i)
      {
        assert SenderOk(w, s, i);
        SenderKept(w, s, s', MAIN, i);
      }
      RegisterKept(w, s, s', MAIN);
      assert RefreshLoop.Run(w.config.maxAge, []) == RefreshLoop.Loop(RefreshLoop.START, None, []);
    }
  }

  lemma NewSenderInOrder(w: World, s: State, i: nat)
    requires i < |s.senders| && |s.heap.holds| == |s.senders| + 2
    requires s.senders[i] == NewSender(s.senders[i].ip, s.base, s.loadGuid) && s.heap.holds[Place(i)] == Nothing
    requires s.maxAge == w.config.maxAge
    ensures SenderOk(w, s, i)
  {}

  /** A new sender has its place in thread_ids: the array was sized by the list now walked. */
  lemma NextInterfaceInOrder(s: State, taskOk: bool, threadOk: bool)
    requires MainBasis(s) && s.main.Spawning? && s.main.rest != [] && |s.heap.holds| == |s.senders| + 2
    ensures MAIN < |NextInterfaceStep(s, taskOk, threadOk).heap.holds|
    ensures MainOk(NextInterfaceStep(s, taskOk, threadOk))
    ensures NextInterfaceStep(s, taskOk, threadOk).fault == s.fault
  {}

  lemma SpawnKeeps(w: World, s: State, s': State, ip: string)
    requires Inv(w, s) && s.main.Spawning? && s.maxAge == w.config.maxAge
    requires s' == s.(main := s'.main, threadIds := s'.threadIds, heap := AddThread(s.heap),
                      senders := s.senders + [NewSender(ip, s.base, s.loadGuid)])
    requires MainOk(s')
    ensures Inv(w, s')
  {
    AddThreadKeeps(s.heap);
    assert HeapFrame(s.heap, s'.heap, MAIN);
    forall i | 0 <= i < |s'.senders|
      ensures SenderOk(w, s', i)
    {
      if i < |s.senders| {
        assert SenderOk(w, s, i);
        SenderKept(w, s, s', MAIN, i);
      } else {
        NewSenderInOrder(w, s', i);
      }
    }
    RefresherKept(w, s, s', MAIN);
    RegisterKept(w, s, s', MAIN);
  }

  lemma NextInterfaceKeeps(w: World, s: State, taskOk: bool, threadOk: bool)
    requires Inv(w, s) && s.main.Spawning? && s.main.rest != []
    ensures Inv(w, NextInterfaceStep(s, taskOk, threadOk))
  {
    var s' := NextInterfaceStep(s, taskOk, threadOk);
    NextInterfaceInOrder(s, taskOk, threadOk);
    if s'.senders == s.senders {
      MainVariablesMove(w, s, s');
    } else {
      SpawnKeeps(w, s, s', s.main.rest[0].ip);
    }
  }

  /** The list is dropped only after every sender and the refresher have ended. */
  lemma DropCurrentKeeps(w: World, s: State, s': State)
    requires Inv(w, s) && s.main.DroppingList?
    requires s' == s.(heap := Swap(s.heap, MAIN), base := |s.published|, main := ReleasingList(s.main.fate))
    ensures AllExited(s, |s.senders|) && s.refresher.pc.Ended?
    ensures Inv(w, s')
  {
    SwapKeeps(s.heap, MAIN);
    assert HeapFrame(s.heap, s'.heap, MAIN);
    forall i | 0 <= i < |s.senders|
      ensures SenderOk(w, s', i)
    {
      assert SenderOk(w, s, i);
      SenderKept(w, s, s', MAIN, i);
    }
    RefresherKept(w, s, s', MAIN);
    forall k | 0 <= k < |s.published|
      ensures PublicationOk(w, s', s.published[k])
    {
      assert PublicationOk(w, s, s.published[k]);
    }
  }

  lemma ReleaseCurrentInOrder(s: State)
    requires MainBasis(s) && HeapOk(s.heap) && s.main.ReleasingList? && CanRelease(s.heap, MAIN)
    ensures MAIN < |ReleaseCurrentStep(s).heap.holds| && MainOk(ReleaseCurrentStep(s))
  {
    ReleaseStepKeeps(s.heap, MAIN);
  }

  lemma ReleaseCurrentKeeps(w: World, s: State)
    requires Inv(w, s) && s.main.ReleasingList? && CanRelease(s.heap, MAIN)
    ensures Inv(w, ReleaseCurrentStep(s))
  {
    var s' := ReleaseCurrentStep(s);
    assert MainBasis(s);
    ReleaseCurrentInOrder(s);
    ReleaseStepKeeps(s.heap, MAIN);
    SendersKept(w, s, s', MAIN);
    RefresherKept(w, s, s', MAIN);
    RegisterKept(w, s, s', MAIN);
  }

  lemma StartStepKeeps(w: World, s: State, a: MainAction)
    requires Inv(w, s) && MainReady(s, a) && MainFits(s, a)
    requires a.Load? || a.Cron? || a.StartCache? || a.ListInterfaces? || a.NextInterface?
    ensures Inv(w, MainStep(w, s, a))
  {
    match a
    case Load(curlOk, listening, hooked) => LoadKeeps(w, s, curlOk, listening, hooked);
    case Cron => CronKeeps(w, s);
    case StartCache(clientOk, threadOk) => StartCacheKeeps(w, s, clientOk, threadOk);
    case ListInterfaces(found, hasMemory) =>
      ListInterfacesKeeps(w, s, found, hasMemory, Patterns.Stored(s.patterns, w.selected));
    case NextInterface(taskOk, threadOk) => NextInterfaceKeeps(w, s, taskOk, threadOk);
  }

  lemma RaiseStepKeeps(w: World, s: State)
    requires Inv(w, s) && MainReady(s, RaiseFlag)
    ensures Inv(w, MainStep(w, s, RaiseFlag))
  {
    RaiseFlagKeeps(w, s, MainStep(w, s, RaiseFlag));
  }

  lemma JoinStepKeeps(w: World, s: State)
    requires Inv(w, s) && MainReady(s, JoinSender)
    ensures Inv(w, MainStep(w, s, JoinSender))
  {
    var s' := s.(main := JoiningSenders(s.main.k + 1, s.main.fate));
    assert MainStep(w, s, JoinSender) == s';
    JoinSenderKeeps(w, s, s');
  }

  lemma DropStepKeeps(w: World, s: State, a: MainAction)
    requires Inv(w, s) && MainReady(s, a) && MainFits(s, a)
    requires a.DropCurrent? || a.ReleaseCurrent? || a.FreePatterns?
    ensures Inv(w, MainStep(w, s, a))
  {
    if a.DropCurrent? {
      DropCurrentKeeps(w, s, MainStep(w, s, a));
    } else if a.ReleaseCurrent? {
      ReleaseCurrentKeeps(w, s);
    } else {
      FreePatternsKeeps(w, s, MainStep(w, s, a));
    }
  }

  lemma MainStepKeeps(w: World, s: State, a: MainAction)
    requires Inv(w, s) && MainReady(s, a) && MainFits(s, a)
    ensures Inv(w, MainStep(w, s, a))
  {
    if a.Load? || a.Cron? || a.StartCache? || a.ListInterfaces? || a.NextInterface? {
      StartStepKeeps(w, s, a);
    } else if a.RaiseFlag? {
      RaiseStepKeeps(w, s);
    } else if a.JoinSender? {
      JoinStepKeeps(w, s);
    } else if a.FreeThreadIds? || a.JoinRefresher? || a.DestroyClient? {
      CleanUpKeeps(w, s, a);
    } else if a.DropCurrent? || a.ReleaseCurrent? || a.FreePatterns? {
      DropStepKeeps(w, s, a);
    } else {
      EventKeeps(w, s, MainStep(w, s, a));
    }
  }
}
