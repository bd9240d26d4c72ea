/** What holds over whole runs of the module: memory, passes, the register, and the life cycle. */
module BrokerRuns {
  import opened Prelude
  import opened Settings
  import opened Staleness
  import opened Text
  import opened Ascending
  import opened SnapshotHeap
  import opened HeapProofs
  import opened Broker
  import opened BrokerInvariant
  import opened BrokerSenders
  import opened BrokerRefresher
  import opened BrokerMain
  import RefreshLoop
  import PodList

  // ---------- Every run ----------

  /** A thread whose turn it is always has the right thing in its hands. */
  lemma SenderAlwaysFits(w: World, s: State, i: nat, a: SenderAction)
    requires Inv(w, s) && SenderReady(s, i, a)
    ensures SenderFits(s, i, a)
  {
    assert SenderOk(w, s, i);
  }

  lemma AlwaysFits(w: World, s: State, a: Action)
    requires Inv(w, s) && Ready(s, a)
    ensures Fits(s, a)
  {
    match a
    case Tick(_) =>
    case OfSender(i, b) => SenderAlwaysFits(w, s, i, b);
    case OfRefresher(b) =>
    case OfMain(b) =>
  }

  lemma TickKeeps(w: World, s: State, seconds: nat)
    requires Inv(w, s)
    ensures Inv(w, s.(clock := s.clock + seconds))
  {
    var s' := s.(clock := s.clock + seconds);
    assert HeapFrame(s.heap, s'.heap, MAIN);
    SendersKept(w, s, s', MAIN);
    RefresherKept(w, s, s', MAIN);
    RegisterKept(w, s, s', MAIN);
    MainKept(s, s');
  }

  lemma ThreadStepKeeps(w: World, s: State, a: Action)
    requires Inv(w, s) && Ready(s, a) && Fits(s, a) && (a.OfSender? || a.OfRefresher?)
    ensures Inv(w, Next(w, s, a))
  {
    if a.OfSender? {
      SenderStepKeeps(w, s, a.i, a.sender);
    } else {
      RefresherStepKeeps(w, s, a.refresher);
    }
  }

  lemma StepKeeps(w: World, s: State, a: Action)
    requires Inv(w, s) && Ready(s, a) && Fits(s, a)
    ensures Inv(w, Next(w, s, a))
  {
    if a.Tick? {
      TickKeeps(w, s, a.seconds);
    } else if a.OfMain? {
      MainStepKeeps(w, s, a.main);
    } else {
      ThreadStepKeeps(w, s, a);
    }
  }

  lemma {:induction false} RunKeeps(w: World, s: State, run: seq<Action>)
    requires Inv(w, s) && CanRun(w, s, run)
    ensures Inv(w, Final(w, s, run))
    decreases |run|
  {
    if run != [] {
      StepKeeps(w, s, run[0]);
      RunKeeps(w, Next(w, s, run[0]), run[1..]);
    }
  }

  /** The invariant holds wherever any interleaving of loads, cron ticks, shutdowns, unloads and
      thread steps can lead. */
  lemma ReachableInv(w: World, s: State)
    requires Reachable(w, s)
    ensures Inv(w, s)
  {
    var run :| CanRun(w, INITIAL, run) && Final(w, INITIAL, run) == s;
    InitialInv(w);
    RunKeeps(w, INITIAL, run);
  }

  // ---------- Memory ----------

  /** In every reachable state the count of an unfreed snapshot is exact, a snapshot some thread
      holds is unfreed and so is its list, nothing is freed twice, and nothing freed was touched. */
  lemma ReferenceCountsAreExact(w: World, s: State, p: Ptr)
    requires Reachable(w, s) && p < |s.heap.snaps|
    ensures !s.heap.fault
    ensures s.heap.snaps[p].frees <= 1
    ensures s.heap.snaps[p].frees == 0 ==>
              s.heap.snaps[p].refs == (if s.heap.current == Some(p) then 1 else 0) + multiset(s.heap.holds)[Ref(p)]
    ensures s.heap.current == Some(p) || Ref(p) in s.heap.holds ==>
              && s.heap.snaps[p].frees == 0
              && s.heap.snaps[p].list < |s.heap.lists| && s.heap.lists[s.heap.snaps[p].list].frees == 0
  {
    ReachableInv(w, s);
    assert SnapOk(s.heap, p);
    if Ref(p) in s.heap.holds {
      var t :| 0 <= t < |s.heap.holds| && s.heap.holds[t] == Ref(p);
      HeldIsUnfreed(s.heap, t, p);
    } else if s.heap.current == Some(p) {
      CurrentIsUnfreed(s.heap);
    }
  }

  /** Nothing leaks on the way either: in every reachable state an unfreed snapshot is current, or some
      thread holds it or is freeing it. */
  lemma UnfreedSnapshotIsHeld(w: World, s: State, p: Ptr)
    requires Reachable(w, s) && p < |s.heap.snaps| && s.heap.snaps[p].frees == 0
    ensures s.heap.current == Some(p)
            || exists t :: 0 <= t < |s.heap.holds| && s.heap.holds[t] in {Ref(p), FreeingList(p), FreeingSnap(p)}
  {
    ReachableInv(w, s);
    assert SnapOk(s.heap, p);
    var x := if Holders(s.heap, Ref(p)) > 0 then Ref(p)
             else if Holders(s.heap, FreeingList(p)) > 0 then FreeingList(p) else FreeingSnap(p);
    if s.heap.current != Some(p) {
      assert x in multiset(s.heap.holds);
      var t :| 0 <= t < |s.heap.holds| && s.heap.holds[t] == x;
    }
  }

  /** And an unfreed list belongs to an unfreed snapshot, or some thread has just fetched it. */
  lemma UnfreedListIsHeld(w: World, s: State, l: Ptr)
    requires Reachable(w, s) && l < |s.heap.lists| && s.heap.lists[l].frees == 0
    ensures (exists p :: 0 <= p < |s.heap.snaps| && s.heap.snaps[p].list == l && s.heap.snaps[p].frees == 0)
            || (exists t :: 0 <= t < |s.heap.holds| && s.heap.holds[t] == Fetched(l))
  {
    ReachableInv(w, s);
    if Owned(s.heap, l) {
      var p :| 0 <= p < |s.heap.snaps| && s.heap.snaps[p].list == l;
      assert SnapOk(s.heap, p) && SnapListOk(s.heap, p);
    } else {
      assert LooseListOk(s.heap, l);
      assert Fetched(l) in multiset(s.heap.holds);
    }
  }

  lemma ExitedHandIsEmpty(w: World, s: State, i: nat)
    requires i < |s.senders| && |s.heap.holds| == |s.senders| + 2
    requires SenderOk(w, s, i) && s.senders[i].pc.Exited?
    ensures s.heap.holds[Place(i)].Nothing?
  {}

  /** cleanup_threads has done its work: it is about to return, or it has returned and no load has
      succeeded since. */
  predicate CleanedUp(s: State) {
    s.main.FreeingPatterns? || (s.main.EventLoop? && (s.closing || !s.loaded))
  }

  /** At that point every thread has ended, and every hand is empty. */
  lemma HandsAreEmpty(w: World, s: State)
    requires |s.heap.holds| == |s.senders| + 2 && WellFormed(s.heap)
    requires forall i :: 0 <= i < |s.senders| ==> SenderOk(w, s, i)
    requires RefresherOk(w, s) && MainOk(s) && CleanedUp(s)
    ensures forall t :: 0 <= t < |s.heap.holds| ==> s.heap.holds[t].Nothing?
    ensures s.heap.current.None? && !AnyThread(s) && !s.clientOpen && s.capacity.None?
  {
    forall t | 2 <= t < |s.heap.holds|
      ensures s.heap.holds[t].Nothing?
    {
      ExitedHandIsEmpty(w, s, t - 2);
    }
  }

  /** When cleanup_threads returns, every snapshot and every fetched list ever allocated was freed
      exactly once, whoever did the last release, and no thread, client or thread array is left. */
  lemma CleanUpFreesEverything(w: World, s: State)
    requires Reachable(w, s) && CleanedUp(s)
    ensures forall p :: 0 <= p < |s.heap.snaps| ==> s.heap.snaps[p].frees == 1
    ensures forall l :: 0 <= l < |s.heap.lists| ==> s.heap.lists[l].frees == 1
    ensures !AnyThread(s) && !s.clientOpen && s.capacity.None?
  {
    ReachableInv(w, s);
    HandsAreEmpty(w, s);
    NoLeak(s.heap);
  }

  // ---------- The register ----------

  /** `current` is the list of the latest published answer, which is not empty; before the first one
      of a load there is none. */
  lemma CurrentIsLastGood(w: World, s: State)
    requires Reachable(w, s)
    ensures WellFormed(s.heap) && s.base <= |s.published|
    ensures Current(s.heap).None? <==> s.base == |s.published|
    ensures s.base < |s.published| ==>
              var last := s.published[|s.published| - 1];
              && w.answer(last.request) == Some(last.ips)
              && Current(s.heap) == Some(Held(|last.ips|, last.receivedAt))
              && s.heap.lists[s.heap.snaps[s.heap.current.value].list].ips == last.ips != []
  {
    ReachableInv(w, s);
    if s.base < |s.published| {
      assert PublicationOk(w, s, s.published[|s.published| - 1]);
    }
  }

  /** In the deployed module such an answer was a complete HTTP 200 whose body is a pod list, and
      what is announced to are the addresses of the unfinished items among its first MAX_PODS. */
  lemma CurrentCameFromAPodList(config: Config, selected: seq<string>, leadingZeros: bool, s: State, x: string)
    requires Reachable(Deploy(config, selected, leadingZeros), s) && s.base < |s.published|
    ensures var q := s.published[|s.published| - 1].request;
            && q.transferred && q.code == 200 && q.body.Some?
            && PodList.Get(q.body.value, "items").Some? && PodList.Get(q.body.value, "items").value.Array?
            && WellFormed(s.heap) && s.heap.current.Some?
            && (x in s.heap.lists[s.heap.snaps[s.heap.current.value].list].ips <==>
                var items := PodList.Get(q.body.value, "items").value.items;
                PodList.Contributes(PodList.Considered(items), leadingZeros, x))
  {
    CurrentIsLastGood(Deploy(config, selected, leadingZeros), s);
    PodList.FetchSucceedsOnlyOnAPodList(s.published[|s.published| - 1].request, leadingZeros);
  }

  /** At every instant is_expired, the branches of log_failure and pod_cache_acquire agree. */
  lemma ReadersAlwaysAgree(w: World, s: State)
    requires Reachable(w, s)
    ensures WellFormed(s.heap) && ReadersAgree(Current(s.heap), s.clock, s.maxAge)
  {
    CurrentIsLastGood(w, s);
    AgreementIsNonEmptiness(Current(s.heap), s.clock, s.maxAge);
  }

  // ---------- Passes ----------

  /** The passes of a sender that has ended are `up*` and then exactly one `down`. Each got the last
      good list of this load, if there was one and it was not too old, and the list a sender sees
      never gets older. */
  lemma PassesAreUpsThenOneDown(w: World, s: State, i: nat)
    requires Reachable(w, s) && i < |s.senders| && s.senders[i].pc.Exited?
    ensures var x := s.senders[i];
            && x.passes != []
            && (forall k :: 0 <= k < |x.passes| ==> (x.passes[k].down <==> k == |x.passes| - 1))
            && (forall k :: 0 <= k < |x.passes| ==> PassOk(w, s.published, x.born, x.passes[k]))
            && (forall j, k :: 0 <= j < k < |x.passes| ==> x.passes[j].seen <= x.passes[k].seen)
  {
    ReachableInv(w, s);
    assert SenderOk(w, s, i);
  }

  /** The `down` pass still gets the list: if any was published in this load before it and the
      latest of them is not too old, that is the one it announces to. */
  lemma DownPassHasTheList(w: World, s: State, i: nat)
    requires Reachable(w, s) && i < |s.senders| && s.senders[i].pc.Exited?
    ensures s.senders[i].passes != []
    ensures var down := s.senders[i].passes[|s.senders[i].passes| - 1];
            && down.born <= down.seen <= |s.published|
            && (down.seen > down.born && !TooOld(s.published[down.seen - 1].receivedAt, down.at, w.config.maxAge) ==>
                  down.got == Some(s.published[down.seen - 1].ips) && down.sent == s.published[down.seen - 1].ips)
            && (down.got.None? ==> down.sent == [])
  {
    PassesAreUpsThenOneDown(w, s, i);
    var x := s.senders[i];
    assert PassOk(w, s.published, x.born, x.passes[|x.passes| - 1]);
  }

  /** A pass goes without a list exactly when there is none yet, or the latest one is strictly older
      than its maximum age: at that age it is still announced to. */
  lemma PassWithoutAList(w: World, s: State, i: nat, k: nat)
    requires Reachable(w, s) && i < |s.senders| && k < |s.senders[i].passes|
    ensures var p, maxAge := s.senders[i].passes[k], w.config.maxAge;
            && p.born <= p.seen <= |s.published|
            && (p.seen == p.born ==> p.got.None?)
            && (p.seen > p.born ==>
                  var last := s.published[p.seen - 1];
                  && (p.got.None? <==> maxAge > 0 && p.at - last.receivedAt > maxAge)
                  && (p.at - last.receivedAt == maxAge ==> p.got == Some(last.ips) && p.sent == last.ips))
  {
    ReachableSender(w, s, i);
    assert PassOk(w, s.published, s.senders[i].born, s.senders[i].passes[k]);
  }

  /** Every completed pass attempted each address of its list exactly once: the list as it was when
      acquired, in order, without repetition, whatever was published meanwhile. */
  lemma EachAddressOnce(w: World, s: State, i: nat, k: nat)
    requires Reachable(w, s) && i < |s.senders| && k < |s.senders[i].passes|
    ensures var p := s.senders[i].passes[k];
            && p.sent == (if p.got.Some? then p.got.value else [])
            && IsAscending(p.sent)
            && (forall a, b :: 0 <= a < b < |p.sent| ==> p.sent[a] != p.sent[b])
  {
    ReachableInv(w, s);
    assert SenderOk(w, s, i);
    var p := s.senders[i].passes[k];
    assert PassOk(w, s.published, s.senders[i].born, p);
    if p.got.Some? {
      assert PublicationOk(w, s, s.published[p.seen - 1]);
      forall a, b | 0 <= a < b < |p.sent|
        ensures p.sent[a] != p.sent[b]
      {
        LessIrreflexive(p.sent[a]);
      }
    }
  }

  /** What the invariant says of one sender and of the register. */
  lemma ReachableSender(w: World, s: State, i: nat)
    requires Reachable(w, s) && i < |s.senders|
    ensures |s.heap.holds| == |s.senders| + 2 && WellFormed(s.heap)
    ensures SenderOk(w, s, i) && RegisterOk(w, s)
  {
    ReachableInv(w, s);
  }

  lemma SeenInOrder(w: World, s: State, x: Sender, j: nat, k: nat)
    requires PassesOk(w, s, x) && j < k < |x.passes| && x.passes[j].got.Some? && x.passes[k].got.Some?
    ensures 0 < x.passes[j].seen <= x.passes[k].seen <= |s.published|
  {
    assert PassOk(w, s.published, x.born, x.passes[j]) && PassOk(w, s.published, x.born, x.passes[k]);
  }

  /** What one sender sees never goes back: of two passes that got a list, the later one's was
      received no earlier. */
  lemma ReceivedNeverGoesBack(w: World, s: State, i: nat, j: nat, k: nat)
    requires Reachable(w, s) && i < |s.senders| && j < k < |s.senders[i].passes|
    requires s.senders[i].passes[j].got.Some? && s.senders[i].passes[k].got.Some?
    ensures var a, b := s.senders[i].passes[j].seen, s.senders[i].passes[k].seen;
            && 0 < a <= b <= |s.published|
            && s.published[a - 1].receivedAt <= s.published[b - 1].receivedAt
  {
    ReachableSender(w, s, i);
    var x := s.senders[i];
    SeenInOrder(w, s, x, j, k);
  }

  // ---------- What a sender says about failing sends ----------

  /** Warnings and all-clears alternate, starting with a warning; sends are failing exactly when the
      last word was a warning. */
  ghost predicate Alternates(failing: bool, notices: seq<Notice>) {
    && (forall k :: 0 <= k < |notices| ==> (notices[k].Failing? <==> k % 2 == 0))
    && (failing <==> |notices| % 2 == 1)
  }

  lemma {:induction false} NoticedAlternates(passes: seq<Pass>)
    ensures Alternates(Noticed(passes).0, Noticed(passes).1)
  {
    if passes != [] {
      NoticedAlternates(passes[..|passes| - 1]);
    }
  }

  /** In every run a sender's notices strictly alternate, and a pass without a list says and changes
      nothing. */
  lemma NoticesAlternate(w: World, s: State, i: nat)
    requires Reachable(w, s) && i < |s.senders|
    ensures Alternates(s.senders[i].wasFailing, s.senders[i].notices)
    ensures (s.senders[i].wasFailing, s.senders[i].notices) == Noticed(s.senders[i].passes)
    ensures forall passes: seq<Pass>, p: Pass :: p.got.None? ==> Noticed(passes + [p]) == Noticed(passes)
  {
    ReachableInv(w, s);
    assert SenderOk(w, s, i);
    NoticedAlternates(s.senders[i].passes);
    forall passes: seq<Pass>, p: Pass | p.got.None?
      ensures Noticed(passes + [p]) == Noticed(passes)
    {
      NoticedNext(passes, p);
    }
  }

  // ---------- The refresher ----------

  /** In every run the refresher's log and variables are those of the timed loop on its turns, taken
      in order, so whatever is proved of that loop holds here; between turns its stored list is
      `current`. */
  lemma RefresherFollowsTheTimedLoop(w: World, s: State)
    requires Reachable(w, s)
    ensures var loop := RefreshLoop.Run(w.config.maxAge, s.refresher.rounds);
            && loop.locals == s.refresher.locals && loop.log == s.refresher.log
            && RefreshLoop.Chronological(s.refresher.rounds)
            && WellFormed(s.heap)
            && (s.refresher.pc in {Checking, Fetching, Failed} ==> loop.current == Current(s.heap))
  {
    ReachableInv(w, s);
  }

  /** So, for one: in every interleaving two consecutive warnings of a failure streak are a minute
      apart, unless the second one reports that the list has just expired. */
  lemma WarningsAreSpacedInEveryRun(w: World, s: State, i: nat, j: nat)
    requires Reachable(w, s)
    requires RefreshLoop.Streak(s.refresher.rounds, i, j) && i < j
    requires RefreshLoop.WarnedAt(w.config.maxAge, s.refresher.rounds, i)
    requires RefreshLoop.WarnedAt(w.config.maxAge, s.refresher.rounds, j)
    requires forall k :: i < k < j ==> !RefreshLoop.WarnedAt(w.config.maxAge, s.refresher.rounds, k)
    ensures var rounds := s.refresher.rounds;
            || rounds[j].at - rounds[i].at >= RefreshLoop.FAILURE_REMINDER
            || (RefreshLoop.ExpiredAt(w.config.maxAge, rounds, j) &&
                forall k :: i <= k < j ==> !RefreshLoop.ExpiredAt(w.config.maxAge, rounds, k))
  {
    RefresherFollowsTheTimedLoop(w, s);
    RefreshLoop.CloseWarningsReportExpiry(w.config.maxAge, s.refresher.rounds, i, j);
  }

  // ---------- The life cycle ----------

  /** In every run broadcasting starts at most once per load; the flag is cleared only with no thread
      alive, no running thread is forgotten, no client or thread array lost, and thread_ids never
      overrun: none of the things `fault` stands for happens. */
  lemma LifeCycleIsSafe(w: World, s: State)
    requires Reachable(w, s)
    ensures s.starts <= 1 && !s.fault
    ensures |s.threadIds| <= (if s.capacity.Some? then s.capacity.value else 0)
    ensures !s.loaded && s.main.EventLoop? ==> !AnyThread(s)
    ensures s.closing && s.main.EventLoop? ==> !AnyThread(s)
  {
    ReachableInv(w, s);
  }

  /** The same with the steps in which it would happen, whatever `fault` says: nothing is there yet
      when broadcasting starts, there is room for each new thread, a request has its client, and a
      sender that warns has a snapshot. */
  lemma StepsFindWhatTheyNeed(w: World, s: State, i: nat)
    requires Reachable(w, s)
    ensures s.main.StartingCache? ==> !s.clientOpen && !s.refresherRunning
    ensures s.main.StartingCache? || s.main.StartingSenders? ==> s.threadIds == [] && s.capacity.None?
    ensures s.main.Spawning? ==> s.capacity.Some? && |s.threadIds| + InetCount(s.main.rest) <= s.capacity.value
    ensures s.refresher.pc.Fetching? ==> s.clientOpen
    ensures SenderReady(s, i, Report) && StartsFailing(s.senders[i]) ==> s.senders[i].snapshot.Some?
  {
    ReachableInv(w, s);
    if i < |s.senders| {
      assert SenderOk(w, s, i);
    }
  }

  /** A cron tick starts broadcasting only if nothing has since the load and the module is not
      closing. */
  lemma CronStartsOnce(w: World, s: State)
    requires Reachable(w, s) && MainReady(s, Cron)
    ensures CronStep(s) != s <==> !s.announced && !s.closing
    ensures CronStep(s) != s ==> s.starts == 0 && !AnyThread(s)
  {
    ReachableInv(w, s);
  }
}
