/** How cleanup_threads ends: never stuck, after a bounded number of steps, and without effect when
    there is nothing left to clean up. */
module BrokerShutdown {
  import opened SnapshotHeap
  import opened Broker
  import opened BrokerInvariant
  import opened BrokerSenders
  import opened BrokerRefresher
  import opened BrokerPace
  import opened BrokerRuns
  import HeapProofs
  import PodList

  /** The flag is up and cleanup_threads has not returned. */
  predicate CleaningUp(s: State) {
    && s.closing
    && (s.main.JoiningSenders? || s.main.JoiningRefresher? || s.main.DestroyingClient?
        || s.main.DroppingList? || s.main.ReleasingList? || s.main.FreeingPatterns?)
  }

  // ---------- The work that is left ----------

  /** Once the flag is up: the steps from a pass's end to the sender's. Unless the pass was `down`,
      they include the whole `down` pass. */
  function AfterPass(closing: bool): nat {
    if closing then 1 else PodList.MAX_PODS + 10
  }

  /** Once the flag is up: at most how many steps sender `i` still takes. */
  ghost function SenderWork(s: State, i: nat): nat
    requires i < |s.senders| && Place(i) < |s.heap.holds|
  {
    var x := s.senders[i];
    match x.pc
    case FormattingDown => PodList.MAX_PODS + 10
    case FormattingUp => PodList.MAX_PODS + 9
    case Top => PodList.MAX_PODS + 8
    case Acquiring => PodList.MAX_PODS + 6 + AfterPass(x.closing)
    case Sending =>
      var target := Target(s.heap, x);
      (if x.i <= |target| then |target| - x.i else 0) + 5 + AfterPass(x.closing)
    case Releasing => 1 + HoldWork(s.heap.holds[Place(i)]) + AfterPass(x.closing)
    case PassDone => AfterPass(x.closing)
    case Sleeping(_) => PodList.MAX_PODS + 9
    case Exited => 0
  }

  /** Once the flag is up: at most how many steps the refresher still takes. */
  ghost function RefresherWork(s: State): nat
    requires REFRESHER < |s.heap.holds|
  {
    match s.refresher.pc
    case Fetching => 11
    case HasFetched => 10
    case Publishing => 9
    case Swapping(_, _) => 8
    case ReleasingOld(_, _) => 4 + HoldWork(s.heap.holds[REFRESHER])
    case Published(_, _) => 3
    case Dropping(why) => if why.OnClosing? then 1 else 6
    case Failed => 5
    case CheckingExpiry(_) => 4
    case Logging(_, _, _) => 3
    case Pausing(_) => 2
    case Checking => 1
    case Ended => 0
  }

  /** The steps cleanup_threads itself still takes. */
  ghost function MainWork(s: State): nat
    requires MAIN < |s.heap.holds|
  {
    match s.main
    case JoiningSenders(k, _) => 9 + (if k <= |s.threadIds| then |s.threadIds| - k else 0)
    case JoiningRefresher(_) => 8
    case DestroyingClient(_) => 7
    case DroppingList(_) => 6
    case ReleasingList(_) => 2 + HoldWork(s.heap.holds[MAIN])
    case FreeingPatterns(_) => 1
    case _ => 0
  }

  ghost function SendersWork(s: State, n: nat): nat
    requires n <= |s.senders| && |s.heap.holds| == |s.senders| + 2
  {
    if n == 0 then 0 else SendersWork(s, n - 1) + SenderWork(s, n - 1)
  }

  ghost function Work(s: State): nat
    requires |s.heap.holds| == |s.senders| + 2
  {
    MainWork(s) + RefresherWork(s) + SendersWork(s, |s.senders|)
  }

  lemma {:induction false} SendersWorkSame(s: State, s': State, n: nat)
    requires n <= |s.senders| == |s'.senders|
    requires |s.heap.holds| == |s.senders| + 2 == |s'.heap.holds|
    requires forall j :: 0 <= j < n ==> SenderWork(s', j) == SenderWork(s, j)
    ensures SendersWork(s', n) == SendersWork(s, n)
  {
    if n > 0 {
      SendersWorkSame(s, s', n - 1);
    }
  }

  lemma {:induction false} SendersWorkDrops(s: State, s': State, i: nat, n: nat)
    requires i < n <= |s.senders| == |s'.senders|
    requires |s.heap.holds| == |s.senders| + 2 == |s'.heap.holds|
    requires forall j :: 0 <= j < n && j != i ==> SenderWork(s', j) == SenderWork(s, j)
    requires SenderWork(s', i) < SenderWork(s, i)
    ensures SendersWork(s', n) < SendersWork(s, n)
  {
    if n - 1 == i {
      SendersWorkSame(s, s', n - 1);
    } else {
      SendersWorkDrops(s, s', i, n - 1);
    }
  }

  /** A sender that does not move has as much work as before. */
  lemma SenderWorkKept(w: World, s: State, s': State, t: nat, i: nat)
    requires i < |s.senders| <= |s'.senders| && s'.senders[i] == s.senders[i]
    requires |s.heap.holds| == |s.senders| + 2 && |s'.heap.holds| == |s'.senders| + 2
    requires HeapFrame(s.heap, s'.heap, t) && t != Place(i)
    requires SenderOk(w, s, i)
    ensures SenderWork(s', i) == SenderWork(s, i)
  {
    if s.senders[i].pc.Sending? {
      assert HoldInRange(s.heap, s.heap.holds[Place(i)]);
      TargetKept(s.heap, s'.heap, t, s.senders[i]);
    }
  }

  // ---------- Every step does some of it ----------

  lemma AcquiredIsBounded(w: World, s: State, i: nat)
    requires Local(w, s, i) && RegisterOk(w, s)
    requires SenderReady(s, i, AcquireList) && SenderFits(s, i, AcquireList)
    ensures SenderWork(SenderStep(w, s, i, AcquireList), i) < SenderWork(s, i)
  {
    var s' := SenderStep(w, s, i, AcquireList);
    AcquireReadsRegister(w, s, Place(i));
    assert |Target(s'.heap, s'.senders[i])| <= PodList.MAX_PODS;
  }

  lemma SendWorks(w: World, s: State, i: nat, ok: bool)
    requires Local(w, s, i) && SenderReady(s, i, Send(ok)) && SenderFits(s, i, Send(ok))
    ensures SenderWork(SenderStep(w, s, i, Send(ok)), i) < SenderWork(s, i)
  {
    var s' := SenderStep(w, s, i, Send(ok));
    assert Target(s'.heap, s'.senders[i]) == Target(s.heap, s.senders[i]);
  }

  lemma ReleaseSnapshotWorks(w: World, s: State, i: nat)
    requires SenderReady(s, i, ReleaseSnapshot) && SenderFits(s, i, ReleaseSnapshot)
    ensures SenderWork(SenderStep(w, s, i, ReleaseSnapshot), i) < SenderWork(s, i)
  {}

  lemma OtherSenderStepWorks(w: World, s: State, i: nat, a: SenderAction)
    requires s.closing && SenderReady(s, i, a) && SenderFits(s, i, a) && Place(i) < |s.heap.holds|
    requires a.FormatDown? || a.FormatUp? || a.ReadFlag? || a.Report? || a.EndPass? || a.WakeUp?
    ensures SenderWork(SenderStep(w, s, i, a), i) < SenderWork(s, i)
  {}

  lemma SenderStepWorks(w: World, s: State, i: nat, a: SenderAction)
    requires s.closing && Local(w, s, i) && RegisterOk(w, s)
    requires SenderReady(s, i, a) && SenderFits(s, i, a)
    ensures SenderWork(SenderStep(w, s, i, a), i) < SenderWork(s, i)
  {
    if a.AcquireList? {
      AcquiredIsBounded(w, s, i);
    } else if a.Send? {
      SendWorks(w, s, i, a.ok);
    } else if a.ReleaseSnapshot? {
      ReleaseSnapshotWorks(w, s, i);
    } else {
      OtherSenderStepWorks(w, s, i, a);
    }
  }

  lemma ReleaseOldWorks(w: World, s: State)
    requires RefresherReady(s, ReleaseOld) && RefresherFits(s, ReleaseOld)
    ensures RefresherWork(RefresherStep(w, s, ReleaseOld)) < RefresherWork(s)
  {}

  lemma RefresherStepWorks(w: World, s: State, a: RefresherAction)
    requires s.closing && RefresherReady(s, a) && RefresherFits(s, a) && REFRESHER < |s.heap.holds|
    ensures RefresherWork(RefresherStep(w, s, a)) < RefresherWork(s)
  {
    if a.ReleaseOld? {
      ReleaseOldWorks(w, s);
    }
  }

  /** What a step of the clean-up itself does not touch. */
  lemma CleanUpFrame(w: World, s: State, a: MainAction)
    requires CleaningUp(s) && MainReady(s, a) && MainFits(s, a) && HeapOk(s.heap)
    ensures var s' := MainStep(w, s, a);
            && s'.senders == s.senders && s'.refresher == s.refresher && |s'.heap.holds| == |s.heap.holds|
            && WellFormed(s'.heap) && HeapFrame(s.heap, s'.heap, MAIN)
            && (CleaningUp(s') || s'.main.EventLoop?)
  {
    if a.ReleaseCurrent? {
      ReleaseStepKeeps(s.heap, MAIN);
    } else if a.DropCurrent? {
      HeapProofs.SwapKeeps(s.heap, MAIN);
    }
  }

  lemma ReleaseCurrentWorks(s: State)
    requires s.main.ReleasingList? && CanRelease(s.heap, MAIN)
    ensures MainWork(ReleaseCurrentStep(s)) < MainWork(s)
  {}

  lemma JoinWorks(w: World, s: State, a: MainAction)
    requires s.closing && MainReady(s, a) && MainFits(s, a) && MAIN < |s.heap.holds|
    requires a in {JoinSender, FreeThreadIds, JoinRefresher, DestroyClient}
    ensures MAIN < |MainStep(w, s, a).heap.holds| && MainWork(MainStep(w, s, a)) < MainWork(s)
  {}

  lemma DropWorks(w: World, s: State, a: MainAction)
    requires s.closing && MainReady(s, a) && MainFits(s, a) && MAIN < |s.heap.holds|
    requires a in {DropCurrent, FreePatterns}
    ensures MAIN < |MainStep(w, s, a).heap.holds| && MainWork(MainStep(w, s, a)) < MainWork(s)
  {}

  lemma CleanUpActions(s: State, a: MainAction)
    requires CleaningUp(s) && MainReady(s, a)
    ensures a in {JoinSender, FreeThreadIds, JoinRefresher, DestroyClient, DropCurrent, FreePatterns, ReleaseCurrent}
  {}

  lemma CleanUpStepWorks(w: World, s: State, a: MainAction)
    requires CleaningUp(s) && MainReady(s, a) && MainFits(s, a) && MAIN < |s.heap.holds|
    ensures MAIN < |MainStep(w, s, a).heap.holds| && MainWork(MainStep(w, s, a)) < MainWork(s)
  {
    CleanUpActions(s, a);
    if a in {JoinSender, FreeThreadIds, JoinRefresher, DestroyClient} {
      JoinWorks(w, s, a);
    } else if a.ReleaseCurrent? {
      ReleaseCurrentWorks(s);
    } else {
      DropWorks(w, s, a);
    }
  }

  /** Only sender `i` moved, and it did some of its work. */
  lemma OneSenderWorks(w: World, s: State, s': State, i: nat)
    requires i < |s.senders| == |s'.senders| && |s.heap.holds| == |s.senders| + 2 == |s'.heap.holds|
    requires s'.main == s.main && s'.refresher == s.refresher && s'.threadIds == s.threadIds
    requires forall j :: 0 <= j < |s.senders| && j != i ==> s'.senders[j] == s.senders[j]
    requires forall j :: 0 <= j < |s.senders| ==> SenderOk(w, s, j)
    requires HeapFrame(s.heap, s'.heap, Place(i))
    requires SenderWork(s', i) < SenderWork(s, i)
    ensures Work(s') < Work(s)
  {
    forall j | 0 <= j < |s.senders| && j != i
      ensures SenderWork(s', j) == SenderWork(s, j)
    {
      SenderWorkKept(w, s, s', Place(i), j);
    }
    SendersWorkDrops(s, s', i, |s.senders|);
  }

  lemma SenderWorkDrops(w: World, s: State, i: nat, a: SenderAction)
    requires Inv(w, s) && s.closing && SenderReady(s, i, a) && SenderFits(s, i, a)
    ensures |SenderStep(w, s, i, a).heap.holds| == |s.senders| + 2
    ensures Work(SenderStep(w, s, i, a)) < Work(s)
  {
    assert Local(w, s, i);
    SenderStepWorks(w, s, i, a);
    StepKeepsHeap(s, i, a);
    OneSenderWorks(w, s, SenderStep(w, s, i, a), i);
  }

  /** The senders have as much work as before when `t`, which is none of them, moves. */
  lemma SendersWorkKept(w: World, s: State, s': State, t: nat)
    requires |s.heap.holds| == |s.senders| + 2 == |s'.heap.holds|
    requires s'.senders == s.senders && t < 2 && HeapFrame(s.heap, s'.heap, t)
    requires forall i :: 0 <= i < |s.senders| ==> SenderOk(w, s, i)
    ensures SendersWork(s', |s'.senders|) == SendersWork(s, |s.senders|)
  {
    forall j | 0 <= j < |s.senders|
      ensures SenderWork(s', j) == SenderWork(s, j)
    {
      SenderWorkKept(w, s, s', t, j);
    }
    SendersWorkSame(s, s', |s.senders|);
  }

  lemma RefresherWorkDrops(w: World, s: State, a: RefresherAction)
    requires Inv(w, s) && s.closing && RefresherReady(s, a) && RefresherFits(s, a)
    ensures Work(RefresherStep(w, s, a)) < Work(s)
  {
    assert Alone(w, s);
    RefresherStepWorks(w, s, a);
    RefresherStepKeepsHeap(w, s, a);
    SendersWorkKept(w, s, RefresherStep(w, s, a), REFRESHER);
  }

  lemma MainWorkDrops(w: World, s: State, a: MainAction)
    requires Inv(w, s) && CleaningUp(s) && MainReady(s, a) && MainFits(s, a)
    ensures |MainStep(w, s, a).heap.holds| == |MainStep(w, s, a).senders| + 2
    ensures Work(MainStep(w, s, a)) < Work(s)
  {
    CleanUpStepWorks(w, s, a);
    CleanUpFrame(w, s, a);
    SendersWorkKept(w, s, MainStep(w, s, a), MAIN);
  }

  /** Once the flag is up, every step of every thread uses up some of the work that is left. */
  lemma EveryStepWorks(w: World, s: State, a: Action)
    requires Inv(w, s) && CleaningUp(s) && Ready(s, a) && Fits(s, a) && !a.Tick?
    ensures |Next(w, s, a).heap.holds| == |Next(w, s, a).senders| + 2
    ensures Work(Next(w, s, a)) < Work(s)
  {
    if a.OfSender? {
      SenderWorkDrops(w, s, a.i, a.sender);
    } else if a.OfRefresher? {
      RefresherWorkDrops(w, s, a.refresher);
    } else {
      MainWorkDrops(w, s, a.main);
    }
  }

  /** cleanup_threads has not returned at any point of the run but perhaps its end. */
  ghost predicate StillCleaning(w: World, s: State, run: seq<Action>)
    requires CanRun(w, s, run)
    decreases |run|
  {
    run == [] || (CleaningUp(s) && StillCleaning(w, Next(w, s, run[0]), run[1..]))
  }

  function Steps(run: seq<Action>): nat {
    if run == [] then 0 else (if run[0].Tick? then 0 else 1) + Steps(run[1..])
  }

  lemma TickIsNoWork(s: State, seconds: nat)
    requires |s.heap.holds| == |s.senders| + 2
    ensures Work(s.(clock := s.clock + seconds)) == Work(s)
  {
    SendersWorkSame(s, s.(clock := s.clock + seconds), |s.senders|);
  }

  lemma StepIsPaid(w: World, s: State, a: Action)
    requires Inv(w, s) && CleaningUp(s) && Ready(s, a) && Fits(s, a)
    ensures |Next(w, s, a).heap.holds| == |Next(w, s, a).senders| + 2
    ensures (if a.Tick? then 0 else 1) + Work(Next(w, s, a)) <= Work(s)
  {
    if a.Tick? {
      TickIsNoWork(s, a.seconds);
    } else {
      EveryStepWorks(w, s, a);
    }
  }

  /** However the threads are scheduled, and however long each fetch, send and sleep takes, the
      clean-up is over after at most `Work` steps. */
  lemma {:induction false} CleanUpIsBounded(w: World, s: State, run: seq<Action>)
    requires Inv(w, s) && CanRun(w, s, run) && StillCleaning(w, s, run)
    ensures |Final(w, s, run).heap.holds| == |Final(w, s, run).senders| + 2
    ensures Steps(run) + Work(Final(w, s, run)) <= Work(s)
    decreases |run|
  {
    if run != [] {
      StepKeeps(w, s, run[0]);
      StepIsPaid(w, s, run[0]);
      CleanUpIsBounded(w, Next(w, s, run[0]), run[1..]);
    }
  }

  /** In numbers: two passes over the longest list for each running sender, and a constant for the rest. */
  lemma {:induction false} SendersWorkBound(w: World, s: State, ended: nat, n: nat)
    requires |s.heap.holds| == |s.senders| + 2 && ended <= n <= |s.senders|
    requires WellFormed(s.heap) && RegisterOk(w, s) && AllExited(s, ended)
    ensures SendersWork(s, n) <= (n - ended) * (2 * PodList.MAX_PODS + 16)
    decreases n
  {
    if n > ended {
      SendersWorkBound(w, s, ended, n - 1);
      SenderWorkBound(w, s, n - 1);
    } else if n > 0 {
      SendersWorkBound(w, s, ended - 1, n - 1);
    }
  }

  lemma SenderWorkBound(w: World, s: State, i: nat)
    requires |s.heap.holds| == |s.senders| + 2 && i < |s.senders|
    requires WellFormed(s.heap) && RegisterOk(w, s)
    ensures SenderWork(s, i) <= 2 * PodList.MAX_PODS + 16
  {
    assert |Target(s.heap, s.senders[i])| <= PodList.MAX_PODS;
  }

  lemma WorkBound(w: World, s: State)
    requires |s.heap.holds| == |s.senders| + 2 && WellFormed(s.heap) && RegisterOk(w, s)
    requires |s.threadIds| <= |s.senders| && AllExited(s, |s.senders| - |s.threadIds|)
    ensures Work(s) <= 20 + |s.threadIds| * (2 * PodList.MAX_PODS + 17)
  {
    SendersWorkBound(w, s, |s.senders| - |s.threadIds|, |s.senders|);
  }

  // ---------- It never gets stuck ----------

  /** The clean-up never deadlocks: until it returns, some thread has a step to take, and without
      waiting for the clock. Together with the bound, every join completes. */
  lemma CleanUpNeverStuck(w: World, s: State) returns (a: Action)
    requires Reachable(w, s) && CleaningUp(s)
    ensures !a.Tick? && Ready(s, a) && Fits(s, a)
  {
    ReachableInv(w, s);
    match s.main {
      case JoiningSenders(k, _) =>
        if k >= |s.threadIds| {
          a := OfMain(FreeThreadIds);
        } else if SenderDone(s, s.threadIds[k]) {
          a := OfMain(JoinSender);
        } else {
          var b := SenderStepAtHand(s, s.threadIds[k]);
          a := OfSender(s.threadIds[k], b);
        }
      case JoiningRefresher(_) =>
        if s.refresher.pc.Ended? {
          a := OfMain(JoinRefresher);
        } else {
          var b := RefresherStepAtHand(s);
          a := OfRefresher(b);
        }
      case DestroyingClient(_) => a := OfMain(DestroyClient);
      case DroppingList(_) => a := OfMain(DropCurrent);
      case ReleasingList(_) => a := OfMain(ReleaseCurrent);
      case FreeingPatterns(_) => a := OfMain(FreePatterns);
    }
    AlwaysFits(w, s, a);
  }

  // ---------- What may still happen after the flag ----------

  /** Lists the refresher may still publish: it has looked at the flag a second time already. */
  function MayPublish(s: State): nat {
    if s.refresher.pc.Publishing? || s.refresher.pc.Swapping? then 1 else 0
  }

  /** Passes sender `x` may still complete: the rest of the one under way, and one `down`. */
  function MayComplete(x: Sender): nat {
    match x.pc
    case FormattingDown => 1
    case FormattingUp => 1
    case Top => 1
    case Acquiring => if x.closing then 1 else 2
    case Sending => if x.closing then 1 else 2
    case Releasing => if x.closing then 0 else 1
    case PassDone => if x.closing then 0 else 1
    case Sleeping(_) => 1
    case Exited => 0
  }

  /** `s'` has published and completed no more than `s` had, or might. */
  ghost predicate Spends(s: State, s': State, i: nat) {
    && |s'.published| + MayPublish(s') <= |s.published| + MayPublish(s)
    && (i < |s.senders| ==>
          && i < |s'.senders|
          && |s'.senders[i].passes| + MayComplete(s'.senders[i]) <= |s.senders[i].passes| + MayComplete(s.senders[i]))
  }

  lemma SenderSpends(w: World, s: State, j: nat, a: SenderAction, i: nat)
    requires s.closing && SenderReady(s, j, a) && SenderFits(s, j, a)
    ensures Spends(s, SenderStep(w, s, j, a), i)
  {}

  lemma RefresherSpends(w: World, s: State, a: RefresherAction, i: nat)
    requires s.closing && RefresherReady(s, a) && RefresherFits(s, a)
    ensures Spends(s, RefresherStep(w, s, a), i)
  {}

  lemma MainSpends(w: World, s: State, a: MainAction, i: nat)
    requires CleaningUp(s) && MainReady(s, a) && MainFits(s, a) && HeapOk(s.heap)
    ensures Spends(s, MainStep(w, s, a), i)
  {
    CleanUpFrame(w, s, a);
  }

  lemma StepSpends(w: World, s: State, a: Action, i: nat)
    requires Inv(w, s) && CleaningUp(s) && Ready(s, a) && Fits(s, a)
    ensures Spends(s, Next(w, s, a), i)
  {
    if a.OfSender? {
      SenderSpends(w, s, a.i, a.sender, i);
    } else if a.OfRefresher? {
      RefresherSpends(w, s, a.refresher, i);
    } else if a.OfMain? {
      MainSpends(w, s, a.main, i);
    }
  }

  /** After the flag is raised at most one more list is published, and no sender completes more than
      two more passes, the second of them only as its `down` pass. */
  lemma {:induction false} LittleHappensAfterTheFlag(w: World, s: State, run: seq<Action>, i: nat)
    requires Inv(w, s) && CanRun(w, s, run) && StillCleaning(w, s, run)
    ensures Spends(s, Final(w, s, run), i)
    ensures |Final(w, s, run).published| <= |s.published| + 1
    ensures i < |s.senders| ==>
              i < |Final(w, s, run).senders| && |Final(w, s, run).senders[i].passes| <= |s.senders[i].passes| + 2
    decreases |run|
  {
    if run != [] {
      StepKeeps(w, s, run[0]);
      StepSpends(w, s, run[0], i);
      LittleHappensAfterTheFlag(w, Next(w, s, run[0]), run[1..], i);
    }
  }

  /** So every clean-up, from the flag to the return of cleanup_threads, is short in every
      interleaving: at most so many steps of all threads together, for the senders then running,
      however the clock runs. */
  lemma EveryCleanUpIsShort(w: World, s: State, run: seq<Action>)
    requires Reachable(w, s) && CanRun(w, s, run) && StillCleaning(w, s, run)
    ensures Steps(run) <= 20 + |s.threadIds| * (2 * PodList.MAX_PODS + 17)
    ensures |Final(w, s, run).published| <= |s.published| + 1
    ensures forall i :: 0 <= i < |s.senders| ==>
              i < |Final(w, s, run).senders| && |Final(w, s, run).senders[i].passes| <= |s.senders[i].passes| + 2
  {
    ReachableInv(w, s);
    CleanUpIsBounded(w, s, run);
    WorkBound(w, s);
    LittleHappensAfterTheFlag(w, s, run, 0);
    forall i | 0 <= i < |s.senders|
      ensures i < |Final(w, s, run).senders| && |Final(w, s, run).senders[i].passes| <= |s.senders[i].passes| + 2
    {
      LittleHappensAfterTheFlag(w, s, run, i);
    }
  }
}
