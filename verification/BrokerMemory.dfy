/** Which memory a step touches, and that it was never freed. */
module BrokerMemory {
  import opened Prelude
  import opened SnapshotHeap
  import opened HeapProofs
  import opened Broker
  import opened BrokerFrame
  import opened BrokerInvariant
  import opened BrokerRuns

  /** The snapshot pod_cache_release looks at or frees next. */
  function ReleasedSnap(x: Hold): set<Ptr> {
    match x
    case Ref(p) => {p}
    case FreeingList(p) => {p}
    case FreeingSnap(p) => {p}
    case _ => {}
  }

  ghost predicate HandsInRange(h: Heap) {
    WellFormed(h) && REFRESHER < |h.holds|
  }

  ghost function CurrentSnap(h: Heap): set<Ptr> {
    if h.current.Some? then {h.current.value} else {}
  }

  /** The snapshots that the source dereferences or frees in a step. */
  ghost function TouchedSnaps(s: State, a: Action): set<Ptr>
    requires Ready(s, a) && HandsInRange(s.heap) && |s.heap.holds| == |s.senders| + 2
  {
    match a
    case Tick(_) => {}
    case OfSender(i, b) =>
      var x := s.senders[i];
      if b.AcquireList? then CurrentSnap(s.heap)
      else if (b.Send? || b.Report?) && x.snapshot.Some? then {x.snapshot.value}
      else if b.ReleaseSnapshot? then ReleasedSnap(s.heap.holds[Place(i)])
      else {}
    case OfRefresher(b) =>
      if b.CheckExpiry? || b.NoteFailure? then CurrentSnap(s.heap)
      else if b.ReleaseOld? then ReleasedSnap(s.heap.holds[REFRESHER])
      else {}
    case OfMain(b) => if b.ReleaseCurrent? then ReleasedSnap(s.heap.holds[MAIN]) else {}
  }

  /** The list in a snapshot, where the step goes on to it. */
  ghost function ListOf(h: Heap, snaps: set<Ptr>): set<Ptr> {
    set p | p in snaps && p < |h.snaps| :: h.snaps[p].list
  }

  function FreedList(h: Heap, x: Hold): set<Ptr> {
    if x.FreeingList? && x.snap < |h.snaps| then {h.snaps[x.snap].list} else {}
  }

  /** The lists that it dereferences or frees. */
  ghost function TouchedLists(s: State, a: Action): set<Ptr>
    requires Ready(s, a) && HandsInRange(s.heap) && |s.heap.holds| == |s.senders| + 2
  {
    var inHand := if s.heap.holds[REFRESHER].Fetched? then {s.heap.holds[REFRESHER].list} else {};
    match a
    case Tick(_) => {}
    case OfSender(i, b) =>
      if b.Send? || b.Report? then ListOf(s.heap, TouchedSnaps(s, a))
      else if b.ReleaseSnapshot? then FreedList(s.heap, s.heap.holds[Place(i)])
      else {}
    case OfRefresher(b) =>
      if b.CheckExpiry? || b.NoteFailure? then ListOf(s.heap, TouchedSnaps(s, a))
      else if b.CheckFlagAgain? || b.FreeFetched? || b.Allocate? then inHand
      else if b.ReleaseOld? then FreedList(s.heap, s.heap.holds[REFRESHER])
      else {}
    case OfMain(b) => if b.ReleaseCurrent? then FreedList(s.heap, s.heap.holds[MAIN]) else {}
  }

  ghost predicate SnapsUnfreed(h: Heap, snaps: set<Ptr>) {
    forall p :: p in snaps ==> p < |h.snaps| && h.snaps[p].frees == 0
  }

  ghost predicate ListsUnfreed(h: Heap, lists: set<Ptr>) {
    forall l :: l in lists ==> l < |h.lists| && h.lists[l].frees == 0
  }

  lemma HandIsUnfreed(h: Heap, t: nat)
    requires HeapOk(h) && t < |h.holds|
    ensures SnapsUnfreed(h, ReleasedSnap(h.holds[t])) && ListsUnfreed(h, FreedList(h, h.holds[t]))
    ensures h.holds[t].Fetched? ==> ListsUnfreed(h, {h.holds[t].list})
    ensures h.holds[t].Ref? ==> ListsUnfreed(h, ListOf(h, {h.holds[t].snap}))
  {
    assert HoldInRange(h, h.holds[t]);
    match h.holds[t]
    case Nothing =>
    case Fetched(l) => FetchedIsLoose(h, t, l);
    case Ref(p) => HeldIsUnfreed(h, t, p);
    case FreeingList(p) => HeldIsUnfreed(h, t, p);
    case FreeingSnap(p) => HeldIsUnfreed(h, t, p);
  }

  lemma CurrentUnfreed(h: Heap)
    requires HeapOk(h)
    ensures SnapsUnfreed(h, CurrentSnap(h)) && ListsUnfreed(h, ListOf(h, CurrentSnap(h)))
  {
    if h.current.Some? {
      CurrentIsUnfreed(h);
    }
  }

  lemma SenderTouchesUnfreed(w: World, s: State, i: nat, a: SenderAction)
    requires HeapOk(s.heap) && |s.heap.holds| == |s.senders| + 2 && i < |s.senders| && SenderOk(w, s, i)
    requires SenderReady(s, i, a)
    ensures SnapsUnfreed(s.heap, TouchedSnaps(s, OfSender(i, a)))
    ensures ListsUnfreed(s.heap, TouchedLists(s, OfSender(i, a)))
  {
    HandIsUnfreed(s.heap, Place(i));
    CurrentUnfreed(s.heap);
  }

  lemma RefresherTouchesUnfreed(s: State, a: RefresherAction)
    requires HeapOk(s.heap) && |s.heap.holds| == |s.senders| + 2 && RefresherReady(s, a)
    ensures SnapsUnfreed(s.heap, TouchedSnaps(s, OfRefresher(a)))
    ensures ListsUnfreed(s.heap, TouchedLists(s, OfRefresher(a)))
  {
    HandIsUnfreed(s.heap, REFRESHER);
    CurrentUnfreed(s.heap);
  }

  lemma MainTouchesUnfreed(s: State, a: MainAction)
    requires HeapOk(s.heap) && |s.heap.holds| == |s.senders| + 2 && MainReady(s, a)
    ensures SnapsUnfreed(s.heap, TouchedSnaps(s, OfMain(a)))
    ensures ListsUnfreed(s.heap, TouchedLists(s, OfMain(a)))
  {
    HandIsUnfreed(s.heap, MAIN);
  }

  /** In every reachable state, whatever step comes next, each snapshot and each list that the source
      dereferences or frees in it exists and was not freed before. */
  lemma NothingFreedIsTouched(w: World, s: State, a: Action)
    requires Reachable(w, s) && Ready(s, a)
    ensures HandsInRange(s.heap) && |s.heap.holds| == |s.senders| + 2
    ensures SnapsUnfreed(s.heap, TouchedSnaps(s, a)) && ListsUnfreed(s.heap, TouchedLists(s, a))
  {
    ReachableInv(w, s);
    match a
    case Tick(_) =>
    case OfSender(i, b) =>
      assert SenderOk(w, s, i);
      SenderTouchesUnfreed(w, s, i, b);
    case OfRefresher(b) => RefresherTouchesUnfreed(s, b);
    case OfMain(b) => MainTouchesUnfreed(s, b);
  }

  // ---------- What was ever allocated ----------

  /** The list a step allocates, and the stamp of the snapshot it does. */
  ghost function ListsMade(w: World, a: Action): seq<seq<string>> {
    if a.OfRefresher? && a.refresher.FetchPods? && w.answer(a.refresher.request).Some?
    then [w.answer(a.refresher.request).value]
    else []
  }

  function SnapsMade(clock: int, a: Action): seq<int> {
    if a == OfRefresher(Allocate(true)) then [clock] else []
  }

  ghost function AllLists(w: World, run: seq<Action>): seq<seq<string>>
    decreases |run|
  {
    if run == [] then [] else ListsMade(w, run[0]) + AllLists(w, run[1..])
  }

  function AllStamps(clock: int, run: seq<Action>): seq<int>
    decreases |run|
  {
    if run == [] then []
    else SnapsMade(clock, run[0]) + AllStamps(if run[0].Tick? then clock + run[0].seconds else clock, run[1..])
  }

  ghost function Texts(h: Heap): seq<seq<string>> {
    seq(|h.lists|, l requires 0 <= l < |h.lists| => h.lists[l].ips)
  }

  ghost function Stamps(h: Heap): seq<int> {
    seq(|h.snaps|, p requires 0 <= p < |h.snaps| => h.snaps[p].receivedAt)
  }

  ghost predicate Makes(h: Heap, h': Heap, lists: seq<seq<string>>, stamps: seq<int>) {
    Texts(h') == Texts(h) + lists && Stamps(h') == Stamps(h) + stamps
  }

  lemma SenderMakesNothing(w: World, s: State, i: nat, a: SenderAction)
    requires SenderReady(s, i, a) && SenderFits(s, i, a)
    ensures Makes(s.heap, SenderHeap(s, i, a), [], [])
  {}

  lemma RefresherMakes(w: World, s: State, a: RefresherAction)
    requires RefresherReady(s, a) && RefresherFits(s, a)
    ensures Makes(s.heap, RefresherHeap(w, s, a), ListsMade(w, OfRefresher(a)), SnapsMade(s.clock, OfRefresher(a)))
  {}

  lemma SwapMakesNothing(h: Heap, t: nat)
    requires t < |h.holds| && (h.holds[t].Nothing? || h.holds[t].Ref?)
    ensures Makes(h, Swap(h, t), [], [])
  {}

  lemma ReleaseMakesNothing(h: Heap, t: nat)
    requires CanRelease(h, t)
    ensures Makes(h, ReleaseStep(h, t), [], [])
  {}

  lemma MainMakesNothing(w: World, s: State, a: MainAction)
    requires MainReady(s, a) && MainFits(s, a)
    ensures Makes(s.heap, MainStep(w, s, a).heap, [], [])
  {
    if a.DropCurrent? {
      SwapMakesNothing(s.heap, MAIN);
    } else if a.ReleaseCurrent? {
      ReleaseMakesNothing(s.heap, MAIN);
    } else if !a.StartCache? && !a.NextInterface? {
      MainLeaves(w, s, a);
    }
  }

  lemma ClockOfStep(w: World, s: State, a: Action)
    requires Ready(s, a) && Fits(s, a)
    ensures Next(w, s, a).clock == (if a.Tick? then s.clock + a.seconds else s.clock)
  {
    if a.OfMain? {
      if a.main.StartCache? || a.main.NextInterface? {
        StartLeaves(w, s, a.main);
      } else {
        MainLeaves(w, s, a.main);
      }
    }
  }

  lemma StepMakes(w: World, s: State, a: Action)
    requires Ready(s, a) && Fits(s, a)
    ensures Makes(s.heap, Next(w, s, a).heap, ListsMade(w, a), SnapsMade(s.clock, a))
  {
    match a
    case Tick(_) =>
    case OfSender(i, b) => SenderMakesNothing(w, s, i, b);
    case OfRefresher(b) => RefresherMakes(w, s, b);
    case OfMain(b) => MainMakesNothing(w, s, b);
  }

  lemma MakesJoin(h: Heap, h1: Heap, h2: Heap, l: seq<seq<string>>, k: seq<int>, l': seq<seq<string>>, k': seq<int>)
    requires Makes(h, h1, l, k) && Makes(h1, h2, l', k')
    ensures Makes(h, h2, l + l', k + k')
  {
    assert Texts(h) + l + l' == Texts(h) + (l + l') && Stamps(h) + k + k' == Stamps(h) + (k + k');
  }

  lemma {:induction false} RunMakes(w: World, s: State, run: seq<Action>)
    requires CanRun(w, s, run)
    ensures Makes(s.heap, Final(w, s, run).heap, AllLists(w, run), AllStamps(s.clock, run))
    decreases |run|
  {
    if run != [] {
      var a, s' := run[0], Next(w, s, run[0]);
      StepMakes(w, s, a);
      ClockOfStep(w, s, a);
      RunMakes(w, s', run[1..]);
      MakesJoin(s.heap, s'.heap, Final(w, s', run[1..]).heap, ListsMade(w, a), SnapsMade(s.clock, a),
                AllLists(w, run[1..]), AllStamps(s'.clock, run[1..]));
    }
  }

  /** In every run the lists ever allocated are the answers of its requests, none more and none less,
      and the snapshots ever allocated those of its successful allocations, stamped with the clock. So
      CleanUpFreesEverything leaves nothing out. */
  lemma AllocationsAreCounted(w: World, run: seq<Action>)
    requires CanRun(w, INITIAL, run)
    ensures Texts(Final(w, INITIAL, run).heap) == AllLists(w, run)
    ensures Stamps(Final(w, INITIAL, run).heap) == AllStamps(0, run)
  {
    RunMakes(w, INITIAL, run);
  }
}
