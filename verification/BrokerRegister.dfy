/** The register, read off the run: no good answer is lost, and nothing else is published. */
module BrokerRegister {
  import opened Prelude
  import opened SnapshotHeap
  import opened Broker
  import opened BrokerFrame
  import opened BrokerInvariant
  import opened BrokerRuns
  import opened BrokerSenders
  import opened BrokerRefresher
  import opened HeapProofs
  import PodList

  /** A note-taker beside the module, who sees the actions but not the state: the clock, whether the
      flag is up, the non-empty answer of the latest request, and the good ones so far. An answer is
      good when the second look at the flag found it down and its snapshot could be allocated. */
  datatype Journal = Journal(
    clock: int,
    closing: bool,
    inFlight: Option<(PodList.Request, seq<string>)>,
    good: seq<Publication>)

  const NO_NOTES := Journal(0, false, None, [])

  ghost function NoteRefresher(w: World, j: Journal, a: RefresherAction): Journal {
    match a
    case FetchPods(q) =>
      var answer := w.answer(q);
      j.(inFlight := if answer.Some? && answer.value != [] then Some((q, answer.value)) else None)
    case CheckFlagAgain => if j.closing then j.(inFlight := None) else j
    case Allocate(ok) =>
      if ok && j.inFlight.Some? then
        var (request, ips) := j.inFlight.value;
        j.(inFlight := None, good := j.good + [Publication(request, ips, j.clock)])
      else j.(inFlight := None)
    case _ => j
  }

  ghost function Note(w: World, j: Journal, a: Action): Journal {
    match a
    case Tick(seconds) => j.(clock := j.clock + seconds)
    case OfRefresher(b) => NoteRefresher(w, j, b)
    case OfMain(b) => if b.RaiseFlag? then j.(closing := true) else if b.Load? then j.(closing := false) else j
    case OfSender(_, _) => j
  }

  ghost function Notes(w: World, j: Journal, run: seq<Action>): Journal
    decreases |run|
  {
    if run == [] then j else Notes(w, Note(w, j, run[0]), run[1..])
  }

  /** The good answers that have been exchanged; the last one may be about to be. */
  ghost predicate Exchanged(s: State, good: seq<Publication>) {
    if s.refresher.pc.Swapping? then
      && HoldsSnapshot(s)
      && var snap := s.heap.snaps[s.heap.holds[REFRESHER].snap];
         good == s.published + [Publication(s.refresher.request, s.heap.lists[snap.list].ips, snap.receivedAt)]
    else good == s.published
  }

  ghost predicate HoldsSnapshot(s: State) {
    WellFormed(s.heap) && REFRESHER < |s.heap.holds| && s.heap.holds[REFRESHER].Ref?
    && HoldInRange(s.heap, s.heap.holds[REFRESHER])
  }

  /** The list the refresher holds, with its request, unless it is empty. */
  ghost function InHand(s: State): Option<(PodList.Request, seq<string>)> {
    if HoldsList(s.heap) && HoldInRange(s.heap, s.heap.holds[REFRESHER])
       && s.heap.lists[s.heap.holds[REFRESHER].list].ips != []
    then Some((s.refresher.request, s.heap.lists[s.heap.holds[REFRESHER].list].ips))
    else None
  }

  ghost predicate Agrees(s: State, j: Journal) {
    && j.clock == s.clock && j.closing == s.closing
    && Exchanged(s, j.good)
    && (s.refresher.pc.HasFetched? || s.refresher.pc.Publishing? ==> j.inFlight == InHand(s))
  }

  /** The notes stay right while another thread moves. */
  lemma OthersAgree(s: State, s': State, j: Journal, t: nat)
    requires Agrees(s, j) && HeapFrame(s.heap, s'.heap, t) && t != REFRESHER && REFRESHER < |s.heap.holds|
    requires s'.refresher == s.refresher && s'.published == s.published
    ensures Agrees(s', j.(clock := s'.clock, closing := s'.closing))
  {
    assert HoldInRange(s.heap, s.heap.holds[REFRESHER]);
  }

  lemma FetchAgrees(w: World, s: State, j: Journal, q: PodList.Request)
    requires Alone(w, s) && Agrees(s, j) && RefresherReady(s, FetchPods(q)) && RefresherFits(s, FetchPods(q))
    ensures Agrees(RefresherStep(w, s, FetchPods(q)), NoteRefresher(w, j, FetchPods(q)))
  {
    RefresherStepKeepsHeap(w, s, FetchPods(q));
  }

  lemma AllocateAgrees(w: World, s: State, j: Journal, ok: bool)
    requires Alone(w, s) && Agrees(s, j) && RefresherReady(s, Allocate(ok)) && RefresherFits(s, Allocate(ok))
    requires s.heap.lists[s.heap.holds[REFRESHER].list].ips != []
    ensures Agrees(RefresherStep(w, s, Allocate(ok)), NoteRefresher(w, j, Allocate(ok)))
  {
    RefresherStepKeepsHeap(w, s, Allocate(ok));
  }

  lemma OtherStepsAgree(w: World, s: State, j: Journal, a: RefresherAction)
    requires Alone(w, s) && Agrees(s, j) && RefresherReady(s, a) && RefresherFits(s, a)
    requires !a.FetchPods? && !a.Allocate?
    ensures Agrees(RefresherStep(w, s, a), NoteRefresher(w, j, a))
  {}

  lemma RefresherAgrees(w: World, s: State, j: Journal, a: RefresherAction)
    requires Alone(w, s) && Agrees(s, j) && RefresherReady(s, a) && RefresherFits(s, a)
    ensures Agrees(RefresherStep(w, s, a), NoteRefresher(w, j, a))
  {
    if a.FetchPods? {
      FetchAgrees(w, s, j, a.request);
    } else if a.Allocate? {
      AllocateAgrees(w, s, j, a.ok);
    } else {
      OtherStepsAgree(w, s, j, a);
    }
  }

  /** Only an ended refresher is started, and it has nothing in flight then. */
  lemma StartCacheAgrees(w: World, s: State, j: Journal, clientOk: bool, threadOk: bool)
    requires Agrees(s, j) && s.refresher.pc.Ended?
    ensures Agrees(StartCacheStep(s, w.config.maxAge, clientOk, threadOk), j)
  {}

  lemma OtherMainAgrees(w: World, s: State, j: Journal, a: MainAction)
    requires HeapOk(s.heap) && MAIN < REFRESHER < |s.heap.holds| && Agrees(s, j)
    requires MainReady(s, a) && MainFits(s, a) && !a.StartCache?
    ensures Agrees(MainStep(w, s, a), Note(w, j, OfMain(a)))
  {
    MainMovesHeap(w, s, a);
    if a.NextInterface? {
      StartLeaves(w, s, a);
    } else {
      MainLeaves(w, s, a);
    }
    OthersAgree(s, MainStep(w, s, a), j, MAIN);
  }

  lemma MainAgrees(w: World, s: State, j: Journal, a: MainAction)
    requires HeapOk(s.heap) && MAIN < REFRESHER < |s.heap.holds| && MainOk(s) && Agrees(s, j)
    requires MainReady(s, a) && MainFits(s, a)
    ensures Agrees(MainStep(w, s, a), Note(w, j, OfMain(a)))
  {
    if a.StartCache? {
      StartCacheAgrees(w, s, j, a.clientOk, a.threadOk);
    } else {
      OtherMainAgrees(w, s, j, a);
    }
  }

  lemma SenderAgrees(w: World, s: State, j: Journal, i: nat, a: SenderAction)
    requires HeapOk(s.heap) && |s.heap.holds| == |s.senders| + 2 && Agrees(s, j)
    requires SenderReady(s, i, a) && SenderFits(s, i, a)
    ensures Agrees(SenderStep(w, s, i, a), j)
  {
    StepKeepsHeap(s, i, a);
    OthersAgree(s, SenderStep(w, s, i, a), j, Place(i));
  }

  lemma StepAgrees(w: World, s: State, j: Journal, a: Action)
    requires Inv(w, s) && Agrees(s, j) && Ready(s, a) && Fits(s, a)
    ensures Agrees(Next(w, s, a), Note(w, j, a))
  {
    if a.OfSender? {
      SenderAgrees(w, s, j, a.i, a.sender);
    } else if a.OfRefresher? {
      RefresherAgrees(w, s, j, a.refresher);
    } else if a.OfMain? {
      MainAgrees(w, s, j, a.main);
    }
  }

  lemma {:induction false} RunAgrees(w: World, s: State, j: Journal, run: seq<Action>)
    requires Inv(w, s) && Agrees(s, j) && CanRun(w, s, run)
    ensures Agrees(Final(w, s, run), Notes(w, j, run))
    decreases |run|
  {
    if run != [] {
      StepKeeps(w, s, run[0]);
      StepAgrees(w, s, j, run[0]);
      RunAgrees(w, Next(w, s, run[0]), Note(w, j, run[0]), run[1..]);
    }
  }

  /** In every run the published lists are exactly the good answers, in order, up to the one whose
      exchange is still to come; once cleanup_threads is done none is missing. */
  lemma PublishedAreTheGoodAnswers(w: World, run: seq<Action>)
    requires CanRun(w, INITIAL, run)
    ensures var s, good := Final(w, INITIAL, run), Notes(w, NO_NOTES, run).good;
            && (s.refresher.pc.Swapping? ==> good != [] && s.published == good[..|good| - 1])
            && (!s.refresher.pc.Swapping? ==> s.published == good)
            && (CleanedUp(s) ==> s.published == good)
  {
    InitialInv(w);
    RunKeeps(w, INITIAL, run);
    RunAgrees(w, INITIAL, NO_NOTES, run);
  }
}
