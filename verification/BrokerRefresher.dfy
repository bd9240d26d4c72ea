/** Every step of the refresher keeps the invariant. */
module BrokerRefresher {
  import opened Prelude
  import opened Staleness
  import opened SnapshotHeap
  import opened HeapProofs
  import opened Broker
  import opened BrokerInvariant
  import opened BrokerSenders
  import RefreshLoop
  import PodList

  /** What the refresher's own steps rely on. */
  ghost predicate Alone(w: World, s: State) {
    && HeapOk(s.heap) && |s.heap.holds| == |s.senders| + 2
    && RegisterOk(w, s)
    && RefresherOk(w, s)
  }

  lemma RefresherStepKeepsHeap(w: World, s: State, a: RefresherAction)
    requires Alone(w, s) && RefresherReady(s, a) && RefresherFits(s, a)
    ensures var h' := RefresherHeap(w, s, a);
            && HeapOk(h') && HeapFrame(s.heap, h', REFRESHER)
            && (!a.Exchange? ==> h'.current == s.heap.current)
  {
    var h := s.heap;
    match a
    case FetchPods(q) =>
      if w.answer(q).Some? {
        FetchKeeps(h, REFRESHER, w.answer(q).value);
      }
    case CheckFlagAgain =>
      if HoldsList(h) {
        ReadListKeeps(h, REFRESHER, h.holds[REFRESHER].list);
      }
    case FreeFetched => DropListKeeps(h, REFRESHER, h.holds[REFRESHER].list);
    case Allocate(ok) =>
      ReadListKeeps(h, REFRESHER, h.holds[REFRESHER].list);
      NewSnapshotKeeps(h, REFRESHER, h.holds[REFRESHER].list, s.clock);
    case Exchange => SwapKeeps(h, REFRESHER);
    case ReleaseOld => ReleaseStepKeeps(h, REFRESHER);
    case CheckExpiry => ReadCurrentKeeps(h);
    case NoteFailure => ReadCurrentKeeps(h);
    case _ =>
  }

  /** A turn joins the run: its instants come after all earlier ones. */
  lemma RoundsGrow(rounds: seq<RefreshLoop.Round>, r: RefreshLoop.Round, t: int)
    requires RefreshLoop.Chronological(rounds)
    requires r.Bad? ==> RoundsUpTo(rounds, r.at) && r.at <= r.checkedAt <= r.loggedAt <= t
    requires r.Good? ==> RoundsUpTo(rounds, t)
    ensures RefreshLoop.Chronological(rounds + [r]) && RoundsUpTo(rounds + [r], t)
  {}

  /** RefresherOk of the state after `a`. */
  ghost predicate InOrder(w: World, s: State, a: RefresherAction)
    requires Alone(w, s) && RefresherReady(s, a) && RefresherFits(s, a)
  {
    RefresherStepKeepsHeap(w, s, a);
    RefresherOk(w, RefresherStep(w, s, a))
  }

  lemma IdleStepsInOrder(w: World, s: State, a: RefresherAction)
    requires Alone(w, s) && a in {CheckFlag, ReadClock, EndPause} && RefresherReady(s, a)
    ensures InOrder(w, s, a)
  {}

  lemma FetchInOrder(w: World, s: State, q: PodList.Request)
    requires Alone(w, s) && RefresherReady(s, FetchPods(q)) && RefresherFits(s, FetchPods(q))
    ensures InOrder(w, s, FetchPods(q))
  {
    RefresherStepKeepsHeap(w, s, FetchPods(q));
    CurrentKept(s.heap, RefresherHeap(w, s, FetchPods(q)), REFRESHER);
  }

  lemma CheckAgainInOrder(w: World, s: State)
    requires Alone(w, s) && RefresherReady(s, CheckFlagAgain) && RefresherFits(s, CheckFlagAgain)
    ensures InOrder(w, s, CheckFlagAgain)
  {
    RefresherStepKeepsHeap(w, s, CheckFlagAgain);
    CurrentKept(s.heap, RefresherHeap(w, s, CheckFlagAgain), REFRESHER);
  }

  lemma FreeFetchedInOrder(w: World, s: State)
    requires Alone(w, s) && RefresherReady(s, FreeFetched) && RefresherFits(s, FreeFetched)
    ensures InOrder(w, s, FreeFetched)
  {
    RefresherStepKeepsHeap(w, s, FreeFetched);
    CurrentKept(s.heap, RefresherHeap(w, s, FreeFetched), REFRESHER);
  }

  lemma AllocateHands(w: World, s: State)
    requires Alone(w, s) && RefresherReady(s, Allocate(true)) && RefresherFits(s, Allocate(true))
    ensures RefresherHandsOk(w, RefresherStep(w, s, Allocate(true)))
  {
    RefresherStepKeepsHeap(w, s, Allocate(true));
    assert HoldInRange(s.heap, s.heap.holds[REFRESHER]);
    assert forall k :: 0 <= k < |s.published| ==> PublicationOk(w, s, s.published[k]);
  }

  lemma AllocateInOrder(w: World, s: State, ok: bool)
    requires Alone(w, s) && RefresherReady(s, Allocate(ok)) && RefresherFits(s, Allocate(ok))
    ensures InOrder(w, s, Allocate(ok))
  {
    RefresherStepKeepsHeap(w, s, Allocate(ok));
    if ok {
      AllocateHands(w, s);
      CurrentKept(s.heap, RefresherHeap(w, s, Allocate(ok)), REFRESHER);
    }
  }

  /** After the exchange `current` is the snapshot the refresher held. */
  lemma ExchangeInstalls(w: World, s: State)
    requires Alone(w, s) && RefresherReady(s, Exchange) && RefresherFits(s, Exchange)
    ensures var h' := RefresherHeap(w, s, Exchange);
            && WellFormed(h') && h'.current == Some(s.heap.holds[REFRESHER].snap)
            && !h'.holds[REFRESHER].Fetched?
            && Current(h') == Some(Held(s.refresher.pc.count, s.refresher.pc.receivedAt))
  {
    RefresherStepKeepsHeap(w, s, Exchange);
    assert HoldInRange(s.heap, s.heap.holds[REFRESHER]);
  }

  lemma ExchangeInOrder(w: World, s: State)
    requires Alone(w, s) && RefresherReady(s, Exchange) && RefresherFits(s, Exchange)
    ensures InOrder(w, s, Exchange)
  {
    RefresherStepKeepsHeap(w, s, Exchange);
    ExchangeInstalls(w, s);
  }

  /** publish: the list that comes in becomes both `current` and the register's latest. */
  lemma ExchangePublishes(w: World, s: State)
    requires Alone(w, s) && RefresherReady(s, Exchange) && RefresherFits(s, Exchange)
    ensures WellFormed(RefresherHeap(w, s, Exchange)) && RegisterOk(w, RefresherStep(w, s, Exchange))
  {
    var s' := RefresherStep(w, s, Exchange);
    ExchangeInstalls(w, s);
    assert PublicationOk(w, s', Offered(s));
    forall k | 0 <= k < |s.published|
      ensures PublicationOk(w, s', s.published[k])
    {
      assert PublicationOk(w, s, s.published[k]);
    }
  }

  lemma ReleaseOldInOrder(w: World, s: State)
    requires Alone(w, s) && RefresherReady(s, ReleaseOld) && RefresherFits(s, ReleaseOld)
    ensures InOrder(w, s, ReleaseOld)
  {
    RefresherStepKeepsHeap(w, s, ReleaseOld);
    ReleaseStepKeeps(s.heap, REFRESHER);
    CurrentKept(s.heap, RefresherHeap(w, s, ReleaseOld), REFRESHER);
  }

  lemma NoteSuccessLoop(w: World, s: State)
    requires Alone(w, s) && RefresherReady(s, NoteSuccess)
    ensures RefresherLoopOk(w, RefresherStep(w, s, NoteSuccess))
  {
    var r := s.refresher;
    var round := RefreshLoop.Good(r.pc.count, r.pc.receivedAt, s.clock);
    RefreshLoop.RunStep(w.config.maxAge, r.rounds, round);
    RoundsGrow(r.rounds, round, s.clock);
  }

  lemma NoteSuccessInOrder(w: World, s: State)
    requires Alone(w, s) && RefresherReady(s, NoteSuccess)
    ensures InOrder(w, s, NoteSuccess)
  {
    NoteSuccessLoop(w, s);
  }

  lemma CheckExpiryInOrder(w: World, s: State)
    requires Alone(w, s) && RefresherReady(s, CheckExpiry) && RefresherFits(s, CheckExpiry)
    ensures InOrder(w, s, CheckExpiry)
  {
    ReadCurrentKeeps(s.heap);
  }

  lemma NoteFailureLoop(w: World, s: State)
    requires RefresherReady(s, NoteFailure) && WellFormed(s.heap) && RefresherLoopOk(w, s)
    requires ReadCurrent(s.heap) == s.heap && s.maxAge == w.config.maxAge
    ensures RefresherLoopOk(w, RefresherStep(w, s, NoteFailure))
  {
    var r := s.refresher;
    var round := RefreshLoop.Bad(r.pc.now, r.pc.checkedAt, s.clock);
    RefreshLoop.RunStep(w.config.maxAge, r.rounds, round);
    RoundsGrow(r.rounds, round, s.clock);
  }

  lemma NoteFailureInOrder(w: World, s: State)
    requires Alone(w, s) && RefresherReady(s, NoteFailure) && RefresherFits(s, NoteFailure)
    ensures InOrder(w, s, NoteFailure)
  {
    ReadCurrentKeeps(s.heap);
    NoteFailureLoop(w, s);
  }

  lemma StepsInOrder(w: World, s: State, a: RefresherAction)
    requires Alone(w, s) && RefresherReady(s, a) && RefresherFits(s, a)
    ensures InOrder(w, s, a)
  {
    match a
    case FetchPods(q) => FetchInOrder(w, s, q);
    case CheckFlagAgain => CheckAgainInOrder(w, s);
    case FreeFetched => FreeFetchedInOrder(w, s);
    case Allocate(ok) => AllocateInOrder(w, s, ok);
    case Exchange => ExchangeInOrder(w, s);
    case ReleaseOld => ReleaseOldInOrder(w, s);
    case NoteSuccess => NoteSuccessInOrder(w, s);
    case CheckExpiry => CheckExpiryInOrder(w, s);
    case NoteFailure => NoteFailureInOrder(w, s);
    case _ => IdleStepsInOrder(w, s, a);
  }

  /** The only new list is a fetched one, and it is not too long. */
  lemma NewListsAreShort(w: World, s: State, a: RefresherAction)
    requires Alone(w, s) && RefresherReady(s, a) && RefresherFits(s, a)
    ensures forall l :: |s.heap.lists| <= l < |RefresherHeap(w, s, a).lists| ==>
              |RefresherHeap(w, s, a).lists[l].ips| <= PodList.MAX_PODS
  {}

  lemma RegisterStays(w: World, s: State, a: RefresherAction)
    requires Alone(w, s) && RefresherReady(s, a) && RefresherFits(s, a)
    ensures WellFormed(RefresherHeap(w, s, a))
    ensures RegisterOk(w, RefresherStep(w, s, a))
  {
    RefresherStepKeepsHeap(w, s, a);
    if a.Exchange? {
      ExchangePublishes(w, s);
    } else {
      NewListsAreShort(w, s, a);
      RegisterKept(w, s, RefresherStep(w, s, a), REFRESHER);
    }
  }

  lemma RefresherStepKeeps(w: World, s: State, a: RefresherAction)
    requires Inv(w, s) && RefresherReady(s, a) && RefresherFits(s, a)
    ensures Inv(w, RefresherStep(w, s, a))
  {
    assert Alone(w, s);
    RefresherStepKeepsHeap(w, s, a);
    StepsInOrder(w, s, a);
    RegisterStays(w, s, a);
    SendersKept(w, s, RefresherStep(w, s, a), REFRESHER);
    MainKept(s, RefresherStep(w, s, a));
  }
}
