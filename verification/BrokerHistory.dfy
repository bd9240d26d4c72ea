/** What no step, and so no run, can do to the memory and to the register. */
module BrokerHistory {
  import opened SnapshotHeap
  import opened HeapProofs
  import opened Broker
  import opened BrokerInvariant
  import opened BrokerRuns

  /** No count rises from zero between `h` and `h'`. */
  ghost predicate NoRevival(h: Heap, h': Heap) {
    && |h.snaps| <= |h'.snaps|
    && forall p :: 0 <= p < |h.snaps| && h.snaps[p].refs == 0 ==> h'.snaps[p].refs == 0
  }

  lemma ReleaseNeverRevives(h: Heap, t: nat)
    requires HeapOk(h) && CanRelease(h, t)
    ensures NoRevival(h, ReleaseStep(h, t))
  {
    if h.holds[t].Ref? {
      assert HoldInRange(h, h.holds[t]);
      HeldIsUnfreed(h, t, h.holds[t].snap);
    }
  }

  lemma AcquireNeverRevives(h: Heap, t: nat, now: int, maxAge: int)
    requires HeapOk(h) && Holds(h, t, Nothing)
    ensures NoRevival(h, Acquire(h, t, now, maxAge))
  {
    if h.current.Some? {
      CurrentIsUnfreed(h);
    }
  }

  lemma SenderNeverRevives(s: State, i: nat, a: SenderAction)
    requires HeapOk(s.heap) && SenderReady(s, i, a) && SenderFits(s, i, a)
    ensures NoRevival(s.heap, SenderHeap(s, i, a)) && SenderHeap(s, i, a).current == s.heap.current
  {
    if a.AcquireList? {
      AcquireNeverRevives(s.heap, Place(i), s.clock, s.maxAge);
    } else if a.ReleaseSnapshot? {
      ReleaseNeverRevives(s.heap, Place(i));
    }
  }

  lemma RefresherNeverRevives(w: World, s: State, a: RefresherAction)
    requires HeapOk(s.heap) && RefresherReady(s, a) && RefresherFits(s, a)
    ensures NoRevival(s.heap, RefresherHeap(w, s, a))
    ensures !a.Exchange? ==> RefresherHeap(w, s, a).current == s.heap.current
  {
    if a.ReleaseOld? {
      ReleaseNeverRevives(s.heap, REFRESHER);
    }
  }

  lemma MainNeverRevives(w: World, s: State, a: MainAction)
    requires HeapOk(s.heap) && MainReady(s, a) && MainFits(s, a)
    ensures NoRevival(s.heap, MainStep(w, s, a).heap)
  {
    if a.ReleaseCurrent? {
      ReleaseNeverRevives(s.heap, MAIN);
    }
  }

  /** A count that reached zero never rises again, whatever step any thread takes. */
  lemma NeverRevived(w: World, s: State, a: Action)
    requires HeapOk(s.heap) && Ready(s, a) && Fits(s, a)
    ensures NoRevival(s.heap, Next(w, s, a).heap)
  {
    if a.OfSender? {
      SenderNeverRevives(s, a.i, a.sender);
    } else if a.OfRefresher? {
      RefresherNeverRevives(w, s, a.refresher);
    } else if a.OfMain? {
      MainNeverRevives(w, s, a.main);
    }
  }

  lemma {:induction false} RunNeverRevives(w: World, s: State, run: seq<Action>)
    requires Inv(w, s) && CanRun(w, s, run)
    ensures NoRevival(s.heap, Final(w, s, run).heap)
    decreases |run|
  {
    if run != [] {
      NeverRevived(w, s, run[0]);
      StepKeeps(w, s, run[0]);
      RunNeverRevives(w, Next(w, s, run[0]), run[1..]);
    }
  }

  /** Nor does it in any continuation of any run. */
  lemma NeverRevivedInAnyRun(w: World, s: State, run: seq<Action>)
    requires Reachable(w, s) && CanRun(w, s, run)
    ensures NoRevival(s.heap, Final(w, s, run).heap)
  {
    ReachableInv(w, s);
    RunNeverRevives(w, s, run);
  }

  /** An exchange adds one list, with the request it answers. */
  lemma ExchangeAdds(w: World, s: State)
    requires RefresherReady(s, Exchange) && RefresherFits(s, Exchange)
    ensures var published := RefresherStep(w, s, Exchange).published;
            && |published| == |s.published| + 1 && s.published <= published
            && published[|s.published|].request == s.refresher.request
  {}

  lemma OtherStepsPublishNothing(w: World, s: State, a: Action)
    requires HeapOk(s.heap) && Ready(s, a) && Fits(s, a) && a != OfRefresher(Exchange)
    ensures Next(w, s, a).published == s.published
    ensures a != OfMain(DropCurrent) ==> Next(w, s, a).heap.current == s.heap.current
  {
    if a.OfSender? {
      SenderNeverRevives(s, a.i, a.sender);
    } else if a.OfRefresher? {
      RefresherNeverRevives(w, s, a.refresher);
    }
  }

  /** A step that is not a successful exchange publishes nothing: failed, empty, unallocated and
      late fetches leave the register as it was. */
  lemma OnlyExchangePublishes(w: World, s: State, a: Action)
    requires HeapOk(s.heap) && Ready(s, a) && Fits(s, a)
    ensures a != OfRefresher(Exchange) ==> Next(w, s, a).published == s.published
    ensures a != OfRefresher(Exchange) && a != OfMain(DropCurrent) ==> Next(w, s, a).heap.current == s.heap.current
    ensures a == OfRefresher(Exchange) ==>
              && |Next(w, s, a).published| == |s.published| + 1 && s.published <= Next(w, s, a).published
              && Next(w, s, a).published[|s.published|].request == s.refresher.request
  {
    if a == OfRefresher(Exchange) {
      ExchangeAdds(w, s);
    } else {
      OtherStepsPublishNothing(w, s, a);
    }
  }
}
