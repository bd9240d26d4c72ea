/** Every step of a sender keeps the invariant. */
module BrokerSenders {
  import opened Prelude
  import opened SnapshotHeap
  import opened HeapProofs
  import opened Broker
  import opened BrokerInvariant

  /** The rest of the module does not notice a sender that moves in order. */
  lemma SenderMoves(w: World, s: State, s': State, i: nat)
    requires Inv(w, s) && i < |s.senders| && !s.senders[i].pc.Exited?
    requires |s'.senders| == |s.senders|
    requires s' == s.(heap := s'.heap, senders := s'.senders)
    requires forall j :: 0 <= j < |s.senders| && j != i ==> s'.senders[j] == s.senders[j]
    requires HeapOk(s'.heap) && HeapFrame(s.heap, s'.heap, Place(i))
    requires |s'.heap.holds| == |s.heap.holds| && s'.heap.current == s.heap.current
    requires |s'.heap.lists| == |s.heap.lists|
    requires SenderOk(w, s', i)
    ensures Inv(w, s')
  {
    RegisterKept(w, s, s', Place(i));
    RefresherKept(w, s, s', Place(i));
    MainKept(s, s');
    forall j | 0 <= j < |s'.senders|
      ensures SenderOk(w, s', j)
    {
      if j != i {
        assert SenderOk(w, s, j);
        SenderKept(w, s, s', Place(i), j);
      }
    }
  }

  /** Sender `i` is in order, and the heap well formed: what its own steps rely on. */
  ghost predicate Local(w: World, s: State, i: nat) {
    && i < |s.senders| && |s.heap.holds| == |s.senders| + 2
    && WellFormed(s.heap)
    && SenderOk(w, s, i)
  }

  /** The completed passes stay in order when none is added. */
  lemma PassesKept(w: World, s: State, s': State, x: Sender, x': Sender)
    requires PassesOk(w, s, x)
    requires s'.published == s.published && s'.clock == s.clock
    requires x'.passes == x.passes && x'.born == x.born
    requires x'.wasFailing == x.wasFailing && x'.notices == x.notices
    requires (x'.closing && x'.pc in {Releasing, PassDone, Exited}) <==>
             (x.closing && x.pc in {Releasing, PassDone, Exited})
    requires x'.pc in {Releasing, PassDone, Exited} ==> x.pc in {Releasing, PassDone, Exited}
    ensures PassesOk(w, s', x')
  {}

  lemma FormatInOrder(w: World, s: State, i: nat, a: SenderAction)
    requires Local(w, s, i) && a in {FormatDown, FormatUp} && SenderReady(s, i, a)
    ensures SenderOk(w, SenderStep(w, s, i, a), i)
  {
    var s' := SenderStep(w, s, i, a);
    PassesKept(w, s, s', s.senders[i], s'.senders[i]);
  }

  lemma ReadFlagInOrder(w: World, s: State, i: nat)
    requires Local(w, s, i) && SenderReady(s, i, ReadFlag)
    ensures SenderOk(w, SenderStep(w, s, i, ReadFlag), i)
  {
    var s' := SenderStep(w, s, i, ReadFlag);
    PassesKept(w, s, s', s.senders[i], s'.senders[i]);
  }

  /** pod_cache_acquire reads the register: it hands out the last good list, unless there is none
      or it is too old. */
  lemma AcquireReadsRegister(w: World, s: State, t: nat)
    requires Holds(s.heap, t, Nothing) && RegisterOk(w, s)
    ensures var h := Acquire(s.heap, t, s.clock, s.maxAge);
            && (h.holds[t].Nothing? || (h.holds[t].Ref? && h.holds[t].snap < |s.heap.snaps|))
            && LastGood(s.maxAge, s.published, s.base, |s.published|, s.clock) ==
               (if h.holds[t].Nothing? then None
                else Some(s.heap.lists[s.heap.snaps[h.holds[t].snap].list].ips))
  {}

  lemma AcquireInOrder(w: World, s: State, i: nat)
    requires Local(w, s, i) && SenderReady(s, i, AcquireList) && SenderFits(s, i, AcquireList)
    requires RegisterOk(w, s)
    ensures SenderOk(w, SenderStep(w, s, i, AcquireList), i)
  {
    var s' := SenderStep(w, s, i, AcquireList);
    var x, x' := s.senders[i], s'.senders[i];
    PassesKept(w, s, s', x, x');
    AcquireReadsRegister(w, s, Place(i));
    assert HeapFrame(s.heap, s'.heap, Place(i));
    assert PassUnderWay(w, s', x') by {
      assert forall k :: 0 <= k < |x.passes| ==> PassOk(w, s.published, x.born, x.passes[k]);
    }
  }

  lemma MissesNext(delivered: seq<bool>, ok: bool)
    ensures Misses(delivered + [ok]) == Misses(delivered) + if ok then 0 else 1
  {
    assert (delivered + [ok])[..|delivered|] == delivered;
  }

  lemma SendInOrder(w: World, s: State, i: nat, ok: bool)
    requires Local(w, s, i) && SenderReady(s, i, Send(ok)) && SenderFits(s, i, Send(ok))
    ensures SenderOk(w, SenderStep(w, s, i, Send(ok)), i)
  {
    var s' := SenderStep(w, s, i, Send(ok));
    PassesKept(w, s, s', s.senders[i], s'.senders[i]);
    var target, x := Target(s.heap, s.senders[i]), s.senders[i];
    assert Target(s'.heap, s'.senders[i]) == target;
    assert target[..x.i + 1] == target[..x.i] + [target[x.i]];
    MissesNext(x.pass.delivered, ok);
  }

  lemma NoticedNext(passes: seq<Pass>, p: Pass)
    ensures Noticed(passes + [p]) ==
            var (failing, notices) := Noticed(passes);
            if p.got.None? then (failing, notices)
            else if p.failed > 0 && !failing then (true, notices + [Failing(p.failed, |p.got.value|)])
            else if p.failed == 0 && failing then (false, notices + [DeliveredAgain])
            else (failing, notices)
  {
    assert (passes + [p])[..|passes|] == passes;
  }

  /** A pass that saw no older register and no earlier instant than the ones before it joins them. */
  lemma OrderGrows(passes: seq<Pass>, p: Pass)
    requires forall j, k :: 0 <= j < k < |passes| ==> passes[j].seen <= passes[k].seen && passes[j].at <= passes[k].at
    requires forall k :: 0 <= k < |passes| ==> passes[k].seen <= p.seen && passes[k].at <= p.at
    ensures var all := passes + [p];
            forall j, k :: 0 <= j < k < |all| ==> all[j].seen <= all[k].seen && all[j].at <= all[k].at
  {}

  /** A completed pass joins the others in order. */
  lemma PassesGrow(w: World, s: State, s': State, x: Sender, x': Sender)
    requires PassesOk(w, s, x) && PassUnderWay(w, s, x) && x.pc.Sending? && x.i == |Target(s.heap, x)|
    requires s'.published == s.published && s'.clock == s.clock
    requires x'.pc.Releasing? && x'.born == x.born && x'.closing == x.closing
    requires x'.passes == x.passes + [x.pass]
    requires (x'.wasFailing, x'.notices) == Noticed(x'.passes)
    ensures PassesOk(w, s', x')
  {
    assert PassOk(w, s.published, x.born, x.pass);
    assert forall k :: 0 <= k < |x.passes| ==> !x.passes[k].down;
    OrderGrows(x.passes, x.pass);
  }

  lemma ReportInOrder(w: World, s: State, i: nat)
    requires Local(w, s, i) && SenderReady(s, i, Report) && SenderFits(s, i, Report)
    ensures SenderOk(w, SenderStep(w, s, i, Report), i)
  {
    var s' := SenderStep(w, s, i, Report);
    NoticedNext(s.senders[i].passes, s.senders[i].pass);
    PassesGrow(w, s, s', s.senders[i], s'.senders[i]);
  }

  lemma ReleaseStepKeeps(h: Heap, t: nat)
    requires HeapOk(h) && CanRelease(h, t)
    ensures HeapOk(ReleaseStep(h, t))
    ensures HeapFrame(h, ReleaseStep(h, t), t)
    ensures ReleaseStep(h, t).current == h.current
    ensures |ReleaseStep(h, t).holds| == |h.holds| && |ReleaseStep(h, t).lists| == |h.lists|
    ensures !ReleaseStep(h, t).holds[t].Fetched?
  {
    match h.holds[t]
    case Ref(p) => DecrementKeeps(h, t, p);
    case FreeingList(p) => FreePodsKeeps(h, t, p);
    case FreeingSnap(p) => FreeSnapshotKeeps(h, t, p);
    case Nothing =>
  }

  lemma ReleaseInOrder(w: World, s: State, i: nat)
    requires Local(w, s, i) && SenderReady(s, i, ReleaseSnapshot) && SenderFits(s, i, ReleaseSnapshot)
    requires HeapOk(s.heap)
    ensures SenderOk(w, SenderStep(w, s, i, ReleaseSnapshot), i)
  {
    var s' := SenderStep(w, s, i, ReleaseSnapshot);
    ReleaseStepKeeps(s.heap, Place(i));
    PassesKept(w, s, s', s.senders[i], s'.senders[i]);
  }

  lemma EndPassInOrder(w: World, s: State, i: nat)
    requires Local(w, s, i) && SenderReady(s, i, EndPass)
    ensures SenderOk(w, SenderStep(w, s, i, EndPass), i)
  {
    var s' := SenderStep(w, s, i, EndPass);
    PassesKept(w, s, s', s.senders[i], s'.senders[i]);
  }

  lemma WakeUpInOrder(w: World, s: State, i: nat)
    requires Local(w, s, i) && SenderReady(s, i, WakeUp)
    ensures SenderOk(w, SenderStep(w, s, i, WakeUp), i)
  {
    var s' := SenderStep(w, s, i, WakeUp);
    PassesKept(w, s, s', s.senders[i], s'.senders[i]);
  }

  lemma StepInOrder(w: World, s: State, i: nat, a: SenderAction)
    requires Local(w, s, i) && RegisterOk(w, s) && HeapOk(s.heap)
    requires SenderReady(s, i, a) && SenderFits(s, i, a)
    ensures SenderOk(w, SenderStep(w, s, i, a), i)
  {
    match a
    case FormatDown => FormatInOrder(w, s, i, a);
    case FormatUp => FormatInOrder(w, s, i, a);
    case ReadFlag => ReadFlagInOrder(w, s, i);
    case AcquireList => AcquireInOrder(w, s, i);
    case Send(ok) => SendInOrder(w, s, i, ok);
    case Report => ReportInOrder(w, s, i);
    case ReleaseSnapshot => ReleaseInOrder(w, s, i);
    case EndPass => EndPassInOrder(w, s, i);
    case WakeUp => WakeUpInOrder(w, s, i);
  }

  lemma StepKeepsHeap(s: State, i: nat, a: SenderAction)
    requires HeapOk(s.heap) && |s.heap.holds| == |s.senders| + 2
    requires SenderReady(s, i, a) && SenderFits(s, i, a)
    ensures var h' := SenderHeap(s, i, a);
            && HeapOk(h') && HeapFrame(s.heap, h', Place(i))
            && h'.current == s.heap.current && |h'.lists| == |s.heap.lists|
  {
    match a
    case AcquireList => AcquireKeeps(s.heap, Place(i), s.clock, s.maxAge);
    case Send(ok) => ReadKeeps(s.heap, Place(i), s.senders[i].snapshot.value);
    case Report =>
      if s.senders[i].snapshot.Some? {
        ReadKeeps(s.heap, Place(i), s.senders[i].snapshot.value);
      }
    case ReleaseSnapshot => ReleaseStepKeeps(s.heap, Place(i));
    case _ =>
  }

  /** A failing pass has a snapshot, so the warning never dereferences NULL. */
  lemma WarningHasSnapshot(w: World, s: State, i: nat)
    requires Local(w, s, i) && s.senders[i].pc.Sending? && StartsFailing(s.senders[i])
    ensures s.senders[i].snapshot.Some?
  {}

  lemma SenderStepKeeps(w: World, s: State, i: nat, a: SenderAction)
    requires Inv(w, s) && SenderReady(s, i, a) && SenderFits(s, i, a)
    ensures Inv(w, SenderStep(w, s, i, a))
  {
    assert Local(w, s, i);
    StepInOrder(w, s, i, a);
    StepKeepsHeap(s, i, a);
    if a.Report? && StartsFailing(s.senders[i]) {
      WarningHasSnapshot(w, s, i);
    }
    SenderMoves(w, s, SenderStep(w, s, i, a), i);
  }
}
