/** Every atomic operation keeps the invariant of the snapshot heap. */
module HeapProofs {
  import opened SnapshotHeap

  /** How one thread changing hands changes the number of holders. */
  lemma HoldersUpdate(holds: seq<Hold>, t: nat, x: Hold, y: Hold)
    requires t < |holds|
    ensures multiset(holds[t := x])[y] ==
            multiset(holds)[y] - (if holds[t] == y then 1 else 0) + (if x == y then 1 else 0)
  {
    assert holds == holds[..t] + [holds[t]] + holds[t + 1..];
    assert holds[t := x] == holds[..t] + [x] + holds[t + 1..];
  }

  lemma HoldersUpdateAll(holds: seq<Hold>, t: nat, x: Hold)
    requires t < |holds|
    ensures forall y :: multiset(holds[t := x])[y] ==
                        multiset(holds)[y] - (if holds[t] == y then 1 else 0) + (if x == y then 1 else 0)
  {
    forall y {
      HoldersUpdate(holds, t, x, y);
    }
  }

  /** A holder is counted. */
  lemma HolderCounted(h: Heap, t: nat)
    requires t < |h.holds|
    ensures Holders(h, h.holds[t]) > 0
  {
    assert h.holds[t] in multiset(h.holds);
  }

  /** Nobody holds a block that was not allocated yet. */
  lemma FreshIsUnheld(h: Heap, x: Hold)
    requires WellFormed(h) && !HoldInRange(h, x)
    ensures Holders(h, x) == 0
  {
    assert forall u :: 0 <= u < |h.holds| ==> HoldInRange(h, h.holds[u]);
    assert x !in h.holds;
  }

  /** A thread that holds a reference, or frees, has the snapshot and its list unfreed. */
  lemma HeldIsUnfreed(h: Heap, t: nat, p: Ptr)
    requires HeapOk(h) && t < |h.holds| && p < |h.snaps|
    requires h.holds[t] in {Ref(p), FreeingList(p), FreeingSnap(p)}
    ensures h.snaps[p].frees == 0
    ensures h.holds[t] != FreeingSnap(p) ==> h.lists[h.snaps[p].list].frees == 0
    ensures h.holds[t] == Ref(p) ==> h.snaps[p].refs > 0
    ensures h.holds[t] != Ref(p) ==> h.snaps[p].refs == 0
  {
    HolderCounted(h, t);
    assert SnapOk(h, p) && SnapListOk(h, p);
  }

  /** The published snapshot is unfreed, and so is its list. */
  lemma CurrentIsUnfreed(h: Heap)
    requires HeapOk(h) && h.current.Some?
    ensures h.snaps[h.current.value].frees == 0
    ensures h.lists[h.snaps[h.current.value].list].frees == 0
    ensures h.snaps[h.current.value].refs > 0
  {
    assert SnapOk(h, h.current.value) && SnapListOk(h, h.current.value);
  }

  /** A list just fetched is unfreed and belongs to no snapshot. */
  lemma FetchedIsLoose(h: Heap, t: nat, l: Ptr)
    requires HeapOk(h) && Holds(h, t, Fetched(l))
    ensures l < |h.lists| && h.lists[l].frees == 0
    ensures forall p :: 0 <= p < |h.snaps| ==> h.snaps[p].list != l
  {
    HolderCounted(h, t);
    assert HoldInRange(h, h.holds[t]);
    assert LooseListOk(h, l);
    forall p | 0 <= p < |h.snaps|
      ensures h.snaps[p].list != l
    {
      assert SnapListOk(h, p);
    }
  }

  lemma EmptyInv()
    ensures HeapOk(EMPTY_HEAP)
  {}

  lemma FetchKeeps(h: Heap, t: nat, ips: seq<string>)
    requires HeapOk(h) && Holds(h, t, Nothing)
    ensures HeapOk(Fetch(h, t, ips))
  {
    var h' := Fetch(h, t, ips);
    HoldersUpdateAll(h.holds, t, Fetched(|h.lists|));
    FreshIsUnheld(h, Fetched(|h.lists|));
    forall p | 0 <= p < |h.snaps|
      ensures SnapOk(h', p) && SnapListOk(h', p)
    {
      assert SnapOk(h, p) && SnapListOk(h, p);
    }
    forall l | 0 <= l < |h'.lists|
      ensures LooseListOk(h', l)
    {
      if l < |h.lists| {
        assert LooseListOk(h, l);
        assert Owned(h', l) == Owned(h, l);
      }
    }
  }

  lemma DropListKeeps(h: Heap, t: nat, l: Ptr)
    requires HeapOk(h) && Holds(h, t, Fetched(l))
    ensures HeapOk(DropList(h, t, l))
  {
    var h' := DropList(h, t, l);
    HoldersUpdateAll(h.holds, t, Nothing);
    HolderCounted(h, t);
    FetchedIsLoose(h, t, l);
    assert LooseListOk(h, l);
    forall p | 0 <= p < |h.snaps|
      ensures SnapOk(h', p) && SnapListOk(h', p)
    {
      assert SnapOk(h, p) && SnapListOk(h, p);
    }
    forall k | 0 <= k < |h.lists|
      ensures LooseListOk(h, k) && LooseListOk(h', k) && Owned(h', k) == Owned(h, k)
    {
      assert LooseListOk(h, k);
    }
  }

  lemma NewSnapshotKeeps(h: Heap, t: nat, l: Ptr, now: int)
    requires HeapOk(h) && Holds(h, t, Fetched(l))
    ensures HeapOk(NewSnapshot(h, t, l, now))
  {
    var h' := NewSnapshot(h, t, l, now);
    var n := |h.snaps|;
    HoldersUpdateAll(h.holds, t, Ref(n));
    HolderCounted(h, t);
    FetchedIsLoose(h, t, l);
    assert LooseListOk(h, l);
    FreshIsUnheld(h, Ref(n));
    FreshIsUnheld(h, FreeingList(n));
    FreshIsUnheld(h, FreeingSnap(n));
    forall p | 0 <= p < |h'.snaps|
      ensures SnapOk(h', p) && SnapListOk(h', p)
    {
      if p < n {
        assert SnapOk(h, p) && SnapListOk(h, p);
      }
    }
    forall k | 0 <= k < |h.lists|
      ensures LooseListOk(h', k)
    {
      assert LooseListOk(h, k);
      if Owned(h, k) {
        var p :| 0 <= p < |h.snaps| && h.snaps[p].list == k;
        assert h'.snaps[p].list == k;
      }
      assert h'.snaps[n].list == l;
    }
  }

  /** Enough for an operation that changes neither the lists nor who owns them. */
  lemma LooseListsKeep(h: Heap, h': Heap)
    requires HeapOk(h) && WellFormed(h')
    requires h'.lists == h.lists && |h'.snaps| == |h.snaps|
    requires forall p :: 0 <= p < |h.snaps| ==> h'.snaps[p].list == h.snaps[p].list
    requires forall l :: Holders(h', Fetched(l)) == Holders(h, Fetched(l))
    ensures forall l :: 0 <= l < |h.lists| ==> LooseListOk(h', l)
  {
    forall l | 0 <= l < |h.lists|
      ensures LooseListOk(h', l)
    {
      assert LooseListOk(h, l);
      if Owned(h, l) {
        var p :| 0 <= p < |h.snaps| && h.snaps[p].list == l;
        assert h'.snaps[p].list == l;
      }
    }
  }

  /** The same for the lists that snapshots own. */
  lemma SnapListKeeps(h: Heap, h': Heap, p: Ptr)
    requires WellFormed(h) && WellFormed(h') && p < |h.snaps| && SnapListOk(h, p)
    requires h'.lists == h.lists && |h'.snaps| == |h.snaps|
    requires forall q :: 0 <= q < |h.snaps| ==> h'.snaps[q].list == h.snaps[q].list
    requires h'.snaps[p].frees == h.snaps[p].frees
    requires Holders(h', FreeingSnap(p)) == Holders(h, FreeingSnap(p))
    requires Holders(h', Fetched(h.snaps[p].list)) == Holders(h, Fetched(h.snaps[p].list))
    ensures SnapListOk(h', p)
  {
  }

  lemma SwapKeepsSnap(h: Heap, t: nat, p: Ptr)
    requires WellFormed(h) && t < |h.holds| && (h.holds[t].Nothing? || h.holds[t].Ref?)
    requires WellFormed(Swap(h, t))
    requires p < |h.snaps| && SnapOk(h, p) && SnapListOk(h, p)
    ensures SnapOk(Swap(h, t), p) && SnapListOk(Swap(h, t), p)
  {
    var h' := Swap(h, t);
    HoldersUpdate(h.holds, t, h'.holds[t], Ref(p));
    HoldersUpdate(h.holds, t, h'.holds[t], FreeingList(p));
    HoldersUpdate(h.holds, t, h'.holds[t], FreeingSnap(p));
    HoldersUpdate(h.holds, t, h'.holds[t], Fetched(h.snaps[p].list));
    SnapListKeeps(h, h', p);
  }

  lemma SwapKeeps(h: Heap, t: nat)
    requires HeapOk(h) && t < |h.holds| && (h.holds[t].Nothing? || h.holds[t].Ref?)
    ensures HeapOk(Swap(h, t))
  {
    var h' := Swap(h, t);
    assert HoldInRange(h, h.holds[t]);
    forall p | 0 <= p < |h.snaps|
      ensures SnapOk(h', p) && SnapListOk(h', p)
    {
      SwapKeepsSnap(h, t, p);
    }
    FetchersKeep(h, h', t);
    LooseListsKeep(h, h');
  }

  /** A thread that neither fetched nor fetches a list leaves the number of fetchers as it was. */
  lemma FetchersKeep(h: Heap, h': Heap, t: nat)
    requires t < |h.holds| == |h'.holds| && h'.holds == h.holds[t := h'.holds[t]]
    requires !h.holds[t].Fetched? && !h'.holds[t].Fetched?
    ensures forall l :: Holders(h', Fetched(l)) == Holders(h, Fetched(l))
  {
    forall l
      ensures Holders(h', Fetched(l)) == Holders(h, Fetched(l))
    {
      HoldersUpdate(h.holds, t, h'.holds[t], Fetched(l));
    }
  }

  lemma AcquireKeepsSnap(h: Heap, t: nat, now: int, maxAge: int, p: Ptr)
    requires Holds(h, t, Nothing) && h.current.Some? && h.snaps[h.current.value].frees == 0
    requires h.snaps[h.current.value].refs > 0
    requires p < |h.snaps| && SnapOk(h, p) && SnapListOk(h, p)
    ensures WellFormed(Acquire(h, t, now, maxAge))
    ensures SnapOk(Acquire(h, t, now, maxAge), p) && SnapListOk(Acquire(h, t, now, maxAge), p)
  {
    var h' := Acquire(h, t, now, maxAge);
    HoldersUpdate(h.holds, t, h'.holds[t], Ref(p));
    HoldersUpdate(h.holds, t, h'.holds[t], FreeingList(p));
    HoldersUpdate(h.holds, t, h'.holds[t], FreeingSnap(p));
    HoldersUpdate(h.holds, t, h'.holds[t], Fetched(h.snaps[p].list));
    SnapListKeeps(h, h', p);
  }

  lemma AcquireKeeps(h: Heap, t: nat, now: int, maxAge: int)
    requires HeapOk(h) && Holds(h, t, Nothing)
    ensures HeapOk(Acquire(h, t, now, maxAge))
  {
    var h' := Acquire(h, t, now, maxAge);
    if h.current.Some? {
      CurrentIsUnfreed(h);
      forall p | 0 <= p < |h.snaps|
        ensures SnapOk(h', p) && SnapListOk(h', p)
      {
        AcquireKeepsSnap(h, t, now, maxAge, p);
      }
      FetchersKeep(h, h', t);
      LooseListsKeep(h, h');
    }
  }

  lemma DecrementKeeps(h: Heap, t: nat, p: Ptr)
    requires HeapOk(h) && Holds(h, t, Ref(p))
    ensures HeapOk(Decrement(h, t, p))
  {
    var h' := Decrement(h, t, p);
    HoldersUpdateAll(h.holds, t, h'.holds[t]);
    assert HoldInRange(h, h.holds[t]);
    HeldIsUnfreed(h, t, p);
    HolderCounted(h, t);
    forall q | 0 <= q < |h.snaps|
      ensures SnapOk(h', q) && SnapListOk(h', q)
    {
      assert SnapOk(h, q) && SnapListOk(h, q);
    }
    LooseListsKeep(h, h');
  }

  lemma FreePodsKeeps(h: Heap, t: nat, p: Ptr)
    requires HeapOk(h) && Holds(h, t, FreeingList(p))
    ensures HeapOk(FreePods(h, t, p))
  {
    var h' := FreePods(h, t, p);
    HoldersUpdateAll(h.holds, t, h'.holds[t]);
    assert HoldInRange(h, h.holds[t]);
    HeldIsUnfreed(h, t, p);
    HolderCounted(h, t);
    assert SnapOk(h, p) && SnapListOk(h, p);
    forall q | 0 <= q < |h.snaps|
      ensures SnapOk(h', q) && SnapListOk(h', q)
    {
      assert SnapOk(h, q) && SnapListOk(h, q);
    }
    forall l | 0 <= l < |h.lists|
      ensures LooseListOk(h', l)
    {
      assert LooseListOk(h, l);
      assert h'.snaps[p].list == h.snaps[p].list;
      assert Owned(h', l) == Owned(h, l);
    }
  }

  lemma FreeSnapshotKeeps(h: Heap, t: nat, p: Ptr)
    requires HeapOk(h) && Holds(h, t, FreeingSnap(p))
    ensures HeapOk(FreeSnapshot(h, t, p))
  {
    var h' := FreeSnapshot(h, t, p);
    HoldersUpdateAll(h.holds, t, h'.holds[t]);
    assert HoldInRange(h, h.holds[t]);
    HeldIsUnfreed(h, t, p);
    HolderCounted(h, t);
    forall q | 0 <= q < |h.snaps|
      ensures SnapOk(h', q) && SnapListOk(h', q)
    {
      assert SnapOk(h, q) && SnapListOk(h, q);
    }
    LooseListsKeep(h, h');
  }

  lemma ReadKeeps(h: Heap, t: nat, p: Ptr)
    requires HeapOk(h) && Holds(h, t, Ref(p))
    ensures Read(h, t, p) == h
  {
    assert HoldInRange(h, h.holds[t]);
    HeldIsUnfreed(h, t, p);
  }

  lemma ReadCurrentKeeps(h: Heap)
    requires HeapOk(h)
    ensures ReadCurrent(h) == h
  {
    if h.current.Some? {
      CurrentIsUnfreed(h);
    }
  }

  lemma ReadListKeeps(h: Heap, t: nat, l: Ptr)
    requires HeapOk(h) && Holds(h, t, Fetched(l))
    ensures ReadList(h, t, l) == h
  {
    FetchedIsLoose(h, t, l);
  }

  lemma AddThreadKeeps(h: Heap)
    requires HeapOk(h)
    ensures HeapOk(AddThread(h))
  {
    var h' := AddThread(h);
    assert forall x :: Holders(h', x) == Holders(h, x) + (if x == Nothing then 1 else 0);
    forall p | 0 <= p < |h.snaps|
      ensures SnapOk(h', p) && SnapListOk(h', p)
    {
      assert SnapOk(h, p) && SnapListOk(h, p);
    }
    LooseListsKeep(h, h');
  }

  /** No leak: once `current` is dropped and every hand is empty, each block was freed exactly once. */
  lemma NoLeak(h: Heap)
    requires HeapOk(h) && h.current.None?
    requires forall t :: 0 <= t < |h.holds| ==> h.holds[t].Nothing?
    ensures forall p :: 0 <= p < |h.snaps| ==> h.snaps[p].frees == 1
    ensures forall l :: 0 <= l < |h.lists| ==> h.lists[l].frees == 1
  {
    assert forall x: Hold :: !x.Nothing? ==> Holders(h, x) == 0;
    forall p | 0 <= p < |h.snaps|
      ensures h.snaps[p].frees == 1 && h.lists[h.snaps[p].list].frees == 1
    {
      assert SnapOk(h, p) && SnapListOk(h, p);
    }
    forall l | 0 <= l < |h.lists|
      ensures h.lists[l].frees == 1
    {
      assert LooseListOk(h, l);
    }
  }
}
