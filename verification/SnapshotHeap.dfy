/**
The memory behind pod_cache.c: reference-counted snapshots, the pod lists they own, the static
`current` pointer, and what each thread has in its hands. Every operation below is one atomic
section of the source: a section under `cache_mutex`, or a single `malloc` or `free` outside it.

Reading or freeing memory that was freed already is not ruled out by a precondition: it raises
`fault`, and `HeapOk` says that it never happens.
*/
module SnapshotHeap {
  import opened Prelude
  import opened Staleness

  type Ptr = nat

  /** What a thread must still give back. */
  datatype Hold =
    | Nothing
    | Fetched(list: Ptr)      // a fetched list that no snapshot owns yet
    | Ref(snap: Ptr)          // one reference: acquired, just created, or swapped out of `current`
    | FreeingList(snap: Ptr)  // took the count to zero, `pod_list_free` comes next
    | FreeingSnap(snap: Ptr)  // list freed, `free(snapshot)` comes next

  /** `frees` counts the calls of `free` on the block. */
  datatype Snap = Snap(refs: int, receivedAt: int, list: Ptr, frees: nat)

  datatype ListBlock = ListBlock(ips: seq<string>, frees: nat)

  /** Blocks are never reused, so a pointer is the identity of one allocation. */
  datatype Heap = Heap(
    current: Option<Ptr>,
    snaps: seq<Snap>,
    lists: seq<ListBlock>,
    holds: seq<Hold>,
    fault: bool)

  const EMPTY_HEAP := Heap(None, [], [], [], false)

  // ---------- Well-formed pointers ----------

  ghost predicate HoldInRange(h: Heap, x: Hold) {
    match x
    case Nothing => true
    case Fetched(l) => l < |h.lists|
    case Ref(p) => p < |h.snaps|
    case FreeingList(p) => p < |h.snaps|
    case FreeingSnap(p) => p < |h.snaps|
  }

  ghost predicate WellFormed(h: Heap) {
    && (h.current.Some? ==> h.current.value < |h.snaps|)
    && (forall p :: 0 <= p < |h.snaps| ==> h.snaps[p].list < |h.lists|)
    && (forall t :: 0 <= t < |h.holds| ==> HoldInRange(h, h.holds[t]))
  }

  /** `t` is a thread of the heap and holds `x`. */
  ghost predicate Holds(h: Heap, t: nat, x: Hold) {
    WellFormed(h) && t < |h.holds| && h.holds[t] == x
  }

  /** What a reader of `current` sees. */
  ghost function Current(h: Heap): Option<Held>
    requires WellFormed(h)
  {
    if h.current.None? then None
    else
      var s := h.snaps[h.current.value];
      Some(Held(|h.lists[s.list].ips|, s.receivedAt))
  }

  // ---------- The atomic operations ----------

  /** pod_list_fetch hands its caller a new list. */
  ghost function Fetch(h: Heap, t: nat, ips: seq<string>): Heap
    requires Holds(h, t, Nothing)
  {
    h.(lists := h.lists + [ListBlock(ips, 0)], holds := h.holds[t := Fetched(|h.lists|)])
  }

  ghost function FreeListBlock(h: Heap, l: Ptr): Heap
    requires l < |h.lists|
  {
    h.(lists := h.lists[l := h.lists[l].(frees := h.lists[l].frees + 1)],
       fault := h.fault || h.lists[l].frees > 0)
  }

  /** pod_list_free on a list that was never published. */
  ghost function DropList(h: Heap, t: nat, l: Ptr): Heap
    requires Holds(h, t, Fetched(l))
  {
    FreeListBlock(h, l).(holds := h.holds[t := Nothing])
  }

  /** publish up to the lock: allocate the snapshot and fill it in. */
  ghost function NewSnapshot(h: Heap, t: nat, l: Ptr, now: int): Heap
    requires Holds(h, t, Fetched(l))
  {
    h.(snaps := h.snaps + [Snap(1, now, l, 0)], holds := h.holds[t := Ref(|h.snaps|)])
  }

  /** The locked exchange of publish (holding a new snapshot) and of pod_cache_stop (holding NULL). */
  ghost function Swap(h: Heap, t: nat): Heap
    requires t < |h.holds| && (h.holds[t].Nothing? || h.holds[t].Ref?)
  {
    h.(current := if h.holds[t].Ref? then Some(h.holds[t].snap) else None,
       holds := h.holds[t := if h.current.Some? then Ref(h.current.value) else Nothing])
  }

  /** pod_cache_acquire. */
  ghost function Acquire(h: Heap, t: nat, now: int, maxAge: int): Heap
    requires Holds(h, t, Nothing)
  {
    if h.current.None? then h
    else
      var p := h.current.value;
      var s := h.snaps[p];
      var h1 := h.(fault := h.fault || s.frees > 0);
      if TooOld(s.receivedAt, now, maxAge) then h1
      else h1.(snaps := h.snaps[p := s.(refs := s.refs + 1)], holds := h.holds[t := Ref(p)])
  }

  /** The locked decrement of pod_cache_release. */
  ghost function Decrement(h: Heap, t: nat, p: Ptr): Heap
    requires Holds(h, t, Ref(p))
  {
    var s := h.snaps[p];
    h.(snaps := h.snaps[p := s.(refs := s.refs - 1)],
       holds := h.holds[t := if s.refs - 1 == 0 then FreeingList(p) else Nothing],
       fault := h.fault || s.frees > 0)
  }

  /** free_snapshot, first half. */
  ghost function FreePods(h: Heap, t: nat, p: Ptr): Heap
    requires Holds(h, t, FreeingList(p))
  {
    var h1 := FreeListBlock(h, h.snaps[p].list);
    h1.(holds := h.holds[t := FreeingSnap(p)], fault := h1.fault || h.snaps[p].frees > 0)
  }

  /** free_snapshot, second half. */
  ghost function FreeSnapshot(h: Heap, t: nat, p: Ptr): Heap
    requires Holds(h, t, FreeingSnap(p))
  {
    var s := h.snaps[p];
    h.(snaps := h.snaps[p := s.(frees := s.frees + 1)],
       holds := h.holds[t := Nothing],
       fault := h.fault || s.frees > 0)
  }

  /** A reader dereferences its snapshot and the list inside it. */
  ghost function Read(h: Heap, t: nat, p: Ptr): Heap
    requires Holds(h, t, Ref(p))
  {
    h.(fault := h.fault || h.snaps[p].frees > 0 || h.lists[h.snaps[p].list].frees > 0)
  }

  /** The thread that fetched a list dereferences it. */
  ghost function ReadList(h: Heap, t: nat, l: Ptr): Heap
    requires Holds(h, t, Fetched(l))
  {
    h.(fault := h.fault || h.lists[l].frees > 0)
  }

  /** describe_current dereferences `current` under the lock. */
  ghost function ReadCurrent(h: Heap): Heap
    requires WellFormed(h)
  {
    if h.current.None? then h
    else
      var s := h.snaps[h.current.value];
      h.(fault := h.fault || s.frees > 0 || h.lists[s.list].frees > 0)
  }

  /** A new thread starts with empty hands. */
  ghost function AddThread(h: Heap): Heap {
    h.(holds := h.holds + [Nothing])
  }

  // ---------- The invariant ----------

  /** How many threads hold exactly `x`. */
  ghost function Holders(h: Heap, x: Hold): nat {
    multiset(h.holds)[x]
  }

  ghost function Freeing(h: Heap, p: Ptr): nat {
    Holders(h, FreeingList(p)) + Holders(h, FreeingSnap(p))
  }

  /** The references that exist: the one of `current`, and one for each thread holding one. */
  ghost function References(h: Heap, p: Ptr): nat {
    (if h.current == Some(p) then 1 else 0) + Holders(h, Ref(p))
  }

  /** Unfreed: the count is exact, and one thread is freeing it precisely when the count is zero.
      Freed: once, and nobody can reach it. */
  ghost predicate SnapOk(h: Heap, p: Ptr)
    requires p < |h.snaps|
  {
    var s := h.snaps[p];
    && s.frees <= 1
    && (s.frees == 0 ==>
          && s.refs == References(h, p)
          && Freeing(h, p) == (if s.refs == 0 then 1 else 0))
    && (s.frees == 1 ==> References(h, p) == 0 && Freeing(h, p) == 0)
  }

  /** A snapshot's list is unfreed up to the first half of free_snapshot, and no other snapshot
      or thread has it. */
  ghost predicate SnapListOk(h: Heap, p: Ptr)
    requires WellFormed(h) && p < |h.snaps|
  {
    var l := h.snaps[p].list;
    && h.lists[l].frees == (if h.snaps[p].frees == 0 && Holders(h, FreeingSnap(p)) == 0 then 0 else 1)
    && Holders(h, Fetched(l)) == 0
    && forall q :: 0 <= q < |h.snaps| && q != p ==> h.snaps[q].list != l
  }

  ghost predicate Owned(h: Heap, l: Ptr) {
    exists p :: 0 <= p < |h.snaps| && h.snaps[p].list == l
  }

  /** A list without a snapshot is unfreed precisely while one thread has just fetched it. */
  ghost predicate LooseListOk(h: Heap, l: Ptr)
    requires l < |h.lists|
  {
    !Owned(h, l) ==> h.lists[l].frees <= 1 && Holders(h, Fetched(l)) == 1 - h.lists[l].frees
  }

  ghost predicate HeapOk(h: Heap) {
    && WellFormed(h)
    && !h.fault
    && (forall p :: 0 <= p < |h.snaps| ==> SnapOk(h, p))
    && (forall p :: 0 <= p < |h.snaps| ==> SnapListOk(h, p))
    && (forall l :: 0 <= l < |h.lists| ==> LooseListOk(h, l))
  }
}
