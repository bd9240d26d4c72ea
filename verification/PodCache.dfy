/**
pod_cache.c as its callers see it, one whole call at a time: `current` and the memory behind it are
fields, and each method does in order what the functions of the source do. That another thread runs
between two of those steps is the matter of module Broker.
*/
module PodCache {
  import opened Prelude
  import opened Staleness
  import opened SnapshotHeap
  import opened HeapProofs

  class Cache {
    var current: Option<Ptr>
    var snaps: seq<Snap>
    var lists: seq<ListBlock>
    var maxAge: int
    ghost var holds: seq<Hold>
    ghost var fault: bool

    constructor (maxAge: int)
      ensures Valid() && current == None && snaps == [] && lists == [] && holds == [] && this.maxAge == maxAge
    {
      current, snaps, lists, holds, fault := None, [], [], [], false;
      this.maxAge := maxAge;
      new;
      EmptyInv();
    }

    ghost function View(): Heap
      reads this
    {
      Heap(current, snaps, lists, holds, fault)
    }

    /** Counts are exact, nothing freed can be reached, nothing was freed twice. */
    ghost predicate Valid()
      reads this
    {
      HeapOk(View())
    }

    /** Thread `t` holds `x`. */
    ghost predicate Has(t: nat, x: Hold)
      reads this
    {
      Valid() && t < |holds| && holds[t] == x
    }

    /** free_snapshot. */
    method FreeSnapshot(ghost t: nat, p: Ptr)
      requires Has(t, FreeingList(p))
      modifies `snaps, `lists, `holds, `fault
      ensures Has(t, Nothing) && holds == old(holds)[t := Nothing]
      ensures snaps == old(snaps)[p := old(snaps)[p].(frees := 1)]
      ensures lists == old(lists)[snaps[p].list := old(lists)[snaps[p].list].(frees := 1)]
    {
      HeldIsUnfreed(View(), t, p);
      FreePodsKeeps(View(), t, p);
      ghost var half := FreePods(View(), t, p);
      var l := snaps[p].list;
      lists := lists[l := lists[l].(frees := lists[l].frees + 1)];
      holds := holds[t := FreeingSnap(p)];
      fault := half.fault;
      assert View() == half;

      FreeSnapshotKeeps(half, t, p);
      snaps := snaps[p := snaps[p].(frees := snaps[p].frees + 1)];
      holds := holds[t := Nothing];
      fault := SnapshotHeap.FreeSnapshot(half, t, p).fault;
      assert View() == SnapshotHeap.FreeSnapshot(half, t, p);
      assert holds == old(holds)[t := Nothing];
    }

    /** pod_cache_release: the last reference takes the snapshot and its list along, any other one
        only lowers the count. */
    method Release(ghost t: nat, snapshot: Option<Ptr>)
      requires Has(t, if snapshot.Some? then Ref(snapshot.value) else Nothing)
      modifies `snaps, `lists, `holds, `fault
      ensures Has(t, Nothing) && holds == old(holds)[t := Nothing]
      ensures snapshot.None? ==> snaps == old(snaps) && lists == old(lists)
      ensures snapshot.Some? ==>
                var p, s := snapshot.value, old(snaps)[snapshot.value];
                && snaps == old(snaps)[p := s.(refs := s.refs - 1, frees := if s.refs == 1 then 1 else 0)]
                && lists == if s.refs == 1 then old(lists)[s.list := old(lists)[s.list].(frees := 1)] else old(lists)
    {
      if snapshot.None? {
        assert holds == holds[t := Nothing];
        return;
      }
      var p := snapshot.value;
      ghost var before := View();
      HeldIsUnfreed(before, t, p);
      DecrementKeeps(before, t, p);
      snaps := snaps[p := snaps[p].(refs := snaps[p].refs - 1)];
      holds := holds[t := if snaps[p].refs == 0 then FreeingList(p) else Nothing];
      assert View() == Decrement(before, t, p);
      if snaps[p].refs == 0 {
        FreeSnapshot(t, p);
      }
    }

    /** pod_cache_acquire: the list of the moment unless it is too old, with a reference of its own. */
    method Acquire(ghost t: nat, now: int) returns (snapshot: Option<Ptr>)
      requires Has(t, Nothing)
      modifies `snaps, `holds
      ensures Has(t, if snapshot.Some? then Ref(snapshot.value) else Nothing)
      ensures View() == SnapshotHeap.Acquire(old(View()), t, now, maxAge)
      ensures snapshot == if Usable(Current(old(View())), now, maxAge) then current else None
    {
      AcquireKeeps(View(), t, now, maxAge);
      ghost var after := SnapshotHeap.Acquire(View(), t, now, maxAge);
      snapshot := current;
      if snapshot.Some? && maxAge > 0 && now - snaps[snapshot.value].receivedAt > maxAge {
        snapshot := None;
      }
      if snapshot.Some? {
        var p := snapshot.value;
        CurrentIsUnfreed(View());
        snaps := snaps[p := snaps[p].(refs := snaps[p].refs + 1)];
        holds := holds[t := Ref(p)];
      }
      assert View() == after;
    }

    /** What replacing `current` does to the snapshot it replaces, whoever else still has it. */
    ghost predicate Replaced(previous: Option<Ptr>, before: seq<Snap>, listsBefore: seq<ListBlock>)
      reads this
      requires previous.Some? ==> previous.value < |before| <= |snaps| && before[previous.value].list < |listsBefore|
      requires |before| <= |snaps| && |listsBefore| == |lists|
    {
      && (forall q :: 0 <= q < |before| && Some(q) != previous ==> snaps[q] == before[q])
      && (previous.None? ==> lists == listsBefore)
      && (previous.Some? ==>
            var s := before[previous.value];
            && snaps[previous.value] == s.(refs := s.refs - 1, frees := if s.refs == 1 then 1 else 0)
            && lists == if s.refs == 1 then listsBefore[s.list := listsBefore[s.list].(frees := 1)] else listsBefore)
    }

    /** The locked exchange, and the release of what was current. */
    method Exchange(ghost t: nat, snapshot: Option<Ptr>)
      requires Has(t, if snapshot.Some? then Ref(snapshot.value) else Nothing)
      requires snapshot.Some? ==> snapshot != current
      modifies `current, `snaps, `lists, `holds, `fault
      ensures Has(t, Nothing) && holds == old(holds)[t := Nothing]
      ensures current == snapshot
      ensures |snaps| == |old(snaps)| && |lists| == |old(lists)|
      ensures Replaced(old(current), old(snaps), old(lists))
    {
      SwapKeeps(View(), t);
      ghost var after := Swap(View(), t);
      var previous := current;
      current := snapshot;
      holds := holds[t := if previous.Some? then Ref(previous.value) else Nothing];
      assert View() == after;
      Release(t, previous);
      assert holds == old(holds)[t := Nothing];
    }

    /** publish: readers that still hold the old list keep it. */
    method Publish(ghost t: nat, pods: Ptr, now: int, hasMemory: bool) returns (ok: bool)
      requires Has(t, Fetched(pods))
      modifies `current, `snaps, `lists, `holds, `fault
      ensures Has(t, Nothing) && holds == old(holds)[t := Nothing] && ok == hasMemory
      ensures |lists| == |old(lists)|
      ensures !ok ==>
                && current == old(current) && snaps == old(snaps)
                && lists == old(lists)[pods := old(lists)[pods].(frees := 1)]
      ensures ok ==>
                && |snaps| == |old(snaps)| + 1 && current == Some(|old(snaps)|)
                && snaps[|old(snaps)|] == Snap(1, now, pods, 0)
                && Replaced(old(current), old(snaps), old(lists))
    {
      if !hasMemory {
        DropListKeeps(View(), t, pods);
        ReadListKeeps(View(), t, pods);
        ghost var after := DropList(View(), t, pods);
        lists := lists[pods := lists[pods].(frees := lists[pods].frees + 1)];
        holds := holds[t := Nothing];
        fault := after.fault;
        assert View() == after;
        return false;
      }
      NewSnapshotKeeps(View(), t, pods, now);
      ghost var after := NewSnapshot(View(), t, pods, now);
      var snapshot := |snaps|;
      snaps := snaps + [Snap(1, now, pods, 0)];
      holds := holds[t := Ref(snapshot)];
      assert View() == after;
      Exchange(t, Some(snapshot));
      ok := true;
    }

    /** The end of pod_cache_stop, after the join: the list goes, unless a reader still has it. */
    method Stop(ghost t: nat)
      requires Has(t, Nothing)
      modifies `current, `snaps, `lists, `holds, `fault
      ensures Has(t, Nothing) && holds == old(holds) && current == None
      ensures |snaps| == |old(snaps)| && |lists| == |old(lists)|
      ensures Replaced(old(current), old(snaps), old(lists))
    {
      Exchange(t, None);
      assert holds == old(holds);
    }

    /** describe_current. */
    method DescribeCurrent(now: int) returns (count: nat, age: int)
      requires Valid()
      ensures (count, age) == Describe(Current(View()), now)
    {
      count, age := 0, 0;
      if current.Some? {
        var s := snaps[current.value];
        count := |lists[s.list].ips|;
        age := now - s.receivedAt;
      }
    }

    /** is_expired: the list that pod_cache_acquire refuses is the one this calls expired, as long as
        no empty list was published. */
    method IsExpired(now: int) returns (expired: bool)
      requires Valid()
      ensures expired <==> Staleness.IsExpired(Current(View()), now, maxAge)
      ensures current.Some? && lists[snaps[current.value].list].ips != [] ==>
                (expired <==> !Usable(Current(View()), now, maxAge))
    {
      if maxAge <= 0 {
        return false;
      }
      var count, age := DescribeCurrent(now);
      expired := count != 0 && age > maxAge;
    }
  }
}
