/** What holds in every state the module can get into. */
module BrokerInvariant {
  import opened Prelude
  import opened Staleness
  import opened SnapshotHeap
  import opened Broker
  import RefreshLoop
  import PodList
  import Patterns

  // ---------- The register ----------

  /** The last good response: what a reader at instant `at` gets when `seen` lists had been
      published, the first `born` of them before this load. */
  ghost function LastGood(maxAge: int, published: seq<Publication>, born: nat, seen: nat, at: int): Option<seq<string>>
    requires seen <= |published|
  {
    if seen <= born then None
    else
      var p := published[seen - 1];
      if TooOld(p.receivedAt, at, maxAge) then None else Some(p.ips)
  }

  /** `current` is the latest published list, every published list came out of a complete HTTP 200
      answer and is not empty, and stamps never go back. */
  ghost predicate RegisterOk(w: World, s: State)
    requires WellFormed(s.heap)
  {
    && s.base <= |s.published|
    && (s.heap.current.None? <==> s.base == |s.published|)
    && (s.heap.current.Some? ==>
          var snap := s.heap.snaps[s.heap.current.value];
          var last := s.published[|s.published| - 1];
          last.ips == s.heap.lists[snap.list].ips && last.receivedAt == snap.receivedAt)
    && (forall k :: 0 <= k < |s.published| ==> PublicationOk(w, s, s.published[k]))
    && (forall j, k :: 0 <= j < k < |s.published| ==> s.published[j].receivedAt <= s.published[k].receivedAt)
    && (forall l :: 0 <= l < |s.heap.lists| ==> |s.heap.lists[l].ips| <= PodList.MAX_PODS)
  }

  ghost predicate PublicationOk(w: World, s: State, p: Publication) {
    && p.ips != []
    && w.answer(p.request) == Some(p.ips)
    && p.receivedAt <= s.clock
  }

  // ---------- Senders ----------

  /** What a pass got is the register at its instant. */
  ghost predicate PassSaw(w: World, published: seq<Publication>, born: nat, p: Pass) {
    && p.born == born <= p.seen <= |published|
    && p.got == LastGood(w.config.maxAge, published, born, p.seen, p.at)
  }

  /** How many of the sends failed. */
  function Misses(delivered: seq<bool>): (n: nat)
    ensures n <= |delivered|
  {
    if delivered == [] then 0
    else Misses(delivered[..|delivered| - 1]) + (if delivered[|delivered| - 1] then 0 else 1)
  }

  /** A completed pass also attempted each address once, in order. */
  ghost predicate PassOk(w: World, published: seq<Publication>, born: nat, p: Pass) {
    && PassSaw(w, published, born, p)
    && p.sent == (if p.got.Some? then p.got.value else [])
    && |p.delivered| == |p.sent| && p.failed == Misses(p.delivered)
  }

  /** Whether sends were failing after these passes, and what was said about it. */
  function Noticed(passes: seq<Pass>): (bool, seq<Notice>) {
    if passes == [] then (false, [])
    else
      var (failing, notices) := Noticed(passes[..|passes| - 1]);
      var p := passes[|passes| - 1];
      if p.got.None? then (failing, notices)
      else if p.failed > 0 && !failing then (true, notices + [Failing(p.failed, |p.got.value|)])
      else if p.failed == 0 && failing then (false, notices + [DeliveredAgain])
      else (failing, notices)
  }

  /** The completed passes: the register each time, never an older one, `down` only as the last. */
  ghost predicate PassesOk(w: World, s: State, x: Sender) {
    && (forall k :: 0 <= k < |x.passes| ==> PassOk(w, s.published, x.born, x.passes[k]))
    && (forall k :: 0 <= k < |x.passes| ==> x.passes[k].at <= s.clock)
    && (forall j, k :: 0 <= j < k < |x.passes| ==>
          x.passes[j].seen <= x.passes[k].seen && x.passes[j].at <= x.passes[k].at)
    && (forall k :: 0 <= k < |x.passes| - 1 ==> !x.passes[k].down)
    && (x.passes != [] ==> (x.passes[|x.passes| - 1].down <==> x.closing && x.pc in {Releasing, PassDone, Exited}))
    && (x.pc in {Releasing, PassDone, Exited} ==> x.passes != [])
    && (x.wasFailing, x.notices) == Noticed(x.passes)
  }

  /** The pass under way: the list as it was acquired, and how far the loop has come. */
  ghost predicate PassUnderWay(w: World, s: State, x: Sender) {
    var target := Target(s.heap, x);
    && PassSaw(w, s.published, x.born, x.pass)
    && x.pass.got == (if x.snapshot.Some? then Some(target) else None)
    && x.i <= |target| && x.pass.sent == target[..x.i]
    && |x.pass.delivered| == x.i && x.pass.failed == x.failed == Misses(x.pass.delivered)
    && x.pass.down == x.closing
    && x.pass.at <= s.clock
    && forall k :: 0 <= k < |x.passes| ==> x.passes[k].seen <= x.pass.seen && x.passes[k].at <= x.pass.at
  }

  ghost predicate SenderHandsOk(x: Sender, hold: Hold) {
    match x.pc
    case Sending => hold == (if x.snapshot.Some? then Ref(x.snapshot.value) else Nothing)
    case Releasing => !hold.Fetched?
    case _ => hold.Nothing?
  }

  ghost predicate SenderOk(w: World, s: State, i: nat)
    requires i < |s.senders| && |s.heap.holds| == |s.senders| + 2
  {
    var x := s.senders[i];
    && SenderHandsOk(x, s.heap.holds[Place(i)])
    && (x.pc.Sending? ==> PassUnderWay(w, s, x))
    && PassesOk(w, s, x)
    && (x.pc.Sleeping? ==> !x.closing)
    && (x.pc.Exited? ==> x.closing)
    && (!x.pc.Exited? ==> s.maxAge == w.config.maxAge && x.born == s.base && (x.closing ==> s.closing))
    && (x.pc in {FormattingDown, FormattingUp, Top} ==> !x.closing)
  }

  // ---------- The refresher ----------

  /** The fetched list is the one its request gave. */
  ghost predicate FetchedOk(w: World, s: State, l: Ptr) {
    l < |s.heap.lists| && w.answer(s.refresher.request) == Some(s.heap.lists[l].ips)
  }

  ghost predicate RefresherHandsOk(w: World, s: State)
    requires WellFormed(s.heap) && REFRESHER < |s.heap.holds|
  {
    var hold := s.heap.holds[REFRESHER];
    match s.refresher.pc
    case HasFetched => hold.Nothing? || (hold.Fetched? && FetchedOk(w, s, hold.list))
    case Dropping(_) => hold.Fetched?
    case Publishing => hold.Fetched? && FetchedOk(w, s, hold.list) && s.heap.lists[hold.list].ips != []
    case Swapping(count, receivedAt) =>
      && hold.Ref? && hold.snap < |s.heap.snaps|
      && FetchedOk(w, s, s.heap.snaps[hold.snap].list)
      && count == |s.heap.lists[s.heap.snaps[hold.snap].list].ips| > 0
      && receivedAt == s.heap.snaps[hold.snap].receivedAt <= s.clock
      && forall k :: 0 <= k < |s.published| ==> s.published[k].receivedAt <= receivedAt
    case ReleasingOld(count, receivedAt) => !hold.Fetched? && Current(s.heap) == Some(Held(count, receivedAt))
    case Published(count, receivedAt) => hold.Nothing? && Current(s.heap) == Some(Held(count, receivedAt))
    case _ => hold.Nothing?
  }

  /** Every instant of the turns so far is at most `t`. */
  ghost predicate RoundsUpTo(rounds: seq<RefreshLoop.Round>, t: int) {
    forall k :: 0 <= k < |rounds| && rounds[k].Bad? ==> rounds[k].loggedAt <= t
  }

  /** The refresher's variables and log are those of the timed loop run on its turns, and between
      turns the loop's idea of the stored list is `current`. */
  ghost predicate RefresherLoopOk(w: World, s: State)
    requires WellFormed(s.heap)
  {
    var r := s.refresher;
    var loop := RefreshLoop.Run(w.config.maxAge, r.rounds);
    && loop.locals == r.locals && loop.log == r.log
    && (!r.pc.Ended? && !r.pc.ReleasingOld? && !r.pc.Published? ==> loop.current == Current(s.heap))
    && RefreshLoop.Chronological(r.rounds)
    && match r.pc
       case CheckingExpiry(now) => RoundsUpTo(r.rounds, now) && now <= s.clock
       case Logging(now, checkedAt, expired) =>
         && RoundsUpTo(r.rounds, now) && now <= checkedAt <= s.clock
         && expired == IsExpired(Current(s.heap), checkedAt, w.config.maxAge)
       case _ => RoundsUpTo(r.rounds, s.clock)
  }

  ghost predicate RefresherOk(w: World, s: State)
    requires WellFormed(s.heap) && REFRESHER < |s.heap.holds|
  {
    && RefresherHandsOk(w, s)
    && RefresherLoopOk(w, s)
    && (!s.refresher.pc.Ended? ==> s.refresherRunning && s.clientOpen)
    && (s.refresherRunning ==> s.maxAge == w.config.maxAge)
  }

  // ---------- The main thread ----------

  ghost predicate AllExited(s: State, below: int) {
    forall i :: 0 <= i < |s.senders| && i < below ==> s.senders[i].pc.Exited?
  }

  /** No thread, and nothing a thread or a load leaves behind. */
  ghost predicate Quiet(s: State) {
    && AllExited(s, |s.senders|)
    && s.threadIds == [] && s.capacity.None?
    && !s.refresherRunning && s.refresher.pc.Ended?
    && !s.clientOpen && s.heap.current.None? && s.patterns == []
  }

  /** Where the event handlers may be, and what they may rely on there. */
  ghost predicate MainPcOk(s: State) {
    match s.main
    case EventLoop => !s.loaded || !s.announced || s.closing ==> Quiet(s)
    case StartingCache => Quiet(s) && s.loaded && s.announced && !s.closing
    case StartingSenders =>
      && s.loaded && s.announced && !s.closing && s.refresherRunning
      && AllExited(s, |s.senders|) && s.threadIds == [] && s.capacity.None? && s.patterns == []
    case Spawning(rest) =>
      && s.loaded && s.announced && !s.closing && s.refresherRunning
      && s.capacity.Some? && |s.threadIds| + InetCount(rest) <= s.capacity.value
    case RaisingFlag(_) => true
    case JoiningSenders(k, _) => s.closing && k <= |s.threadIds| && AllExited(s, |s.senders| - |s.threadIds| + k)
    case JoiningRefresher(_) => s.closing && NoSenders(s)
    case DestroyingClient(_) => s.closing && NoSenders(s) && !s.refresherRunning
    case DroppingList(_) => s.closing && NoSenders(s) && !s.refresherRunning && !s.clientOpen
    case ReleasingList(_) => s.closing && NoSenders(s) && !s.refresherRunning && !s.clientOpen && s.heap.current.None?
    case FreeingPatterns(_) => s.closing && NoSenders(s) && !s.refresherRunning && !s.clientOpen && s.heap.current.None?
  }

  ghost predicate NoSenders(s: State) {
    AllExited(s, |s.senders|) && s.threadIds == [] && s.capacity.None?
  }

  ghost predicate MainOk(s: State)
    requires MAIN < |s.heap.holds|
  {
    && MainPcOk(s)
    && (if s.main.ReleasingList? then !s.heap.holds[MAIN].Fetched? else s.heap.holds[MAIN].Nothing?)
    && (!s.main.DestroyingClient? ==> (s.refresherRunning <==> s.clientOpen))
    // thread_ids is the youngest senders, in order, inside its allocation
    && |s.threadIds| <= |s.senders|
    && (forall m :: 0 <= m < |s.threadIds| ==> s.threadIds[m] == |s.senders| - |s.threadIds| + m)
    && AllExited(s, |s.senders| - |s.threadIds|)
    && (s.threadIds != [] ==> s.capacity.Some? && |s.threadIds| <= s.capacity.value)
    && |s.patterns| <= Patterns.MAX_IP_PATTERNS
    && s.starts <= 1 && (s.starts == 1 ==> s.announced)
  }

  /** Everything below at once. Written as an equation it stays one fact for the verifier. */
  ghost predicate Inv(w: World, s: State) {
    true == Everything(w, s)
  }

  ghost predicate Everything(w: World, s: State) {
    && HeapOk(s.heap)
    && |s.heap.holds| == |s.senders| + 2
    && !s.fault
    && RegisterOk(w, s)
    && (forall i :: 0 <= i < |s.senders| ==> SenderOk(w, s, i))
    && RefresherOk(w, s)
    && MainOk(s)
  }

  // ---------- What a step of one thread leaves alone ----------

  /** Lists and snapshots keep their contents, and only thread `t` changes hands. */
  ghost predicate HeapFrame(h: Heap, h': Heap, t: nat) {
    && WellFormed(h) && WellFormed(h')
    && |h.holds| <= |h'.holds| && |h.snaps| <= |h'.snaps| && |h.lists| <= |h'.lists|
    && (forall u :: 0 <= u < |h.holds| && u != t ==> h'.holds[u] == h.holds[u])
    && (forall p :: 0 <= p < |h.snaps| ==>
          h'.snaps[p].list == h.snaps[p].list && h'.snaps[p].receivedAt == h.snaps[p].receivedAt)
    && (forall l :: 0 <= l < |h.lists| ==> h'.lists[l].ips == h.lists[l].ips)
  }

  lemma TargetKept(h: Heap, h': Heap, t: nat, x: Sender)
    requires HeapFrame(h, h', t)
    requires x.snapshot.Some? ==> x.snapshot.value < |h.snaps|
    ensures Target(h', x) == Target(h, x)
  {}

  lemma CurrentKept(h: Heap, h': Heap, t: nat)
    requires HeapFrame(h, h', t) && h'.current == h.current
    ensures Current(h') == Current(h)
  {}

  lemma PassSawKept(w: World, published: seq<Publication>, published': seq<Publication>, born: nat, p: Pass)
    requires PassSaw(w, published, born, p) && published <= published'
    ensures PassSaw(w, published', born, p)
  {}

  /** A sender that does not move stays in order while others do. */
  lemma SenderKept(w: World, s: State, s': State, t: nat, i: nat)
    requires |s.heap.holds| == |s.senders| + 2 && |s'.heap.holds| == |s'.senders| + 2
    requires i < |s.senders| <= |s'.senders| && s'.senders[i] == s.senders[i]
    requires HeapFrame(s.heap, s'.heap, t) && t != Place(i)
    requires s.published <= s'.published && s.clock <= s'.clock
    requires s.senders[i].pc.Exited? || (s'.maxAge == s.maxAge && s'.base == s.base && (s.closing ==> s'.closing))
    requires SenderOk(w, s, i)
    ensures SenderOk(w, s', i)
  {
    var x := s.senders[i];
    if x.pc.Sending? {
      assert HoldInRange(s.heap, s.heap.holds[Place(i)]);
      TargetKept(s.heap, s'.heap, t, x);
      PassSawKept(w, s.published, s'.published, x.born, x.pass);
    }
    forall k | 0 <= k < |x.passes|
      ensures PassOk(w, s'.published, x.born, x.passes[k])
    {
      assert PassOk(w, s.published, x.born, x.passes[k]);
      PassSawKept(w, s.published, s'.published, x.born, x.passes[k]);
    }
  }

  /** All senders stay in order while thread `t`, which is none of them, moves. */
  lemma SendersKept(w: World, s: State, s': State, t: nat)
    requires |s.heap.holds| == |s.senders| + 2 == |s'.heap.holds|
    requires s'.senders == s.senders && t < 2
    requires HeapFrame(s.heap, s'.heap, t)
    requires s.published <= s'.published && s.clock <= s'.clock
    requires s'.maxAge == s.maxAge && s'.base == s.base && (s.closing ==> s'.closing)
    requires forall i :: 0 <= i < |s.senders| ==> SenderOk(w, s, i)
    ensures forall i :: 0 <= i < |s.senders| ==> SenderOk(w, s', i)
  {
    forall i | 0 <= i < |s.senders|
      ensures SenderOk(w, s', i)
    {
      SenderKept(w, s, s', t, i);
    }
  }

  /** The refresher stays in order while others move, as long as `current` is not replaced. */
  lemma RefresherKept(w: World, s: State, s': State, t: nat)
    requires WellFormed(s.heap) && REFRESHER < |s.heap.holds| && REFRESHER < |s'.heap.holds|
    requires HeapFrame(s.heap, s'.heap, t) && t != REFRESHER
    requires s'.refresher == s.refresher && s'.published == s.published && s.clock <= s'.clock
    requires s'.heap.current == s.heap.current || s.refresher.pc.Ended?
    requires s.refresher.pc.Ended? || (s'.refresherRunning && s'.clientOpen)
    requires s'.refresherRunning ==> s.refresherRunning && s'.maxAge == s.maxAge
    requires RefresherOk(w, s)
    ensures RefresherOk(w, s')
  {
    if s'.heap.current == s.heap.current {
      CurrentKept(s.heap, s'.heap, t);
    }
    assert HoldInRange(s.heap, s.heap.holds[REFRESHER]);
  }

  /** The register stays in order when nothing is published or dropped. */
  lemma RegisterKept(w: World, s: State, s': State, t: nat)
    requires WellFormed(s.heap)
    requires HeapFrame(s.heap, s'.heap, t) && s'.heap.current == s.heap.current
    requires s'.published == s.published && s'.base == s.base && s.clock <= s'.clock
    requires forall l :: |s.heap.lists| <= l < |s'.heap.lists| ==> |s'.heap.lists[l].ips| <= PodList.MAX_PODS
    requires RegisterOk(w, s)
    ensures RegisterOk(w, s')
  {
    forall k | 0 <= k < |s'.published|
      ensures PublicationOk(w, s', s'.published[k])
    {
      assert PublicationOk(w, s, s.published[k]);
    }
  }

  /** The main thread stays in order while the others move. */
  lemma MainKept(s: State, s': State)
    requires MAIN < |s.heap.holds| && MAIN < |s'.heap.holds| && s'.heap.holds[MAIN] == s.heap.holds[MAIN]
    requires s' == s.(heap := s'.heap, senders := s'.senders, refresher := s'.refresher,
                      published := s'.published, fault := s'.fault, clock := s'.clock)
    requires |s'.senders| == |s.senders|
    requires forall j :: 0 <= j < |s.senders| && s.senders[j].pc.Exited? ==> s'.senders[j].pc.Exited?
    requires s.refresher.pc.Ended? ==> s'.refresher.pc.Ended? && s'.heap.current == s.heap.current
    requires !s.refresher.pc.Ended? ==> s.refresherRunning
    requires s.heap.current.None? && !s.refresherRunning ==> s'.heap.current.None?
    requires MainOk(s)
    ensures MainOk(s')
  {}

  /** The state a fresh process is in. */
  lemma InitialInv(w: World)
    ensures Inv(w, INITIAL)
  {
    assert HeapOk(INITIAL.heap);
  }
}
