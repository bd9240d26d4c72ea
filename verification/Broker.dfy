/**
The whole module as a transition system: the Redis main thread running the module's event handlers,
one refresher, and any number of senders, interleaved one atomic section at a time. A section is what
the source does under one lock, one atomic load or store, one `malloc`, `free`, `send`, or thread call;
code that touches nothing but its own thread's variables is folded into its neighbour.
*/
module Broker {
  import opened Prelude
  import opened Staleness
  import opened Settings
  import opened SnapshotHeap
  import opened Ascending
  import RefreshLoop
  import Backoff
  import PodList
  import Patterns

  /** What does not change during a run: the settings, the patterns SELECTED_INTERFACES offers, and
      what pod_list_fetch makes of a request (None: it fails). */
  datatype Surroundings = Surroundings(
    config: Config,
    selected: seq<string>,
    answer: PodList.Request -> Option<seq<string>>)

  /** pod_list_fetch returns short lists of distinct addresses, as PodList proves. */
  ghost predicate AnswersAreLists(w: Surroundings) {
    forall q :: w.answer(q).Some? ==> |w.answer(q).value| <= PodList.MAX_PODS && IsAscending(w.answer(q).value)
  }

  ghost const SILENCE := Surroundings(Config(1, 1, 1, 0), [], (q: PodList.Request) => None)

  type World = w: Surroundings | AnswersAreLists(w) ghost witness SILENCE

  /** The module with its real pod_list_fetch, on a C library that does or does not take leading
      zeros. */
  ghost function Deploy(config: Config, selected: seq<string>, leadingZeros: bool): World {
    Surroundings(config, selected, q => PodList.Answer(q, leadingZeros))
  }

  // ---------- Senders ----------

  /** One pass of the sender loop: `down` or `up`, when it acquired, how many lists had been
      published by then (`seen`, the first `born` of them in earlier loads), what it got, the
      addresses it attempted, which attempts were delivered, and how many failed. */
  datatype Pass = Pass(
    down: bool,
    at: int,
    born: nat,
    seen: nat,
    got: Option<seq<string>>,
    sent: seq<string>,
    delivered: seq<bool>,
    failed: nat)

  datatype Notice = Failing(failed: nat, of: nat) | DeliveredAgain

  datatype SenderPc =
    | FormattingDown        // about to print the down message
    | FormattingUp          // about to print the up message
    | Top                   // about to read the closing flag
    | Acquiring
    | Sending               // the loop over the addresses
    | Releasing
    | PassDone
    | Sleeping(until: int)
    | Exited

  datatype Sender = Sender(
    ip: string,             // source_ip
    pc: SenderPc,
    closing: bool,          // the flag as read at the top of the pass
    snapshot: Option<Ptr>,
    i: nat,
    failed: nat,
    wasFailing: bool,
    born: nat,
    load: nat,              // the guid its load wrote
    downGuid: Option<nat>,  // the guid in its down message
    upGuid: Option<nat>,    // and the one in its up message
    pass: Pass,             // the pass under way
    passes: seq<Pass>,      // the completed ones
    notices: seq<Notice>)

  const NO_PASS := Pass(false, 0, 0, 0, None, [], [], 0)

  function NewSender(ip: string, born: nat, load: nat): Sender {
    Sender(ip, FormattingDown, false, None, 0, 0, false, born, load, None, None, NO_PASS, [], [])
  }

  // ---------- The refresher ----------

  datatype Drop = OnClosing | OnFailure

  datatype RefresherPc =
    | Checking                              // while (!is_closing())
    | Fetching
    | HasFetched                            // the second look at the flag
    | Dropping(why: Drop)                   // about to free the fetched list
    | Publishing                            // about to allocate the snapshot
    | Swapping(count: nat, receivedAt: int)
    | ReleasingOld(count: nat, receivedAt: int)
    | Published(count: nat, receivedAt: int)
    | Failed                                // about to read the clock
    | CheckingExpiry(now: int)
    | Logging(now: int, checkedAt: int, expired: bool)
    | Pausing(until: int)
    | Ended

  datatype Refresher = Refresher(
    pc: RefresherPc,
    request: PodList.Request,
    locals: RefreshLoop.Locals,
    rounds: seq<RefreshLoop.Round>,
    log: seq<RefreshLoop.Message>)

  const NO_REQUEST := PodList.Request(false, false, false, 0, None, false)

  // ---------- The main thread ----------

  datatype Interface = Interface(inet: bool, ip: string)

  /** Does the module stay after the clean-up? */
  datatype Fate = Keep | Remove

  datatype MainPc =
    | EventLoop
    | StartingCache                      // pod_cache_start
    | StartingSenders                    // send_udp_message up to its loop
    | Spawning(rest: seq<Interface>)
    | RaisingFlag(fate: Fate)          // cleanup_threads from here on
    | JoiningSenders(k: nat, fate: Fate)
    | JoiningRefresher(fate: Fate)
    | DestroyingClient(fate: Fate)
    | DroppingList(fate: Fate)
    | ReleasingList(fate: Fate)
    | FreeingPatterns(fate: Fate)

  /** A list that became `current`, and the request it came from. */
  datatype Publication = Publication(request: PodList.Request, ips: seq<string>, receivedAt: int)

  datatype State = State(
    clock: int,
    closing: bool,
    heap: Heap,
    senders: seq<Sender>,                // every sender ever created
    refresher: Refresher,
    // statics of the main thread
    main: MainPc,
    guid: nat,                           // redis_guid; each generate_redis_guid makes the next one
    loaded: bool,
    subscribed: bool,
    announced: bool,
    maxAge: int,
    threadIds: seq<nat>,                 // thread_ids[..thread_count]
    capacity: Option<nat>,               // elements thread_ids has room for; None is NULL
    refresherRunning: bool,
    clientOpen: bool,
    patterns: seq<string>,
    // history
    published: seq<Publication>,
    base: nat,                           // how many of them belong to earlier loads
    loadGuid: nat,                       // the guid written by the last load that was not refused
    starts: nat,                         // broadcasts started since that load
    fault: bool)                         // something the source must never do has been done

  // Places in `heap.holds`.
  const MAIN := 0
  const REFRESHER := 1

  function Place(i: nat): nat {
    i + 2
  }

  const INITIAL := State(
    0, false, EMPTY_HEAP.(holds := [Nothing, Nothing]), [],
    Refresher(Ended, NO_REQUEST, RefreshLoop.START, [], []),
    EventLoop, 0, false, false, false, 0, [], None, false, false, [], [], 0, 0, 0, false)

  // ---------- pod_cache_release, one step at a time ----------

  ghost predicate CanRelease(h: Heap, t: nat) {
    && WellFormed(h) && t < |h.holds|
    && !h.holds[t].Fetched?
  }

  /** The sections of pod_cache_release still to come. */
  function HoldWork(x: Hold): nat {
    match x
    case Ref(_) => 3
    case FreeingList(_) => 2
    case FreeingSnap(_) => 1
    case _ => 0
  }

  /** The next section of pod_cache_release, if the thread is still inside it. */
  ghost function ReleaseStep(h: Heap, t: nat): (r: Heap)
    requires CanRelease(h, t)
    ensures |r.holds| == |h.holds| && r.current == h.current
    ensures HoldWork(r.holds[t]) < HoldWork(h.holds[t]) || (h.holds[t].Nothing? && r == h)
  {
    match h.holds[t]
    case Ref(p) => Decrement(h, t, p)
    case FreeingList(p) => FreePods(h, t, p)
    case FreeingSnap(p) => FreeSnapshot(h, t, p)
    case Nothing => h
  }

  // ---------- Sender steps ----------

  datatype SenderAction =
    | FormatDown
    | FormatUp
    | ReadFlag
    | AcquireList
    | Send(ok: bool)
    | Report
    | ReleaseSnapshot
    | EndPass
    | WakeUp

  /** The addresses of the sender's snapshot; none without one. */
  ghost function Target(h: Heap, x: Sender): seq<string> {
    if x.snapshot.Some? && WellFormed(h) && x.snapshot.value < |h.snaps|
    then h.lists[h.snaps[x.snapshot.value].list].ips
    else []
  }

  /** The program counter allows the action. */
  ghost predicate SenderReady(s: State, i: nat, a: SenderAction) {
    && i < |s.senders|
    && var x := s.senders[i];
       match a
       case FormatDown => x.pc.FormattingDown?
       case FormatUp => x.pc.FormattingUp?
       case ReadFlag => x.pc.Top?
       case AcquireList => x.pc.Acquiring?
       case Send(_) => x.pc.Sending? && x.i < |Target(s.heap, x)|
       case Report => x.pc.Sending? && x.i >= |Target(s.heap, x)|
       case ReleaseSnapshot => x.pc.Releasing?
       case EndPass => x.pc.PassDone?
       case WakeUp => x.pc.Sleeping? && (s.closing || s.clock >= x.pc.until)
  }

  /** What the thread has in its hands suits the action. The invariant shows that it always does,
      so this never stands in a thread's way. */
  ghost predicate SenderFits(s: State, i: nat, a: SenderAction)
    requires i < |s.senders|
  {
    var x := s.senders[i];
    match a
    case AcquireList => Holds(s.heap, Place(i), Nothing)
    case Send(_) => x.snapshot.Some? && Holds(s.heap, Place(i), Ref(x.snapshot.value))
    case Report => Holds(s.heap, Place(i), if x.snapshot.Some? then Ref(x.snapshot.value) else Nothing)
    case ReleaseSnapshot => CanRelease(s.heap, Place(i))
    case _ => true
  }

  /** What a step of unicast_thread does to the heap. */
  ghost function SenderHeap(s: State, i: nat, a: SenderAction): (h: Heap)
    requires SenderReady(s, i, a) && SenderFits(s, i, a)
    ensures |h.holds| == |s.heap.holds|
  {
    var x := s.senders[i];
    match a
    case AcquireList => Acquire(s.heap, Place(i), s.clock, s.maxAge)
    case Send(_) => Read(s.heap, Place(i), x.snapshot.value)
    case Report => if x.snapshot.Some? then Read(s.heap, Place(i), x.snapshot.value) else s.heap
    case ReleaseSnapshot => ReleaseStep(s.heap, Place(i))
    case _ => s.heap
  }

  /** Do the sends of this pass start to fail, and is there something to say that they stopped? */
  predicate StartsFailing(x: Sender) {
    x.failed > 0 && !x.wasFailing
  }

  predicate StopsFailing(x: Sender) {
    x.failed == 0 && x.wasFailing && x.snapshot.Some?
  }

  /** What a step of unicast_thread does to its own variables. */
  ghost function SenderNext(w: World, s: State, i: nat, a: SenderAction): Sender
    requires SenderReady(s, i, a) && SenderFits(s, i, a)
  {
    var x := s.senders[i];
    match a
    case FormatDown => x.(pc := FormattingUp, downGuid := Some(s.guid))
    case FormatUp => x.(pc := Top, upGuid := Some(s.guid))
    case ReadFlag => x.(closing := s.closing, pc := Acquiring)
    case AcquireList =>
      var h := SenderHeap(s, i, a);
      var x1 := x.(snapshot := if h.holds[Place(i)].Ref? then Some(h.holds[Place(i)].snap) else None);
      var got := if x1.snapshot.None? then None else Some(Target(h, x1));
      x1.(pc := Sending, i := 0, failed := 0,
          pass := Pass(x.closing, s.clock, s.base, |s.published|, got, [], [], 0))
    case Send(ok) =>
      var failed := if ok then x.failed else x.failed + 1;
      x.(i := x.i + 1, failed := failed,
         pass := x.pass.(sent := x.pass.sent + [Target(s.heap, x)[x.i]], delivered := x.pass.delivered + [ok],
                         failed := failed))
    case Report =>
      x.(pc := Releasing,
         wasFailing := if x.snapshot.Some? then x.failed > 0 else x.wasFailing,
         passes := x.passes + [x.pass],
         notices := if StartsFailing(x) then x.notices + [Failing(x.failed, |Target(s.heap, x)|)]
                    else if StopsFailing(x) then x.notices + [DeliveredAgain]
                    else x.notices)
    case ReleaseSnapshot =>
      if SenderHeap(s, i, a).holds[Place(i)].Nothing? then x.(pc := PassDone, snapshot := None) else x
    case EndPass => x.(pc := if x.closing then Exited else Sleeping(s.clock + w.config.interval))
    case WakeUp => x.(pc := Top)
  }

  /** unicast_thread. The warning of Report dereferences the snapshot. */
  ghost function SenderStep(w: World, s: State, i: nat, a: SenderAction): State
    requires SenderReady(s, i, a) && SenderFits(s, i, a)
  {
    var x := s.senders[i];
    s.(heap := SenderHeap(s, i, a),
       senders := s.senders[i := SenderNext(w, s, i, a)],
       fault := s.fault || (a.Report? && StartsFailing(x) && x.snapshot.None?))
  }

  // ---------- Refresher steps ----------

  datatype RefresherAction =
    | CheckFlag
    | FetchPods(request: PodList.Request)
    | CheckFlagAgain
    | FreeFetched
    | Allocate(ok: bool)
    | Exchange
    | ReleaseOld
    | NoteSuccess
    | ReadClock
    | CheckExpiry
    | NoteFailure
    | EndPause

  ghost predicate RefresherReady(s: State, a: RefresherAction) {
    var pc := s.refresher.pc;
    match a
    case CheckFlag => pc.Checking?
    case FetchPods(_) => pc.Fetching?
    case CheckFlagAgain => pc.HasFetched?
    case FreeFetched => pc.Dropping?
    case Allocate(_) => pc.Publishing?
    case Exchange => pc.Swapping?
    case ReleaseOld => pc.ReleasingOld?
    case NoteSuccess => pc.Published?
    case ReadClock => pc.Failed?
    case CheckExpiry => pc.CheckingExpiry?
    case NoteFailure => pc.Logging?
    case EndPause => pc.Pausing? && (s.closing || s.clock >= pc.until)
  }

  ghost predicate HoldsList(h: Heap) {
    WellFormed(h) && REFRESHER < |h.holds| && h.holds[REFRESHER].Fetched?
  }

  ghost predicate RefresherFits(s: State, a: RefresherAction) {
    match a
    case FetchPods(_) => Holds(s.heap, REFRESHER, Nothing)
    case CheckFlagAgain => HoldsList(s.heap) || Holds(s.heap, REFRESHER, Nothing)
    case FreeFetched => HoldsList(s.heap)
    case Allocate(_) => HoldsList(s.heap)
    case Exchange => WellFormed(s.heap) && REFRESHER < |s.heap.holds| && s.heap.holds[REFRESHER].Ref?
    case ReleaseOld => CanRelease(s.heap, REFRESHER)
    case CheckExpiry => WellFormed(s.heap)
    case NoteFailure => WellFormed(s.heap)
    case _ => true
  }

  /** What a step of refresh_pods or publish does to the heap. */
  ghost function RefresherHeap(w: World, s: State, a: RefresherAction): (r: Heap)
    requires RefresherReady(s, a) && RefresherFits(s, a)
    ensures |r.holds| == |s.heap.holds|
  {
    var h := s.heap;
    match a
    case FetchPods(q) =>
      if w.answer(q).Some? then Fetch(h, REFRESHER, w.answer(q).value) else h
    case CheckFlagAgain =>
      if HoldsList(h) && !s.closing then ReadList(h, REFRESHER, h.holds[REFRESHER].list) else h
    case FreeFetched => DropList(h, REFRESHER, h.holds[REFRESHER].list)
    case Allocate(ok) =>
      var l := h.holds[REFRESHER].list;
      if ok then NewSnapshot(ReadList(h, REFRESHER, l), REFRESHER, l, s.clock) else h
    case Exchange => Swap(h, REFRESHER)
    case ReleaseOld => ReleaseStep(h, REFRESHER)
    case CheckExpiry => ReadCurrent(h)
    case NoteFailure => ReadCurrent(h)
    case _ => h
  }

  /** What a step of refresh_pods or publish does to its own variables. */
  ghost function RefresherNext(w: World, s: State, a: RefresherAction): Refresher
    requires RefresherReady(s, a) && RefresherFits(s, a)
  {
    var r := s.refresher;
    var h := s.heap;
    match a
    case CheckFlag => r.(pc := if s.closing then Ended else Fetching)
    case FetchPods(q) => r.(pc := HasFetched, request := q)
    case CheckFlagAgain =>
      r.(pc := if !HoldsList(h) then (if s.closing then Ended else Failed)
               else if s.closing then Dropping(OnClosing)
               else if |h.lists[h.holds[REFRESHER].list].ips| == 0 then Dropping(OnFailure)
               else Publishing)
    case FreeFetched => r.(pc := if r.pc.why.OnClosing? then Ended else Failed)
    case Allocate(ok) =>
      r.(pc := if ok then Swapping(|h.lists[h.holds[REFRESHER].list].ips|, s.clock) else Dropping(OnFailure))
    case Exchange => r.(pc := ReleasingOld(r.pc.count, r.pc.receivedAt))
    case ReleaseOld =>
      if RefresherHeap(w, s, a).holds[REFRESHER].Nothing? then r.(pc := Published(r.pc.count, r.pc.receivedAt)) else r
    case NoteSuccess =>
      var (locals, messages) := RefreshLoop.OnGood(r.locals, r.pc.count, s.clock);
      r.(pc := Pausing(s.clock + w.config.refresh), locals := locals, log := r.log + messages,
         rounds := r.rounds + [RefreshLoop.Good(r.pc.count, r.pc.receivedAt, s.clock)])
    case ReadClock => r.(pc := CheckingExpiry(s.clock))
    case CheckExpiry => r.(pc := Logging(r.pc.now, s.clock, IsExpired(Current(h), s.clock, s.maxAge)))
    case NoteFailure =>
      var (locals, messages) := RefreshLoop.OnBad(r.locals, r.pc.now, r.pc.expired,
                                                  FailureStanding(Current(h), s.clock, s.maxAge));
      r.(pc := Pausing(s.clock + Backoff.Delay(w.config.refresh, locals.failures)),
         locals := locals, log := r.log + messages,
         rounds := r.rounds + [RefreshLoop.Bad(r.pc.now, r.pc.checkedAt, s.clock)])
    case EndPause => r.(pc := Checking)
  }

  /** What becomes `current` in an exchange. */
  ghost function Offered(s: State): Publication
    requires RefresherReady(s, Exchange) && RefresherFits(s, Exchange)
  {
    assert HoldInRange(s.heap, s.heap.holds[REFRESHER]);
    var snap := s.heap.snaps[s.heap.holds[REFRESHER].snap];
    Publication(s.refresher.request, s.heap.lists[snap.list].ips, snap.receivedAt)
  }

  /** refresh_pods and publish. A request uses the client. */
  ghost function RefresherStep(w: World, s: State, a: RefresherAction): State
    requires RefresherReady(s, a) && RefresherFits(s, a)
  {
    s.(heap := RefresherHeap(w, s, a),
       refresher := RefresherNext(w, s, a),
       published := if a.Exchange? then s.published + [Offered(s)] else s.published,
       fault := s.fault || (a.FetchPods? && !s.clientOpen))
  }

  // ---------- Main thread steps ----------

  datatype MainAction =
    // what Redis does; RefuseLoad is a load whose RedisModule_Init fails
    | Load(curlOk: bool, listening: bool, hooked: bool)
    | RefuseLoad
    | Cron
    | Shutdown
    | Unload
    // start_broadcasting
    | StartCache(clientOk: bool, threadOk: bool)
    | ListInterfaces(found: Option<seq<Interface>>, hasMemory: bool)
    | NextInterface(taskOk: bool, threadOk: bool)
    | EndSpawning
    // cleanup_threads
    | RaiseFlag
    | JoinSender
    | FreeThreadIds
    | JoinRefresher
    | DestroyClient
    | DropCurrent
    | ReleaseCurrent
    | FreePatterns

  ghost predicate SenderDone(s: State, i: nat) {
    i < |s.senders| ==> s.senders[i].pc.Exited?
  }

  ghost predicate MainReady(s: State, a: MainAction) {
    match a
    case Load(_, _, _) => s.main.EventLoop? && !s.loaded
    case RefuseLoad => s.main.EventLoop?
    case Cron => s.main.EventLoop? && s.loaded && s.subscribed
    case Shutdown => s.main.EventLoop? && s.loaded
    case Unload => s.main.EventLoop? && s.loaded
    case StartCache(_, _) => s.main.StartingCache?
    case ListInterfaces(_, _) => s.main.StartingSenders?
    case NextInterface(_, _) => s.main.Spawning? && s.main.rest != []
    case EndSpawning => s.main.Spawning? && s.main.rest == []
    case RaiseFlag => s.main.RaisingFlag?
    case JoinSender => s.main.JoiningSenders? && s.main.k < |s.threadIds| && SenderDone(s, s.threadIds[s.main.k])
    case FreeThreadIds => s.main.JoiningSenders? && s.main.k >= |s.threadIds|
    case JoinRefresher => s.main.JoiningRefresher? && (s.refresherRunning ==> s.refresher.pc.Ended?)
    case DestroyClient => s.main.DestroyingClient?
    case DropCurrent => s.main.DroppingList?
    case ReleaseCurrent => s.main.ReleasingList?
    case FreePatterns => s.main.FreeingPatterns?
  }

  ghost predicate MainFits(s: State, a: MainAction) {
    match a
    case ListInterfaces(_, _) => |s.patterns| <= Patterns.MAX_IP_PATTERNS
    case DropCurrent => Holds(s.heap, MAIN, Nothing)
    case ReleaseCurrent => CanRelease(s.heap, MAIN)
    case _ => true
  }

  /** A thread of the module is running. */
  ghost predicate AnyThread(s: State) {
    || !s.refresher.pc.Ended?
    || exists i :: 0 <= i < |s.senders| && !s.senders[i].pc.Exited?
  }

  function InetCount(interfaces: seq<Interface>): nat {
    if interfaces == [] then 0
    else (if interfaces[0].inet then 1 else 0) + InetCount(interfaces[1..])
  }

  /** A load whose RedisModule_Init succeeds: a new guid, and closing_reset, which no thread may see. */
  ghost function LoadStep(s: State, curlOk: bool, listening: bool, hooked: bool): (r: State)
    ensures r.published == s.published && r.heap == s.heap
  {
    s.(fault := s.fault || AnyThread(s),
       guid := s.guid + 1, loadGuid := s.guid + 1,
       closing := false, announced := false, starts := 0,
       loaded := curlOk, subscribed := curlOk && listening && hooked)
  }

  /** cron_broadcast_once. */
  ghost function CronStep(s: State): (r: State)
    ensures r.published == s.published && r.heap == s.heap
  {
    if s.announced || s.closing then s
    else s.(announced := true, starts := s.starts + 1, main := StartingCache)
  }

  /** pod_cache_start. Creating a client while there is one would lose the old one. */
  ghost function StartCacheStep(s: State, maxAge: int, clientOk: bool, threadOk: bool): (r: State)
    ensures r == s.(main := r.main, fault := r.fault, maxAge := r.maxAge, clientOpen := r.clientOpen,
                    refresherRunning := r.refresherRunning, refresher := r.refresher)
  {
    if s.refresherRunning then s.(main := StartingSenders)
    else
      var s1 := s.(maxAge := maxAge, fault := s.fault || s.clientOpen);
      if !clientOk || !threadOk then s1.(main := EventLoop, clientOpen := false)
      else s1.(main := StartingSenders, clientOpen := true, refresherRunning := true,
               refresher := Refresher(Checking, NO_REQUEST, RefreshLoop.START, [], []))
  }

  /** send_udp_message up to its loop. Clearing thread_count would forget running senders, and a
      second allocation would lose the first. */
  ghost function ListInterfacesStep(s: State, found: Option<seq<Interface>>, hasMemory: bool,
                                    stored: seq<string>): (r: State)
    ensures r == s.(main := r.main, fault := r.fault, threadIds := r.threadIds, capacity := r.capacity,
                    patterns := r.patterns)
  {
    var s1 := s.(fault := s.fault || s.threadIds != [], threadIds := []);
    if found.None? || InetCount(found.value) == 0 then s1.(main := EventLoop)
    else
      var s2 := s1.(fault := s1.fault || s.capacity.Some?);
      if !hasMemory then s2.(main := EventLoop, capacity := None)
      else s2.(main := Spawning(found.value), capacity := Some(InetCount(found.value)), patterns := stored)
  }

  /** One turn of the loop of send_udp_message; thread_ids must have room for the new thread. */
  ghost function NextInterfaceStep(s: State, taskOk: bool, threadOk: bool): (r: State)
    requires s.main.Spawning? && s.main.rest != []
    ensures r == s.(main := r.main, fault := r.fault, heap := r.heap, senders := r.senders, threadIds := r.threadIds)
    ensures r.senders == s.senders || r.senders == s.senders + [NewSender(s.main.rest[0].ip, s.base, s.loadGuid)]
    ensures r.heap in {s.heap, AddThread(s.heap)}
  {
    var face := s.main.rest[0];
    var s1 := s.(main := Spawning(s.main.rest[1..]));
    if !face.inet || !Patterns.Accepts(s.patterns, face.ip) || !taskOk || !threadOk then s1
    else s1.(heap := AddThread(s.heap),
             senders := s.senders + [NewSender(face.ip, s.base, s.loadGuid)],
             threadIds := s.threadIds + [|s.senders|],
             fault := s.fault || s.capacity.None? || |s.threadIds| >= s.capacity.value)
  }

  /** The end of cleanup_threads. */
  ghost function FreePatternsStep(s: State): (r: State)
    requires s.main.FreeingPatterns?
    ensures r == s.(patterns := [], main := EventLoop, loaded := r.loaded, subscribed := r.subscribed)
    ensures r.published == s.published && r.heap == s.heap
  {
    var s1 := s.(patterns := [], main := EventLoop);
    if s.main.fate.Keep? then s1 else s1.(loaded := false, subscribed := false)
  }

  /** pod_cache_release of the list pod_cache_stop took out. */
  ghost function ReleaseCurrentStep(s: State): (r: State)
    requires s.main.ReleasingList? && CanRelease(s.heap, MAIN)
    ensures r.published == s.published && r.heap == ReleaseStep(s.heap, MAIN)
  {
    var h := ReleaseStep(s.heap, MAIN);
    s.(heap := h, main := if h.holds[MAIN].Nothing? then FreeingPatterns(s.main.fate) else s.main)
  }

  /** The event handlers, start_broadcasting and cleanup_threads. */
  ghost function MainStep(w: World, s: State, a: MainAction): (r: State)
    requires MainReady(s, a) && MainFits(s, a)
    ensures r.published == s.published
    ensures !a.DropCurrent? ==> r.heap.current == s.heap.current
  {
    match a
    case Load(curlOk, listening, hooked) => LoadStep(s, curlOk, listening, hooked)
    case RefuseLoad => s.(guid := s.guid + 1, main := RaisingFlag(Keep))
    case Cron => CronStep(s)
    case Shutdown => s.(main := RaisingFlag(Keep))
    case Unload => s.(main := RaisingFlag(Remove))
    case StartCache(clientOk, threadOk) => StartCacheStep(s, w.config.maxAge, clientOk, threadOk)
    case ListInterfaces(found, hasMemory) =>
      ListInterfacesStep(s, found, hasMemory, Patterns.Stored(s.patterns, w.selected))
    case NextInterface(taskOk, threadOk) => NextInterfaceStep(s, taskOk, threadOk)
    case EndSpawning => s.(main := EventLoop)
    case RaiseFlag => s.(closing := true, main := JoiningSenders(0, s.main.fate))
    case JoinSender => s.(main := JoiningSenders(s.main.k + 1, s.main.fate))
    case FreeThreadIds => s.(threadIds := [], capacity := None, main := JoiningRefresher(s.main.fate))
    case JoinRefresher => s.(refresherRunning := false, main := DestroyingClient(s.main.fate))
    case DestroyClient => s.(clientOpen := false, main := DroppingList(s.main.fate))
    case DropCurrent => s.(heap := Swap(s.heap, MAIN), base := |s.published|, main := ReleasingList(s.main.fate))
    case ReleaseCurrent => ReleaseCurrentStep(s)
    case FreePatterns => FreePatternsStep(s)
  }

  // ---------- Runs ----------

  datatype Action =
    | Tick(seconds: nat)
    | OfSender(i: nat, sender: SenderAction)
    | OfRefresher(refresher: RefresherAction)
    | OfMain(main: MainAction)

  ghost predicate Ready(s: State, a: Action) {
    match a
    case Tick(_) => true
    case OfSender(i, b) => SenderReady(s, i, b)
    case OfRefresher(b) => RefresherReady(s, b)
    case OfMain(b) => MainReady(s, b)
  }

  ghost predicate Fits(s: State, a: Action)
    requires Ready(s, a)
  {
    match a
    case Tick(_) => true
    case OfSender(i, b) => SenderFits(s, i, b)
    case OfRefresher(b) => RefresherFits(s, b)
    case OfMain(b) => MainFits(s, b)
  }

  ghost function Next(w: World, s: State, a: Action): State
    requires Ready(s, a) && Fits(s, a)
  {
    match a
    case Tick(seconds) => s.(clock := s.clock + seconds)
    case OfSender(i, b) => SenderStep(w, s, i, b)
    case OfRefresher(b) => RefresherStep(w, s, b)
    case OfMain(b) => MainStep(w, s, b)
  }

  /** `run` is a sequence of steps the module can take from `s`. */
  ghost predicate CanRun(w: World, s: State, run: seq<Action>)
    decreases |run|
  {
    run == [] || (Ready(s, run[0]) && Fits(s, run[0]) && CanRun(w, Next(w, s, run[0]), run[1..]))
  }

  ghost function Final(w: World, s: State, run: seq<Action>): State
    requires CanRun(w, s, run)
    decreases |run|
  {
    if run == [] then s else Final(w, Next(w, s, run[0]), run[1..])
  }

  /** The module can get into state `s`. */
  ghost predicate Reachable(w: World, s: State) {
    exists run :: CanRun(w, INITIAL, run) && Final(w, INITIAL, run) == s
  }
}
