/** Every request comes to one turn of the refresh loop, and between two requests lies a sleep: the
    turns of the timed loop, read off the run. */
module BrokerTurns {
  import opened Prelude
  import opened SnapshotHeap
  import opened Broker
  import opened BrokerFrame
  import opened BrokerInvariant
  import opened BrokerRefresher
  import opened BrokerRuns
  import opened BrokerSenders
  import opened BrokerWalk
  import opened RefreshLoop
  import PodList

  /** What a request comes to: a list of so many pods, stamped at some instant, or a failure. */
  datatype Outcome = Listed(count: nat, receivedAt: int) | Missed

  /** A note-taker beside the module, who sees the actions but not the state. Since the refresher was
      last started: the requests made, those whose second look at the flag found it down, what these
      came to, and the turns with the instants at which the clock was read. */
  datatype Notes = Notes(
    clock: int,
    closing: bool,
    requests: nat,
    looks: nat,
    fetched: nat,             // pods in the answer to the latest request; 0 for a failure
    outcomes: seq<Outcome>,
    now: int,
    checkedAt: int,
    turns: seq<Round>)

  const NO_NOTES := Notes(0, false, 0, 0, 0, [], 0, 0, [])

  ghost function NoteRefresher(w: World, n: Notes, a: RefresherAction): Notes {
    match a
    case FetchPods(q) =>
      n.(requests := n.requests + 1, fetched := if w.answer(q).Some? then |w.answer(q).value| else 0)
    case CheckFlagAgain =>
      if n.closing then n
      else n.(looks := n.looks + 1, outcomes := n.outcomes + if n.fetched == 0 then [Missed] else [])
    case Allocate(ok) => n.(outcomes := n.outcomes + [if ok then Listed(n.fetched, n.clock) else Missed])
    case ReadClock => n.(now := n.clock)
    case CheckExpiry => n.(checkedAt := n.clock)
    case NoteFailure => n.(turns := n.turns + [Bad(n.now, n.checkedAt, n.clock)])
    case NoteSuccess =>
      if n.outcomes == [] || n.outcomes[|n.outcomes| - 1].Missed? then n
      else
        var last := n.outcomes[|n.outcomes| - 1];
        n.(turns := n.turns + [Good(last.count, last.receivedAt, n.clock)])
    case _ => n
  }

  ghost function NoteMain(n: Notes, a: MainAction): Notes {
    if a.RaiseFlag? then n.(closing := true)
    else if a.Load? then n.(closing := false)
    else if a.StartCache? && a.clientOk && a.threadOk then NO_NOTES.(clock := n.clock, closing := n.closing)
    else n
  }

  ghost function Note(w: World, n: Notes, a: Action): Notes {
    match a
    case Tick(seconds) => n.(clock := n.clock + seconds)
    case OfRefresher(b) => NoteRefresher(w, n, b)
    case OfMain(b) => NoteMain(n, b)
    case OfSender(_, _) => n
  }

  ghost function Noted(w: World, n: Notes, run: seq<Action>): Notes
    decreases |run|
  {
    if run == [] then n else Noted(w, Note(w, n, run[0]), run[1..])
  }

  // ---------- How the notes and the refresher agree ----------

  /** A turn shows what its request came to. */
  predicate Shows(r: Round, o: Outcome) {
    match r
    case Good(count, receivedAt, _) => o == Listed(count, receivedAt)
    case Bad(_, _, _) => o == Missed
  }

  ghost predicate AllShow(turns: seq<Round>, outcomes: seq<Outcome>) {
    |turns| <= |outcomes| && forall k :: 0 <= k < |turns| ==> Shows(turns[k], outcomes[k])
  }

  /** The outcome of the turn in progress, once it is decided. */
  function InProgress(pc: RefresherPc): seq<Outcome> {
    match pc
    case Dropping(why) => if why.OnFailure? then [Missed] else []
    case Failed => [Missed]
    case CheckingExpiry(_) => [Missed]
    case Logging(_, _, _) => [Missed]
    case Swapping(count, receivedAt) => [Listed(count, receivedAt)]
    case ReleasingOld(count, receivedAt) => [Listed(count, receivedAt)]
    case Published(count, receivedAt) => [Listed(count, receivedAt)]
    case _ => []
  }

  /** The outcomes are those of the turns so far, and of the one in progress. */
  ghost predicate Decided(r: Refresher, outcomes: seq<Outcome>) {
    && AllShow(r.rounds, outcomes)
    && outcomes[|r.rounds|..] == InProgress(r.pc)
  }

  /** How many pods the list in the refresher's hand has. */
  ghost function InHand(s: State): nat {
    if HoldsList(s.heap) && HoldInRange(s.heap, s.heap.holds[REFRESHER])
    then |s.heap.lists[s.heap.holds[REFRESHER].list].ips|
    else 0
  }

  /** Every request got its second look at the flag, but the one under way and one that was given up. */
  predicate LookedAt(pc: RefresherPc, requests: nat, looks: nat) {
    if pc.HasFetched? || (pc.Dropping? && pc.why.OnClosing?) then requests == looks + 1
    else if pc.Ended? then looks <= requests <= looks + 1
    else requests == looks
  }

  ghost predicate Agrees(s: State, n: Notes) {
    var r := s.refresher;
    && n.clock == s.clock && n.closing == s.closing
    && n.turns == r.rounds
    && Decided(r, n.outcomes)
    && LookedAt(r.pc, n.requests, n.looks)
    && n.looks == |n.outcomes| + (if r.pc.Publishing? then 1 else 0)
    && (r.pc.HasFetched? || r.pc.Publishing? ==> n.fetched == InHand(s))
    && (r.pc.CheckingExpiry? ==> n.now == r.pc.now)
    && (r.pc.Logging? ==> n.now == r.pc.now && n.checkedAt == r.pc.checkedAt)
  }

  lemma OthersAgree(s: State, s': State, n: Notes, t: nat)
    requires Agrees(s, n) && HeapFrame(s.heap, s'.heap, t) && t != REFRESHER && REFRESHER < |s.heap.holds|
    requires s'.refresher == s.refresher
    ensures Agrees(s', n.(clock := s'.clock, closing := s'.closing))
  {
    assert HoldInRange(s.heap, s.heap.holds[REFRESHER]);
  }

  lemma FetchAgrees(w: World, s: State, n: Notes, q: PodList.Request)
    requires Alone(w, s) && Agrees(s, n) && RefresherReady(s, FetchPods(q)) && RefresherFits(s, FetchPods(q))
    ensures Agrees(RefresherStep(w, s, FetchPods(q)), NoteRefresher(w, n, FetchPods(q)))
  {
    RefresherStepKeepsHeap(w, s, FetchPods(q));
  }

  /** The second look decides a failed or empty answer at once: it is a failed turn. */
  lemma LookAgrees(w: World, s: State, n: Notes)
    requires Alone(w, s) && Agrees(s, n) && RefresherReady(s, CheckFlagAgain) && RefresherFits(s, CheckFlagAgain)
    ensures Agrees(RefresherStep(w, s, CheckFlagAgain), NoteRefresher(w, n, CheckFlagAgain))
  {
    if HoldsList(s.heap) {
      assert HoldInRange(s.heap, s.heap.holds[REFRESHER]);
    }
  }

  lemma AllocateAgrees(w: World, s: State, n: Notes, ok: bool)
    requires Alone(w, s) && Agrees(s, n) && RefresherReady(s, Allocate(ok)) && RefresherFits(s, Allocate(ok))
    ensures Agrees(RefresherStep(w, s, Allocate(ok)), NoteRefresher(w, n, Allocate(ok)))
  {
    assert HoldInRange(s.heap, s.heap.holds[REFRESHER]);
  }

  lemma ShowsNext(turns: seq<Round>, outcomes: seq<Outcome>, r: Round, o: Outcome)
    requires AllShow(turns, outcomes) && outcomes[|turns|..] == [o] && Shows(r, o)
    ensures AllShow(turns + [r], outcomes) && outcomes[|turns + [r]|..] == []
    ensures outcomes[|outcomes| - 1] == o
  {
    assert outcomes[|turns|..][0] == o;
  }

  lemma NoteSuccessAgrees(w: World, s: State, n: Notes)
    requires Agrees(s, n) && RefresherReady(s, NoteSuccess)
    ensures Agrees(RefresherStep(w, s, NoteSuccess), NoteRefresher(w, n, NoteSuccess))
  {
    var r := s.refresher;
    ShowsNext(r.rounds, n.outcomes, Good(r.pc.count, r.pc.receivedAt, s.clock), Listed(r.pc.count, r.pc.receivedAt));
  }

  lemma NoteFailureAgrees(w: World, s: State, n: Notes)
    requires Agrees(s, n) && RefresherReady(s, NoteFailure) && RefresherFits(s, NoteFailure)
    ensures Agrees(RefresherStep(w, s, NoteFailure), NoteRefresher(w, n, NoteFailure))
  {
    var r := s.refresher;
    ShowsNext(r.rounds, n.outcomes, Bad(r.pc.now, r.pc.checkedAt, s.clock), Missed);
  }

  lemma FlagStepsAgree(w: World, s: State, n: Notes, a: RefresherAction)
    requires Agrees(s, n) && RefresherReady(s, a) && RefresherFits(s, a)
    requires a in {CheckFlag, FreeFetched, EndPause}
    ensures Agrees(RefresherStep(w, s, a), NoteRefresher(w, n, a))
  {}

  lemma PublishStepsAgree(w: World, s: State, n: Notes, a: RefresherAction)
    requires Agrees(s, n) && RefresherReady(s, a) && RefresherFits(s, a)
    requires a in {Exchange, ReleaseOld}
    ensures Agrees(RefresherStep(w, s, a), NoteRefresher(w, n, a))
  {}

  lemma ClockStepsAgree(w: World, s: State, n: Notes, a: RefresherAction)
    requires Agrees(s, n) && RefresherReady(s, a) && RefresherFits(s, a)
    requires a in {ReadClock, CheckExpiry}
    ensures Agrees(RefresherStep(w, s, a), NoteRefresher(w, n, a))
  {}

  lemma RefresherAgrees(w: World, s: State, n: Notes, a: RefresherAction)
    requires Alone(w, s) && Agrees(s, n) && RefresherReady(s, a) && RefresherFits(s, a)
    ensures Agrees(RefresherStep(w, s, a), NoteRefresher(w, n, a))
  {
    match a
    case FetchPods(q) => FetchAgrees(w, s, n, q);
    case CheckFlagAgain => LookAgrees(w, s, n);
    case Allocate(ok) => AllocateAgrees(w, s, n, ok);
    case NoteSuccess => NoteSuccessAgrees(w, s, n);
    case NoteFailure => NoteFailureAgrees(w, s, n);
    case CheckFlag => FlagStepsAgree(w, s, n, a);
    case FreeFetched => FlagStepsAgree(w, s, n, a);
    case EndPause => FlagStepsAgree(w, s, n, a);
    case Exchange => PublishStepsAgree(w, s, n, a);
    case ReleaseOld => PublishStepsAgree(w, s, n, a);
    case ReadClock => ClockStepsAgree(w, s, n, a);
    case CheckExpiry => ClockStepsAgree(w, s, n, a);
  }

  // ---------- Runs ----------

  lemma StartCacheAgrees(w: World, s: State, n: Notes, clientOk: bool, threadOk: bool)
    requires Agrees(s, n) && s.refresher.pc.Ended? && !s.refresherRunning
    ensures Agrees(StartCacheStep(s, w.config.maxAge, clientOk, threadOk), NoteMain(n, StartCache(clientOk, threadOk)))
  {}

  lemma MainAgrees(w: World, s: State, n: Notes, a: MainAction)
    requires HeapOk(s.heap) && REFRESHER < |s.heap.holds| && MainOk(s) && Agrees(s, n)
    requires MainReady(s, a) && MainFits(s, a)
    ensures Agrees(MainStep(w, s, a), NoteMain(n, a))
  {
    if a.StartCache? {
      StartCacheAgrees(w, s, n, a.clientOk, a.threadOk);
    } else {
      MainMovesHeap(w, s, a);
      if a.NextInterface? {
        StartLeaves(w, s, a);
      } else {
        MainLeaves(w, s, a);
      }
      OthersAgree(s, MainStep(w, s, a), n, MAIN);
    }
  }

  lemma SenderAgrees(w: World, s: State, n: Notes, i: nat, a: SenderAction)
    requires HeapOk(s.heap) && |s.heap.holds| == |s.senders| + 2 && Agrees(s, n)
    requires SenderReady(s, i, a) && SenderFits(s, i, a)
    ensures Agrees(SenderStep(w, s, i, a), n)
  {
    StepKeepsHeap(s, i, a);
    OthersAgree(s, SenderStep(w, s, i, a), n, Place(i));
  }

  lemma StepAgrees(w: World, s: State, n: Notes, a: Action)
    requires Inv(w, s) && Agrees(s, n) && Ready(s, a) && Fits(s, a)
    ensures Agrees(Next(w, s, a), Note(w, n, a))
  {
    if a.OfSender? {
      SenderAgrees(w, s, n, a.i, a.sender);
    } else if a.OfRefresher? {
      RefresherAgrees(w, s, n, a.refresher);
    } else if a.OfMain? {
      MainAgrees(w, s, n, a.main);
    }
  }

  lemma {:induction false} RunAgrees(w: World, s: State, n: Notes, run: seq<Action>)
    requires Inv(w, s) && Agrees(s, n) && CanRun(w, s, run)
    ensures Agrees(Final(w, s, run), Noted(w, n, run))
    decreases |run|
  {
    if run != [] {
      StepKeeps(w, s, run[0]);
      StepAgrees(w, s, n, run[0]);
      RunAgrees(w, Next(w, s, run[0]), Note(w, n, run[0]), run[1..]);
    }
  }

  /** In every run, since the refresher was last started: every request whose second look found the
      flag down comes to exactly one turn, in order; the turn is good, with the count and the stamp of
      the list, if the answer was not empty and its snapshot could be allocated, and bad otherwise; its
      instants are those at which the clock was read. The only turn that may be missing is the one in
      progress, and the only request without a second look the one under way or the last of all. */
  lemma EveryRequestIsATurn(w: World, run: seq<Action>)
    requires CanRun(w, INITIAL, run)
    ensures var s, n := Final(w, INITIAL, run), Noted(w, NO_NOTES, run);
            && s.refresher.rounds == n.turns
            && AllShow(n.turns, n.outcomes)
            && n.outcomes[|n.turns|..] == InProgress(s.refresher.pc)
            && n.looks == |n.outcomes| + (if s.refresher.pc.Publishing? then 1 else 0)
            && LookedAt(s.refresher.pc, n.requests, n.looks)
  {
    InitialInv(w);
    RunAgrees(w, INITIAL, NO_NOTES, run);
  }

  /** The step behind it: with the flag down a request that brought no list has failed. */
  lemma NoListIsAFailure(w: World, s: State)
    requires Reachable(w, s) && RefresherReady(s, CheckFlagAgain) && !s.closing && InHand(s) == 0
    ensures RefresherFits(s, CheckFlagAgain)
    ensures RefresherNext(w, s, CheckFlagAgain).pc == if HoldsList(s.heap) then Dropping(OnFailure) else Failed
  {
    ReachableInv(w, s);
    if HoldsList(s.heap) {
      assert HoldInRange(s.heap, s.heap.holds[REFRESHER]);
    }
  }

  // ---------- Between two requests ----------

  predicate Requests(a: Action) {
    a.OfRefresher? && a.refresher.FetchPods?
  }

  predicate Rests(a: Action) {
    a.OfRefresher? && a.refresher.EndPause?
  }

  predicate StartsRefresher(a: Action) {
    a.OfMain? && a.main.StartCache?
  }

  /** The refresher was started or ended a pause since its last request. */
  predicate RestedAfter(before: bool, a: Action) {
    Rests(a) || StartsRefresher(a) || (before && !Requests(a))
  }

  predicate Rested(before: bool, run: seq<Action>)
    decreases |run|
  {
    if run == [] then before else Rested(RestedAfter(before, run[0]), run[1..])
  }

  ghost predicate RestOk(s: State, rested: bool) {
    s.refresher.pc.Checking? || s.refresher.pc.Fetching? ==> rested
  }

  lemma RefresherRests(w: World, s: State, a: RefresherAction, rested: bool)
    requires RestOk(s, rested) && RefresherReady(s, a) && RefresherFits(s, a)
    ensures RestOk(RefresherStep(w, s, a), RestedAfter(rested, OfRefresher(a)))
  {}

  lemma MainLeavesRefresher(w: World, s: State, a: MainAction)
    requires MainReady(s, a) && MainFits(s, a) && !a.StartCache?
    ensures MainStep(w, s, a).refresher == s.refresher
  {
    if a.NextInterface? {
      StartLeaves(w, s, a);
    } else {
      MainLeaves(w, s, a);
    }
  }

  lemma StepRests(w: World, s: State, a: Action, rested: bool)
    requires RestOk(s, rested) && Ready(s, a) && Fits(s, a)
    ensures RestOk(Next(w, s, a), RestedAfter(rested, a))
  {
    if a.OfRefresher? {
      RefresherRests(w, s, a.refresher, rested);
    } else if a.OfMain? && !a.main.StartCache? {
      MainLeavesRefresher(w, s, a.main);
    }
  }

  lemma {:induction false} RunRests(w: World, s: State, run: seq<Action>, rested: bool)
    requires RestOk(s, rested) && CanRun(w, s, run)
    ensures RestOk(Final(w, s, run), Rested(rested, run))
    decreases |run|
  {
    if run != [] {
      StepRests(w, s, run[0], rested);
      RunRests(w, Next(w, s, run[0]), run[1..], RestedAfter(rested, run[0]));
    }
  }

  lemma {:induction false} RestedMeans(run: seq<Action>)
    requires Rested(false, run)
    ensures exists n :: 0 <= n < |run| && (Rests(run[n]) || StartsRefresher(run[n]))
    decreases |run|
  {
    if Rests(run[0]) || StartsRefresher(run[0]) {
    } else {
      RestedMeans(run[1..]);
      var n :| 0 <= n < |run[1..]| && (Rests(run[1..][n]) || StartsRefresher(run[1..][n]));
      assert run[n + 1] == run[1..][n];
    }
  }

  lemma AfterRequest(w: World, run: seq<Action>, k: nat)
    requires CanRun(w, INITIAL, run) && k < |run| && Requests(run[k])
    ensures CanRun(w, INITIAL, run[..k + 1]) && Final(w, INITIAL, run[..k + 1]).refresher.pc.HasFetched?
  {
    RunSplit(w, INITIAL, run, k);
    RunSplit(w, INITIAL, run, k + 1);
    assert run[k..][0] == run[k];
    assert run[..k + 1] == run[..k] + [run[k]];
    RunAppend(w, INITIAL, run[..k], run[k]);
  }

  lemma RestedBefore(w: World, s: State, run: seq<Action>, m: nat)
    requires CanRun(w, s, run) && !s.refresher.pc.Checking? && !s.refresher.pc.Fetching?
    requires m < |run| && Requests(run[m])
    ensures Rested(false, run[..m])
  {
    RunSplit(w, s, run, m);
    RunRests(w, s, run[..m], false);
    assert run[m..][0] == run[m];
  }

  /** In every run, between two requests the refresher ended a pause, or was started anew. */
  lemma RequestsAreApart(w: World, run: seq<Action>, k: nat, m: nat)
    requires CanRun(w, INITIAL, run) && k < m < |run| && Requests(run[k]) && Requests(run[m])
    ensures exists n :: k < n < m && (Rests(run[n]) || StartsRefresher(run[n]))
  {
    RunSplit(w, INITIAL, run, k + 1);
    AfterRequest(w, run, k);
    var rest := run[k + 1..];
    RestedBefore(w, Final(w, INITIAL, run[..k + 1]), rest, m - k - 1);
    var between := rest[..m - k - 1];
    RestedMeans(between);
    var n :| 0 <= n < |between| && (Rests(between[n]) || StartsRefresher(between[n]));
    assert between[n] == run[k + 1 + n];
  }
}
