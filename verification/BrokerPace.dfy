/** How often things happen: in every run requests keep the distance the backoff asks for, and the
    announcements of one sender the interval. Only the closing flag cuts a sleep short. */
module BrokerPace {
  import opened Settings
  import opened Broker
  import opened BrokerFrame
  import opened BrokerInvariant
  import opened BrokerRuns
  import opened RefreshLoop
  import Backoff

  // ---------- The refresher ----------

  ghost predicate RefresherPace(c: Config, s: State) {
    var r := s.refresher;
    && Unhurried(c, r.rounds)
    && match r.pc
       case Ended => true
       case Pausing(until) => r.rounds != [] && until == NextTurn(c, r.rounds)
       case Checking => s.closing || Due(c, r.rounds, s.clock)
       case CheckingExpiry(now) => Due(c, r.rounds, now) && now <= s.clock
       case Logging(now, _, _) => Due(c, r.rounds, now) && now <= s.clock
       case Swapping(_, receivedAt) => Due(c, r.rounds, receivedAt) && receivedAt <= s.clock
       case ReleasingOld(_, receivedAt) => Due(c, r.rounds, receivedAt) && receivedAt <= s.clock
       case Published(_, receivedAt) => Due(c, r.rounds, receivedAt) && receivedAt <= s.clock
       case _ => Due(c, r.rounds, s.clock)
  }

  /** A turn ends in a sleep of the length its outcome asks for. */
  lemma TurnEnds(c: Config, s: State, s': State, round: Round)
    requires Unhurried(c, s.refresher.rounds) && Due(c, s.refresher.rounds, Judged(round))
    requires Judged(round) <= AsleepAt(round)
    requires s'.refresher.rounds == s.refresher.rounds + [round]
    requires s'.refresher.pc == Pausing(AsleepAt(round) + if round.Good? then c.refresh else
               Backoff.Delay(c.refresh, Run(c.maxAge, s.refresher.rounds).locals.failures + 1))
    ensures RefresherPace(c, s')
  {
    TurnPace(c, s.refresher.rounds, round);
  }

  lemma NoteSuccessNext(w: World, s: State)
    requires RefresherReady(s, NoteSuccess)
    ensures var r, r' := s.refresher, RefresherNext(w, s, NoteSuccess);
            && r'.rounds == r.rounds + [Good(r.pc.count, r.pc.receivedAt, s.clock)]
            && r'.pc == Pausing(s.clock + w.config.refresh)
  {}

  lemma NoteFailureNext(w: World, s: State)
    requires RefresherReady(s, NoteFailure) && RefresherFits(s, NoteFailure)
    ensures var r, r' := s.refresher, RefresherNext(w, s, NoteFailure);
            && r'.rounds == r.rounds + [Bad(r.pc.now, r.pc.checkedAt, s.clock)]
            && r'.pc == Pausing(s.clock + Backoff.Delay(w.config.refresh, r.locals.failures + 1))
  {}

  lemma NoteSuccessPace(w: World, s: State)
    requires RefresherReady(s, NoteSuccess) && RefresherPace(w.config, s)
    ensures RefresherPace(w.config, RefresherStep(w, s, NoteSuccess))
  {
    var r := s.refresher;
    NoteSuccessNext(w, s);
    TurnEnds(w.config, s, RefresherStep(w, s, NoteSuccess), Good(r.pc.count, r.pc.receivedAt, s.clock));
  }

  lemma NoteFailurePace(w: World, s: State)
    requires RefresherReady(s, NoteFailure) && RefresherFits(s, NoteFailure) && RefresherPace(w.config, s)
    requires Run(w.config.maxAge, s.refresher.rounds).locals == s.refresher.locals
    ensures RefresherPace(w.config, RefresherStep(w, s, NoteFailure))
  {
    var r := s.refresher;
    NoteFailureNext(w, s);
    TurnEnds(w.config, s, RefresherStep(w, s, NoteFailure), Bad(r.pc.now, r.pc.checkedAt, s.clock));
  }

  lemma RefresherStepPace(w: World, s: State, a: RefresherAction)
    requires RefresherReady(s, a) && RefresherFits(s, a) && RefresherPace(w.config, s)
    requires Run(w.config.maxAge, s.refresher.rounds).locals == s.refresher.locals
    ensures RefresherPace(w.config, RefresherStep(w, s, a))
  {
    if a.NoteSuccess? {
      NoteSuccessPace(w, s);
    } else if a.NoteFailure? {
      NoteFailurePace(w, s);
    }
  }

  // ---------- The senders ----------

  /** An `up` pass comes at least one interval after the pass before it. */
  ghost predicate Spaced(interval: int, passes: seq<Pass>) {
    forall k :: 0 < k < |passes| && !passes[k].down ==> passes[k].at >= passes[k - 1].at + interval
  }

  ghost predicate IntervalOver(interval: int, passes: seq<Pass>, t: int) {
    passes == [] || t >= passes[|passes| - 1].at + interval
  }

  ghost predicate SenderPace(interval: int, x: Sender, closing: bool, clock: int) {
    && Spaced(interval, x.passes)
    && match x.pc
       case FormattingDown => x.passes == []
       case FormattingUp => x.passes == []
       case Top => closing || IntervalOver(interval, x.passes, clock)
       case Acquiring => x.closing || IntervalOver(interval, x.passes, clock)
       case Sending => x.pass.down || IntervalOver(interval, x.passes, x.pass.at)
       case Sleeping(until) => IntervalOver(interval, x.passes, until) && until <= clock + interval
       case _ => true
  }

  lemma SenderStepPace(w: World, s: State, i: nat, a: SenderAction)
    requires SenderReady(s, i, a) && SenderFits(s, i, a)
    requires SenderPace(w.config.interval, s.senders[i], s.closing, s.clock)
    requires forall k :: 0 <= k < |s.senders[i].passes| ==> s.senders[i].passes[k].at <= s.clock
    ensures SenderPace(w.config.interval, SenderNext(w, s, i, a), s.closing, s.clock)
  {}

  // ---------- Runs ----------

  ghost predicate Pace(w: World, s: State) {
    && RefresherPace(w.config, s)
    && forall i :: 0 <= i < |s.senders| ==> SenderPace(w.config.interval, s.senders[i], s.closing, s.clock)
  }

  /** Nothing the other threads' pace depends on has moved. */
  predicate Undisturbed(s: State, s': State) {
    s'.clock == s.clock && s'.refresher == s.refresher && s'.senders == s.senders && (s.closing ==> s'.closing)
  }

  lemma UndisturbedPace(w: World, s: State, s': State)
    requires Pace(w, s) && Undisturbed(s, s')
    ensures Pace(w, s')
  {}

  /** Only a load takes the flag down, when no thread is left. */
  lemma LoadPace(w: World, s: State, curlOk: bool, listening: bool, hooked: bool)
    requires Quiet(s) && Pace(w, s)
    ensures Pace(w, LoadStep(s, curlOk, listening, hooked))
  {}

  lemma StartCachePace(w: World, s: State, maxAge: int, clientOk: bool, threadOk: bool)
    requires Pace(w, s)
    ensures Pace(w, StartCacheStep(s, maxAge, clientOk, threadOk))
  {}

  lemma NextInterfacePace(w: World, s: State, taskOk: bool, threadOk: bool)
    requires Pace(w, s) && s.main.Spawning? && s.main.rest != []
    ensures Pace(w, NextInterfaceStep(s, taskOk, threadOk))
  {}

  lemma MainStepPace(w: World, s: State, a: MainAction)
    requires MAIN < |s.heap.holds| && MainOk(s) && Pace(w, s) && MainReady(s, a) && MainFits(s, a)
    ensures Pace(w, MainStep(w, s, a))
  {
    if a.Load? {
      LoadPace(w, s, a.curlOk, a.listening, a.hooked);
    } else if a.StartCache? {
      StartCachePace(w, s, w.config.maxAge, a.clientOk, a.threadOk);
    } else if a.NextInterface? {
      NextInterfacePace(w, s, a.taskOk, a.threadOk);
    } else {
      MainLeaves(w, s, a);
      UndisturbedPace(w, s, MainStep(w, s, a));
    }
  }

  lemma SenderMovesPace(w: World, s: State, i: nat, a: SenderAction)
    requires Pace(w, s) && SenderReady(s, i, a) && SenderFits(s, i, a)
    requires forall k :: 0 <= k < |s.senders[i].passes| ==> s.senders[i].passes[k].at <= s.clock
    ensures Pace(w, SenderStep(w, s, i, a))
  {
    SenderStepPace(w, s, i, a);
  }

  lemma RefresherMovesPace(w: World, s: State, a: RefresherAction)
    requires Pace(w, s) && RefresherReady(s, a) && RefresherFits(s, a)
    requires Run(w.config.maxAge, s.refresher.rounds).locals == s.refresher.locals
    ensures Pace(w, RefresherStep(w, s, a))
  {
    RefresherStepPace(w, s, a);
  }

  lemma StepPace(w: World, s: State, a: Action)
    requires Inv(w, s) && Pace(w, s) && Ready(s, a) && Fits(s, a)
    ensures Pace(w, Next(w, s, a))
  {
    if a.OfSender? {
      assert SenderOk(w, s, a.i);
      SenderMovesPace(w, s, a.i, a.sender);
    } else if a.OfRefresher? {
      RefresherMovesPace(w, s, a.refresher);
    } else if a.OfMain? {
      MainStepPace(w, s, a.main);
    }
  }

  lemma {:induction false} RunPace(w: World, s: State, run: seq<Action>)
    requires Inv(w, s) && Pace(w, s) && CanRun(w, s, run)
    ensures Pace(w, Final(w, s, run))
    decreases |run|
  {
    if run != [] {
      StepKeeps(w, s, run[0]);
      StepPace(w, s, run[0]);
      RunPace(w, Next(w, s, run[0]), run[1..]);
    }
  }

  /** A thread that sleeps does so for no longer than it should: the refresher until the end of the
      pause its turns ask for, a sender for at most one interval from now. */
  lemma SleepsAreAsLongAsTheyShould(w: World, s: State, i: nat)
    requires Reachable(w, s)
    ensures s.refresher.pc.Pausing? ==>
              s.refresher.rounds != [] && s.refresher.pc.until == NextTurn(w.config, s.refresher.rounds)
    ensures i < |s.senders| && s.senders[i].pc.Sleeping? ==> s.senders[i].pc.until <= s.clock + w.config.interval
  {
    ReachablePace(w, s);
  }

  lemma ReachablePace(w: World, s: State)
    requires Reachable(w, s)
    ensures Pace(w, s)
  {
    var run :| CanRun(w, INITIAL, run) && Final(w, INITIAL, run) == s;
    InitialInv(w);
    RunPace(w, INITIAL, run);
  }

  /** In every run, however the threads are scheduled: between two turns the refresher sleeps as long
      as the number of failures so far asks for, and a sender's `up` passes are at least the interval
      apart; only its `down` pass may come sooner. */
  lemma NothingIsHurried(w: World, s: State, i: nat)
    requires Reachable(w, s)
    ensures Unhurried(w.config, s.refresher.rounds)
    ensures i < |s.senders| ==> Spaced(w.config.interval, s.senders[i].passes)
  {
    ReachablePace(w, s);
  }

  /** And it wakes when its time has come: no thread is ever stuck, flag or no flag. A sender can take a
      step unless it sleeps with time left, and so can the refresher. */
  lemma ThreadsMoveOn(w: World, s: State, i: nat)
    requires Reachable(w, s)
    ensures i < |s.senders| && !s.senders[i].pc.Exited?
            && (s.senders[i].pc.Sleeping? ==> s.closing || s.clock >= s.senders[i].pc.until) ==>
              exists a :: SenderReady(s, i, a) && SenderFits(s, i, a)
    ensures !s.refresher.pc.Ended?
            && (s.refresher.pc.Pausing? ==> s.closing || s.clock >= s.refresher.pc.until) ==>
              exists a :: RefresherReady(s, a) && RefresherFits(s, a)
  {
    ReachableInv(w, s);
    if i < |s.senders| && !s.senders[i].pc.Exited?
       && (s.senders[i].pc.Sleeping? ==> s.closing || s.clock >= s.senders[i].pc.until) {
      var a := SenderStepAtHand(s, i);
      AlwaysFits(w, s, OfSender(i, a));
    }
    if !s.refresher.pc.Ended? && (s.refresher.pc.Pausing? ==> s.closing || s.clock >= s.refresher.pc.until) {
      var a := RefresherStepAtHand(s);
      AlwaysFits(w, s, OfRefresher(a));
    }
  }

  lemma SenderStepAtHand(s: State, i: nat) returns (a: SenderAction)
    requires i < |s.senders| && !s.senders[i].pc.Exited?
    requires s.senders[i].pc.Sleeping? ==> s.closing || s.clock >= s.senders[i].pc.until
    ensures SenderReady(s, i, a)
  {
    var x := s.senders[i];
    match x.pc
    case FormattingDown => a := FormatDown;
    case FormattingUp => a := FormatUp;
    case Top => a := ReadFlag;
    case Acquiring => a := AcquireList;
    case Sending => a := if x.i < |Target(s.heap, x)| then Send(true) else Report;
    case Releasing => a := ReleaseSnapshot;
    case PassDone => a := EndPass;
    case Sleeping(_) => a := WakeUp;
  }

  lemma RefresherStepAtHand(s: State) returns (a: RefresherAction)
    requires !s.refresher.pc.Ended?
    requires s.refresher.pc.Pausing? ==> s.closing || s.clock >= s.refresher.pc.until
    ensures RefresherReady(s, a)
  {
    match s.refresher.pc
    case Checking => a := CheckFlag;
    case Fetching => a := FetchPods(NO_REQUEST);
    case HasFetched => a := CheckFlagAgain;
    case Dropping(_) => a := FreeFetched;
    case Publishing => a := Allocate(true);
    case Swapping(_, _) => a := Exchange;
    case ReleasingOld(_, _) => a := ReleaseOld;
    case Published(_, _) => a := NoteSuccess;
    case Failed => a := ReadClock;
    case CheckingExpiry(_) => a := CheckExpiry;
    case Logging(_, _, _) => a := NoteFailure;
    case Pausing(_) => a := EndPause;
  }
}
