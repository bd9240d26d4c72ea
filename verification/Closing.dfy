/**
closing.c at the level of its mutex and condition variable: closing_begin against any number of
threads in closing_sleep. The rest of the model uses a sleep that is one step, "return when the flag
is up or the deadline has passed"; the last part shows that the code below refines it.
*/
module Closing {
  import opened Prelude

  datatype Why = SawFlag | TimedOut

  /** Where a thread is inside closing_sleep. `Waiting` is the wait set of the condition variable; a
      thread in it does not have the mutex. */
  datatype Pc =
    | Outside
    | Entering
    | Testing               // has the mutex, before the loop test
    | Waiting(notified: bool)
    | Waking(timedOut: bool)  // out of the wait set, wants the mutex back
    | Leaving(why: Why)       // has the mutex, past the loop
    | Returning

  /** A thread, and the deadline of the closing_sleep it is in. */
  datatype Sleeper = Sleeper(pc: Pc, deadline: int)

  /** Where the main thread is inside closing_begin. */
  datatype CloserPc = Idle | WantsLock | Storing | Broadcasting | Unlocking

  datatype Owner = Nobody | Thread(i: nat) | Closer

  datatype State = State(closing: bool, owner: Owner, clock: int, sleepers: seq<Sleeper>, closer: CloserPc)

  datatype Action =
    | Tick(seconds: nat)
    // closing_sleep
    | Sleep(i: nat, seconds: nat)
    | Lock(i: nat)
    | Test(i: nat)
    | Wake(i: nat, timedOut: bool)  // notified, spurious, or at the deadline
    | Relock(i: nat)
    | Unlock(i: nat)
    | Return(i: nat)
    // closing_begin
    | Begin
    | TakeLock
    | Store
    | Broadcast
    | GiveLock
    // closing_reset
    | Reset

  ghost predicate Ready(s: State, a: Action) {
    match a
    case Tick(_) => true
    case Sleep(i, _) => i < |s.sleepers| && s.sleepers[i].pc.Outside?
    case Lock(i) => i < |s.sleepers| && s.sleepers[i].pc.Entering? && s.owner.Nobody?
    case Test(i) => i < |s.sleepers| && s.sleepers[i].pc.Testing?
    case Wake(i, timedOut) =>
      i < |s.sleepers| && s.sleepers[i].pc.Waiting? && (timedOut ==> s.clock >= s.sleepers[i].deadline)
    case Relock(i) => i < |s.sleepers| && s.sleepers[i].pc.Waking? && s.owner.Nobody?
    case Unlock(i) => i < |s.sleepers| && s.sleepers[i].pc.Leaving?
    case Return(i) => i < |s.sleepers| && s.sleepers[i].pc.Returning?
    case Begin => s.closer.Idle?
    case TakeLock => s.closer.WantsLock? && s.owner.Nobody?
    case Store => s.closer.Storing?
    case Broadcast => s.closer.Broadcasting?
    case GiveLock => s.closer.Unlocking?
    // closing.h: called before any thread exists
    case Reset => s.closer.Idle? && forall i :: 0 <= i < |s.sleepers| ==> s.sleepers[i].pc.Outside?
  }

  ghost function Move(s: State, i: nat, pc: Pc): State
    requires i < |s.sleepers|
  {
    s.(sleepers := s.sleepers[i := s.sleepers[i].(pc := pc)])
  }

  function Notify(x: Sleeper): Sleeper {
    if x.pc.Waiting? then x.(pc := Waiting(true)) else x
  }

  ghost function Next(s: State, a: Action): State
    requires Ready(s, a)
  {
    match a
    case Tick(seconds) => s.(clock := s.clock + seconds)
    case Sleep(i, seconds) => s.(sleepers := s.sleepers[i := Sleeper(Entering, s.clock + seconds)])
    case Lock(i) => Move(s, i, Testing).(owner := Thread(i))
    case Test(i) =>
      if s.closing then Move(s, i, Leaving(SawFlag)) else Move(s, i, Waiting(false)).(owner := Nobody)
    case Wake(i, timedOut) => Move(s, i, Waking(timedOut))
    case Relock(i) =>
      Move(s, i, if s.sleepers[i].pc.timedOut then Leaving(TimedOut) else Testing).(owner := Thread(i))
    case Unlock(i) => Move(s, i, Returning).(owner := Nobody)
    case Return(i) => Move(s, i, Outside)
    case Begin => s.(closer := WantsLock)
    case TakeLock => s.(closer := Storing, owner := Closer)
    case Store => s.(closer := Broadcasting, closing := true)
    case Broadcast =>
      s.(closer := Unlocking,
         sleepers := seq(|s.sleepers|, i requires 0 <= i < |s.sleepers| => Notify(s.sleepers[i])))
    case GiveLock => s.(closer := Idle, owner := Nobody)
    case Reset => s.(closing := false)
  }

  function Start(threads: nat): State {
    State(false, Nobody, 0, seq(threads, i => Sleeper(Outside, 0)), Idle)
  }

  // ---------- The invariant ----------

  predicate HasMutex(pc: Pc) {
    pc.Testing? || pc.Leaving?
  }

  predicate CloserHasMutex(pc: CloserPc) {
    pc.Storing? || pc.Broadcasting? || pc.Unlocking?
  }

  /** The mutex has one owner, and it is the thread inside the critical section. */
  ghost predicate MutexOk(s: State) {
    && (forall i :: 0 <= i < |s.sleepers| ==> (HasMutex(s.sleepers[i].pc) <==> s.owner == Thread(i)))
    && (CloserHasMutex(s.closer) <==> s.owner == Closer)
    && (s.owner.Thread? ==> s.owner.i < |s.sleepers|)
  }

  /** A thread past the loop has seen the flag or passed its deadline. */
  ghost predicate ReasonOk(s: State, x: Sleeper) {
    match x.pc
    case Waking(timedOut) => timedOut ==> s.clock >= x.deadline
    case Leaving(why) => if why.SawFlag? then s.closing else s.clock >= x.deadline
    case Returning => s.closing || s.clock >= x.deadline
    case _ => true
  }

  /** Nobody who checked the flag before it went up is left in the wait set unnotified. */
  ghost predicate AllNotified(s: State) {
    forall i :: 0 <= i < |s.sleepers| && s.sleepers[i].pc.Waiting? ==> s.sleepers[i].pc.notified
  }

  ghost predicate Inv(s: State) {
    && MutexOk(s)
    && (forall i :: 0 <= i < |s.sleepers| ==> ReasonOk(s, s.sleepers[i]))
    && (s.closing && !s.closer.Broadcasting? ==> AllNotified(s))
    && (s.closer.Broadcasting? || s.closer.Unlocking? ==> s.closing)
  }

  lemma MutexKeeps(s: State, a: Action)
    requires MutexOk(s) && Ready(s, a)
    ensures MutexOk(Next(s, a))
  {}

  lemma ReasonsKeep(s: State, a: Action)
    requires Inv(s) && Ready(s, a)
    ensures forall i :: 0 <= i < |Next(s, a).sleepers| ==> ReasonOk(Next(s, a), Next(s, a).sleepers[i])
  {
    var s' := Next(s, a);
    forall i | 0 <= i < |s'.sleepers|
      ensures ReasonOk(s', s'.sleepers[i])
    {
      assert ReasonOk(s, s.sleepers[i]);
    }
  }

  lemma StepKeeps(s: State, a: Action)
    requires Inv(s) && Ready(s, a)
    ensures Inv(Next(s, a))
  {
    MutexKeeps(s, a);
    ReasonsKeep(s, a);
  }

  ghost predicate CanRun(s: State, run: seq<Action>)
    decreases |run|
  {
    run == [] || (Ready(s, run[0]) && CanRun(Next(s, run[0]), run[1..]))
  }

  ghost function Final(s: State, run: seq<Action>): State
    requires CanRun(s, run)
    decreases |run|
  {
    if run == [] then s else Final(Next(s, run[0]), run[1..])
  }

  lemma {:induction false} RunKeeps(s: State, run: seq<Action>)
    requires Inv(s) && CanRun(s, run)
    ensures Inv(Final(s, run))
    decreases |run|
  {
    if run != [] {
      StepKeeps(s, run[0]);
      RunKeeps(Next(s, run[0]), run[1..]);
    }
  }

  /** No lost wake-up: in every run, whenever the flag is up and the mutex free, no thread is left
      unnotified in the wait set. */
  lemma NoLostWakeUp(threads: nat, run: seq<Action>, i: nat)
    requires CanRun(Start(threads), run)
    requires var s := Final(Start(threads), run);
             s.closing && s.owner.Nobody? && i < |s.sleepers| && s.sleepers[i].pc.Waiting?
    ensures Final(Start(threads), run).sleepers[i].pc.notified
  {
    RunKeeps(Start(threads), run);
  }

  /** closing_sleep returns only when the flag is up or its deadline has passed, whatever spurious
      wake-ups there were. */
  lemma ReturnsForAReason(threads: nat, run: seq<Action>, i: nat)
    requires CanRun(Start(threads), run)
    requires Ready(Final(Start(threads), run), Return(i))
    ensures var s := Final(Start(threads), run);
            s.closing || s.clock >= s.sleepers[i].deadline
  {
    RunKeeps(Start(threads), run);
    assert ReasonOk(Final(Start(threads), run), Final(Start(threads), run).sleepers[i]);
  }

  // ---------- Once the flag is up, nobody waits for the clock ----------

  /** The steps a thread is from its return once the flag is up. */
  function StepsLeft(pc: Pc): nat {
    match pc
    case Waiting(_) => 5
    case Entering => 4
    case Waking(timedOut) => if timedOut then 3 else 4
    case Testing => 3
    case Leaving(_) => 2
    case Returning => 1
    case Outside => 0
  }

  /** Is `a` a step of thread `i` inside closing_sleep? */
  predicate StepOf(a: Action, i: nat) {
    a in {Lock(i), Test(i), Wake(i, true), Wake(i, false), Relock(i), Unlock(i), Return(i)}
  }

  /** With the flag up each step of a sleeping thread brings it nearer to its return. */
  lemma EveryStepCounts(s: State, a: Action, i: nat)
    requires Inv(s) && Ready(s, a) && s.closing && StepOf(a, i)
    ensures i < |s.sleepers| && StepsLeft(Next(s, a).sleepers[i].pc) < StepsLeft(s.sleepers[i].pc)
  {}

  /** And there is always such a step, or one that frees the mutex or wakes the thread: the thread
      itself can move, or the owner of the mutex can. No wake-up but an owed one is called for, and no
      time has to pass. */
  lemma SleeperNeverStuck(s: State, i: nat) returns (a: Action)
    requires Inv(s) && s.closing && i < |s.sleepers| && !s.sleepers[i].pc.Outside?
    ensures !a.Tick? && Ready(s, a)
    ensures || StepOf(a, i)
            || (s.owner.Thread? && StepOf(a, s.owner.i))
            || (s.owner.Closer? && a in {Store, Broadcast, GiveLock})
    ensures a.Wake? ==> a == Wake(i, false) && s.sleepers[i].pc.notified
  {
    match s.sleepers[i].pc
    case Waiting(notified) => a := if notified then Wake(i, false) else Broadcast;
    case Testing => a := Test(i);
    case Leaving(_) => a := Unlock(i);
    case Returning => a := Return(i);
    case Entering => a := OwnersStep(s, Lock(i));
    case Waking(_) => a := OwnersStep(s, Relock(i));
  }

  /** `wanted` needs the mutex: take it when it is free, otherwise let its owner go on. */
  lemma OwnersStep(s: State, wanted: Action) returns (a: Action)
    requires Inv(s) && (s.owner.Nobody? ==> Ready(s, wanted))
    ensures s.owner.Nobody? ==> a == wanted
    ensures s.owner.Thread? ==> a in {Test(s.owner.i), Unlock(s.owner.i)} && Ready(s, a)
    ensures s.owner.Closer? ==> a in {Store, Broadcast, GiveLock} && Ready(s, a)
  {
    match s.owner
    case Nobody => a := wanted;
    case Thread(j) => a := if s.sleepers[j].pc.Testing? then Test(j) else Unlock(j);
    case Closer => a := if s.closer.Storing? then Store else if s.closer.Broadcasting? then Broadcast else GiveLock;
  }

  // ---------- Past its deadline, nobody waits for the flag ----------

  /** The steps a thread is from its return once its deadline has passed; a wake-up without cause
      sends it round the loop once more. */
  function LateSteps(pc: Pc): nat {
    match pc
    case Entering => 6
    case Testing => 5
    case Waiting(_) => 4
    case Waking(timedOut) => if timedOut then 3 else 6
    case Leaving(_) => 2
    case Returning => 1
    case Outside => 0
  }

  /** Whatever the flag says, past the deadline each step of a sleeping thread but a wake-up without
      cause brings it nearer to its return. */
  lemma EveryLateStepCounts(s: State, a: Action, i: nat)
    requires Inv(s) && Ready(s, a) && StepOf(a, i) && a != Wake(i, false)
    requires s.clock >= s.sleepers[i].deadline
    ensures LateSteps(Next(s, a).sleepers[i].pc) < LateSteps(s.sleepers[i].pc)
  {}

  /** And there is always such a step, or one of the mutex's owner. */
  lemma LateSleeperNeverStuck(s: State, i: nat) returns (a: Action)
    requires Inv(s) && i < |s.sleepers| && !s.sleepers[i].pc.Outside? && s.clock >= s.sleepers[i].deadline
    ensures !a.Tick? && Ready(s, a) && a != Wake(i, false)
    ensures || StepOf(a, i)
            || (s.owner.Thread? && StepOf(a, s.owner.i))
            || (s.owner.Closer? && a in {Store, Broadcast, GiveLock})
  {
    match s.sleepers[i].pc
    case Waiting(_) => a := Wake(i, true);
    case Testing => a := Test(i);
    case Leaving(_) => a := Unlock(i);
    case Returning => a := Return(i);
    case Entering => a := OwnersStep(s, Lock(i));
    case Waking(_) => a := OwnersStep(s, Relock(i));
  }

  /** With the mutex free, a waiting thread whose deadline has passed returns in four steps of its own,
      flag or no flag. */
  lemma DeadlineEndsTheSleep(s: State, i: nat)
    requires Inv(s) && i < |s.sleepers| && s.sleepers[i].pc.Waiting? && s.clock >= s.sleepers[i].deadline
    requires s.owner.Nobody?
    ensures var run := [Wake(i, true), Relock(i), Unlock(i), Return(i)];
            CanRun(s, run) && i < |Final(s, run).sleepers| && Final(s, run).sleepers[i].pc.Outside?
  {
    var s1 := Next(s, Wake(i, true));
    var s2 := Next(s1, Relock(i));
    var s3 := Next(s2, Unlock(i));
    var s4 := Next(s3, Return(i));
    RunCons(s3, Return(i), []);
    RunCons(s2, Unlock(i), [Return(i)]);
    RunCons(s1, Relock(i), [Unlock(i), Return(i)]);
    RunCons(s, Wake(i, true), [Relock(i), Unlock(i), Return(i)]);
  }

  lemma RunCons(s: State, a: Action, run: seq<Action>)
    requires Ready(s, a) && CanRun(Next(s, a), run)
    ensures CanRun(s, [a] + run) && Final(s, [a] + run) == Final(Next(s, a), run)
  {
    assert ([a] + run)[1..] == run;
  }

  /** The other half of the refinement below: with the mutex free, a thread that the simple sleep would
      wake can run to its return on its own. */
  lemma SimpleWakeCanHappen(s: State, i: nat) returns (run: seq<Action>)
    requires Inv(s) && s.owner.Nobody? && i < |s.sleepers| && !s.sleepers[i].pc.Outside?
    requires s.closing || s.clock >= s.sleepers[i].deadline
    ensures CanRun(s, run) && forall k :: 0 <= k < |run| ==> StepOf(run[k], i)
    ensures i < |Final(s, run).sleepers| && Final(s, run).sleepers[i].pc.Outside? && |run| <= 6
  {
    run := WayOut(s, i);
  }

  function Way(s: State, i: nat): nat
    requires i < |s.sleepers|
  {
    if s.clock >= s.sleepers[i].deadline then LateSteps(s.sleepers[i].pc) else StepsLeft(s.sleepers[i].pc)
  }

  lemma WayOut(s: State, i: nat) returns (run: seq<Action>)
    requires Inv(s) && s.owner in {Nobody, Thread(i)} && i < |s.sleepers|
    requires s.closing || s.clock >= s.sleepers[i].deadline
    ensures CanRun(s, run) && forall k :: 0 <= k < |run| ==> StepOf(run[k], i)
    ensures i < |Final(s, run).sleepers| && Final(s, run).sleepers[i].pc.Outside? && |run| <= Way(s, i)
    decreases Way(s, i)
  {
    if s.sleepers[i].pc.Outside? {
      run := [];
    } else {
      var a: Action := OwnStep(s, i);
      StepKeeps(s, a);
      var rest := WayOut(Next(s, a), i);
      RunCons(s, a, rest);
      run := [a] + rest;
    }
  }

  lemma OwnStep(s: State, i: nat) returns (a: Action)
    requires Inv(s) && s.owner in {Nobody, Thread(i)} && i < |s.sleepers| && !s.sleepers[i].pc.Outside?
    requires s.closing || s.clock >= s.sleepers[i].deadline
    ensures Ready(s, a) && StepOf(a, i) && Next(s, a).owner in {Nobody, Thread(i)}
    ensures Way(Next(s, a), i) < Way(s, i)
    ensures Next(s, a).closing == s.closing && Next(s, a).clock == s.clock
    ensures Next(s, a).sleepers[i].deadline == s.sleepers[i].deadline
  {
    match s.sleepers[i].pc
    case Waiting(_) => a := if s.clock >= s.sleepers[i].deadline then Wake(i, true) else Wake(i, false);
    case Testing => a := Test(i);
    case Leaving(_) => a := Unlock(i);
    case Returning => a := Return(i);
    case Entering => a := Lock(i);
    case Waking(_) => a := Relock(i);
  }

  // ---------- closing_begin ----------

  /** The steps closing_begin is from its return. */
  function CloserLeft(pc: CloserPc): nat {
    match pc
    case Idle => 0
    case WantsLock => 4
    case Storing => 3
    case Broadcasting => 2
    case Unlocking => 1
  }

  /** closing_begin, once called, is done in four steps of its own, and one of them is there unless a
      thread that is about to give the mutex up has it. */
  lemma CloserNeverStuck(s: State) returns (a: Action)
    requires Inv(s) && !s.closer.Idle?
    ensures Ready(s, a)
    ensures if s.closer.WantsLock? && s.owner.Thread? then a in {Test(s.owner.i), Unlock(s.owner.i)}
            else a in {TakeLock, Store, Broadcast, GiveLock} && CloserLeft(Next(s, a).closer) < CloserLeft(s.closer)
  {
    if s.closer.WantsLock? {
      a := OwnersStep(s, TakeLock);
    } else {
      a := OwnersStep(s, Begin);
    }
  }

  /** Called with the mutex free, it returns with the flag up, the mutex free, and everyone in the wait
      set notified. */
  lemma CloserRaisesTheFlag(s: State)
    requires Inv(s) && s.closer.Idle? && s.owner.Nobody?
    ensures var run := [Begin, TakeLock, Store, Broadcast, GiveLock];
            && CanRun(s, run) && Final(s, run).closing
            && Final(s, run).closer.Idle? && Final(s, run).owner.Nobody? && AllNotified(Final(s, run))
  {
    var s1 := Next(s, Begin);
    var s2 := Next(s1, TakeLock);
    var s3 := Next(s2, Store);
    var s4 := Next(s3, Broadcast);
    var s5 := Next(s4, GiveLock);
    RunCons(s4, GiveLock, []);
    RunCons(s3, Broadcast, [GiveLock]);
    RunCons(s2, Store, [Broadcast, GiveLock]);
    RunCons(s1, TakeLock, [Store, Broadcast, GiveLock]);
    RunCons(s, Begin, [TakeLock, Store, Broadcast, GiveLock]);
  }

  /** closing_begin was called in the run, got as far as its store, and no closing_reset came since. */
  ghost predicate StoredLast(run: seq<Action>) {
    exists k :: 0 <= k < |run| && run[k] == Store && Reset !in run[k..]
  }

  lemma StoredLastCons(a: Action, run: seq<Action>)
    ensures StoredLast([a] + run) <==> StoredLast(run) || (a == Store && Reset !in run)
  {
    var all := [a] + run;
    assert forall k :: 0 <= k < |run| ==> all[k + 1] == run[k] && all[k + 1..] == run[k..];
    if StoredLast(run) {
      var k :| 0 <= k < |run| && run[k] == Store && Reset !in run[k..];
      assert all[k + 1] == Store && Reset !in all[k + 1..];
    }
    if a == Store && Reset !in run {
      assert all[0] == Store && all[0..] == all;
    }
    if StoredLast(all) {
      var k :| 0 <= k < |all| && all[k] == Store && Reset !in all[k..];
      if k == 0 {
        assert all[0..] == all;
        assert forall j :: 0 <= j < |run| ==> all[j + 1] == run[j];
      } else {
        assert run[k - 1] == Store && Reset !in run[k - 1..];
      }
    }
  }

  lemma {:induction false} FlagFromRun(s: State, run: seq<Action>)
    requires CanRun(s, run)
    ensures Final(s, run).closing <==> StoredLast(run) || (s.closing && Reset !in run)
    decreases |run|
  {
    if run != [] {
      FlagFromRun(Next(s, run[0]), run[1..]);
      StoredLastCons(run[0], run[1..]);
      assert run == [run[0]] + run[1..];
    }
  }

  /** The flag is_closing() reads is up exactly when closing_begin stored it and it was not reset
      since. */
  lemma FlagIsTheLastCall(threads: nat, run: seq<Action>)
    requires CanRun(Start(threads), run)
    ensures Final(Start(threads), run).closing <==> StoredLast(run)
  {
    FlagFromRun(Start(threads), run);
  }

  // ---------- The deadline is the one asked for ----------

  predicate SleepOf(a: Action, i: nat) {
    a.Sleep? && a.i == i
  }

  lemma DeadlineStays(s: State, a: Action, i: nat)
    requires Ready(s, a) && i < |s.sleepers| && !SleepOf(a, i)
    ensures i < |Next(s, a).sleepers| && Next(s, a).sleepers[i].deadline == s.sleepers[i].deadline
  {}

  lemma {:induction false} DeadlineStaysInRun(s: State, run: seq<Action>, i: nat)
    requires CanRun(s, run) && i < |s.sleepers| && forall k :: 0 <= k < |run| ==> !SleepOf(run[k], i)
    ensures i < |Final(s, run).sleepers| && Final(s, run).sleepers[i].deadline == s.sleepers[i].deadline
    decreases |run|
  {
    if run != [] {
      DeadlineStays(s, run[0], i);
      assert forall k :: 0 <= k < |run| - 1 ==> run[1..][k] == run[k + 1];
      DeadlineStaysInRun(Next(s, run[0]), run[1..], i);
    }
  }

  /** closing_sleep(seconds), called at some instant, has its deadline that many seconds later, for as
      long as it lasts; so by ReturnsForAReason it returns no sooner unless the flag is up. */
  lemma DeadlineIsSecondsAway(s: State, seconds: nat, run: seq<Action>, i: nat)
    requires CanRun(s, [Sleep(i, seconds)] + run) && forall k :: 0 <= k < |run| ==> !SleepOf(run[k], i)
    ensures i < |Final(s, [Sleep(i, seconds)] + run).sleepers|
    ensures Final(s, [Sleep(i, seconds)] + run).sleepers[i].deadline == s.clock + seconds
  {
    var all := [Sleep(i, seconds)] + run;
    assert all[0] == Sleep(i, seconds) && all[1..] == run;
    DeadlineStaysInRun(Next(s, all[0]), run, i);
  }

  // ---------- The one-step sleep it refines ----------

  /** Each thread is awake or asleep until some instant. */
  datatype Simple = Simple(closing: bool, clock: int, asleep: seq<Option<int>>)

  ghost predicate SimpleStep(p: Simple, q: Simple) {
    || p == q
    || (q == p.(clock := q.clock) && q.clock >= p.clock)
    || (exists i: nat, until: int :: i < |p.asleep| && p.asleep[i].None? && until >= p.clock
                                     && q == p.(asleep := p.asleep[i := Some(until)]))
    || (exists i: nat :: SimpleWake(p, q, i))
    || (q == p.(closing := true))
    || (q == p.(closing := false) && forall i :: 0 <= i < |p.asleep| ==> p.asleep[i].None?)
  }

  /** The guard on which every sleeping thread of the module wakes. */
  ghost predicate SimpleWake(p: Simple, q: Simple, i: nat) {
    && i < |p.asleep| && p.asleep[i].Some?
    && (p.closing || p.clock >= p.asleep[i].value)
    && q == p.(asleep := p.asleep[i := None])
  }

  function Asleep(x: Sleeper): Option<int> {
    if x.pc.Outside? then None else Some(x.deadline)
  }

  ghost function View(s: State): Simple {
    Simple(s.closing, s.clock, seq(|s.sleepers|, i requires 0 <= i < |s.sleepers| => Asleep(s.sleepers[i])))
  }

  /** Every step of the mutex and the condition variable is a step of the simple sleep, or none. */
  lemma RefinesSimpleSleep(s: State, a: Action)
    requires Inv(s) && Ready(s, a)
    ensures SimpleStep(View(s), View(Next(s, a)))
  {
    var p, q := View(s), View(Next(s, a));
    match a
    case Tick(_) => assert q == p.(clock := q.clock);
    case Sleep(i, seconds) =>
      assert q == p.(asleep := p.asleep[i := Some(s.clock + seconds)]);
    case Return(i) =>
      assert ReasonOk(s, s.sleepers[i]);
      assert SimpleWake(p, q, i);
    case Store => assert q == p.(closing := true);
    case Reset => assert q == p.(closing := false);
    case _ => assert q == p;
  }
}
