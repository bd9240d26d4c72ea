/**
Which guid the messages of a load carry. RedisModule_OnLoad writes redis_guid before it does anything
else, so a load that is refused writes it too; a new sender copies it into its `down` message and then
into its `up` message before it first looks at the flag.
*/
module BrokerGuid {
  import opened Prelude
  import opened Broker
  import opened BrokerFrame
  import opened BrokerInvariant
  import opened BrokerReload
  import opened BrokerRuns
  import opened BrokerWalk
  import Patterns

  /** The module is stopping, or has stopped and waits for a load. */
  predicate Over(s: State) {
    (s.main.EventLoop? && s.closing)
    || !(s.main.EventLoop? || s.main.StartingCache? || s.main.StartingSenders? || s.main.Spawning?)
  }

  predicate Alive(s: State, i: nat) {
    i < |s.senders| && !s.senders[i].pc.Exited?
  }

  // ---------- The invariant ----------

  /** `guid` is what a message of a load that wrote `load` may carry. */
  predicate Carries(guid: Option<nat>, load: nat) {
    guid.Some? ==> load <= guid.value <= load + 1
  }

  /** A living sender belongs to the latest load, and at most one other guid was written since. */
  predicate SenderGuid(s: State, x: Sender) {
    && x.load <= s.loadGuid
    && (!x.pc.Exited? ==> x.load == s.loadGuid && s.guid <= x.load + 1)
    && (x.downGuid.None? <==> x.pc.FormattingDown?)
    && (x.upGuid.None? <==> x.pc.FormattingDown? || x.pc.FormattingUp?)
    && Carries(x.downGuid, x.load) && Carries(x.upGuid, x.load)
    && (x.upGuid.Some? ==> x.downGuid.value <= x.upGuid.value)
    && (x.downGuid.Some? ==> x.downGuid.value <= s.guid)
    && (x.upGuid.Some? ==> x.upGuid.value <= s.guid)
  }

  ghost predicate GuidOk(s: State) {
    && s.loadGuid <= s.guid
    && (!Over(s) ==> s.guid == s.loadGuid)
    && forall i :: 0 <= i < |s.senders| ==> SenderGuid(s, s.senders[i])
  }

  // ---------- A module that is over stays so until a load ----------

  lemma EventStaysOver(w: World, s: State, a: MainAction)
    requires Over(s) && MainReady(s, a) && MainFits(s, a) && IsEvent(a) && !a.Load?
    ensures Over(MainStep(w, s, a))
  {}

  lemma CleanUpStaysOver(w: World, s: State, a: MainAction)
    requires MainReady(s, a) && MainFits(s, a) && !IsEvent(a) && !StartsThreads(a)
    requires a.FreePatterns? ==> s.closing
    ensures Over(MainStep(w, s, a))
  {
    MainLeaves(w, s, a);
  }

  lemma MainStaysOver(w: World, s: State, a: MainAction)
    requires MAIN < |s.heap.holds| && MainOk(s) && Over(s) && MainReady(s, a) && MainFits(s, a) && !a.Load?
    ensures Over(MainStep(w, s, a))
  {
    if IsEvent(a) {
      EventStaysOver(w, s, a);
    } else {
      CleanUpStaysOver(w, s, a);
    }
  }

  // ---------- Every step keeps it ----------

  lemma SenderStepGuid(w: World, s: State, i: nat, a: SenderAction)
    requires GuidOk(s) && SenderReady(s, i, a) && SenderFits(s, i, a)
    ensures SenderGuid(s, SenderNext(w, s, i, a))
    ensures SenderNext(w, s, i, a).load == s.senders[i].load
  {}

  lemma SenderKeepsGuid(w: World, s: State, i: nat, a: SenderAction)
    requires GuidOk(s) && SenderReady(s, i, a) && SenderFits(s, i, a)
    ensures GuidOk(SenderStep(w, s, i, a))
  {
    SenderStepGuid(w, s, i, a);
  }

  /** A load that is refused finds either nobody, or the guid of the load still in place. */
  lemma RefusalKeepsGuid(w: World, s: State)
    requires GuidOk(s) && MAIN < |s.heap.holds| && MainOk(s) && MainReady(s, RefuseLoad)
    ensures GuidOk(MainStep(w, s, RefuseLoad))
  {
    EventLeaves(w, s, RefuseLoad);
    if Over(s) {
      assert Quiet(s);
    }
  }

  lemma LoadKeepsGuid(s: State, curlOk: bool, listening: bool, hooked: bool)
    requires GuidOk(s) && MAIN < |s.heap.holds| && MainOk(s) && s.main.EventLoop? && !s.loaded
    ensures GuidOk(LoadStep(s, curlOk, listening, hooked))
  {
    assert Quiet(s);
  }

  lemma NextInterfaceKeepsGuid(s: State, taskOk: bool, threadOk: bool)
    requires GuidOk(s) && s.main.Spawning? && s.main.rest != []
    ensures GuidOk(NextInterfaceStep(s, taskOk, threadOk))
  {}

  lemma StartCacheKeepsGuid(s: State, maxAge: int, clientOk: bool, threadOk: bool)
    requires GuidOk(s) && s.main.StartingCache?
    ensures GuidOk(StartCacheStep(s, maxAge, clientOk, threadOk))
  {}

  lemma OtherStepKeepsGuid(w: World, s: State, a: MainAction)
    requires GuidOk(s) && MAIN < |s.heap.holds| && MainOk(s) && MainReady(s, a) && MainFits(s, a)
    requires !a.Load? && !a.RefuseLoad? && !a.StartCache? && !a.NextInterface?
    ensures GuidOk(MainStep(w, s, a))
  {
    MainLeaves(w, s, a);
    if Over(s) {
      MainStaysOver(w, s, a);
    }
  }

  lemma MainKeepsGuid(w: World, s: State, a: MainAction)
    requires GuidOk(s) && MAIN < |s.heap.holds| && MainOk(s) && MainReady(s, a) && MainFits(s, a)
    ensures GuidOk(MainStep(w, s, a))
  {
    if a.Load? {
      LoadKeepsGuid(s, a.curlOk, a.listening, a.hooked);
    } else if a.RefuseLoad? {
      RefusalKeepsGuid(w, s);
    } else if a.StartCache? {
      StartCacheKeepsGuid(s, w.config.maxAge, a.clientOk, a.threadOk);
    } else if a.NextInterface? {
      NextInterfaceKeepsGuid(s, a.taskOk, a.threadOk);
    } else {
      OtherStepKeepsGuid(w, s, a);
    }
  }

  lemma StepKeepsGuid(w: World, s: State, a: Action)
    requires Inv(w, s) && GuidOk(s) && Ready(s, a) && Fits(s, a)
    ensures GuidOk(Next(w, s, a))
  {
    if a.OfSender? {
      SenderKeepsGuid(w, s, a.i, a.sender);
    } else if a.OfMain? {
      MainKeepsGuid(w, s, a.main);
    }
  }

  lemma {:induction false} RunKeepsGuid(w: World, s: State, run: seq<Action>)
    requires Inv(w, s) && GuidOk(s) && CanRun(w, s, run)
    ensures GuidOk(Final(w, s, run))
    decreases |run|
  {
    if run != [] {
      StepKeepsGuid(w, s, run[0]);
      StepKeeps(w, s, run[0]);
      RunKeepsGuid(w, Next(w, s, run[0]), run[1..]);
    }
  }

  lemma ReachableGuid(w: World, s: State)
    requires Reachable(w, s)
    ensures GuidOk(s)
  {
    var run :| CanRun(w, INITIAL, run) && Final(w, INITIAL, run) == s;
    InitialInv(w);
    RunKeepsGuid(w, INITIAL, run);
  }

  // ---------- The guid counts the loads ----------

  predicate IsLoad(a: Action) {
    a.OfMain? && a.main.Load?
  }

  predicate IsRefusal(a: Action) {
    a.OfMain? && a.main.RefuseLoad?
  }

  function Refusals(run: seq<Action>): nat {
    if run == [] then 0 else (if IsRefusal(run[0]) then 1 else 0) + Refusals(run[1..])
  }

  /** The refused loads since the last one that was not, `n` of them before the run. */
  function RefusedSinceLoad(n: nat, run: seq<Action>): nat
    decreases |run|
  {
    if run == [] then n
    else RefusedSinceLoad(if IsLoad(run[0]) then 0 else if IsRefusal(run[0]) then n + 1 else n, run[1..])
  }

  lemma StepWritesGuid(w: World, s: State, a: Action)
    requires Ready(s, a) && Fits(s, a)
    ensures Next(w, s, a).guid == s.guid + (if IsLoad(a) || IsRefusal(a) then 1 else 0)
    ensures Next(w, s, a).loadGuid == if IsLoad(a) then Next(w, s, a).guid else s.loadGuid
  {
    if a.OfMain? {
      if a.main.StartCache? || a.main.NextInterface? {
        StartLeaves(w, s, a.main);
      } else {
        MainLeaves(w, s, a.main);
      }
    }
  }

  lemma {:induction false} GuidIsCounted(w: World, s: State, run: seq<Action>, n: nat)
    requires CanRun(w, s, run) && s.guid == s.loadGuid + n
    ensures Final(w, s, run).guid == Final(w, s, run).loadGuid + RefusedSinceLoad(n, run)
    decreases |run|
  {
    if run != [] {
      var n' := if IsLoad(run[0]) then 0 else if IsRefusal(run[0]) then n + 1 else n;
      StepWritesGuid(w, s, run[0]);
      GuidIsCounted(w, Next(w, s, run[0]), run[1..], n');
    }
  }

  /** Each load that is not refused raises the guid of the latest load. */
  lemma {:induction false} LoadsRaise(w: World, s: State, run: seq<Action>)
    requires CanRun(w, s, run) && s.loadGuid <= s.guid
    ensures s.loadGuid <= Final(w, s, run).loadGuid
    ensures NoLoad(run) <==> Final(w, s, run).loadGuid == s.loadGuid
    ensures NoLoad(run) ==> Final(w, s, run).guid == s.guid + Refusals(run)
    decreases |run|
  {
    if run != [] {
      StepWritesGuid(w, s, run[0]);
      LoadsRaise(w, Next(w, s, run[0]), run[1..]);
      FirstOrLater(run);
    }
  }

  lemma FirstOrLater(run: seq<Action>)
    requires run != []
    ensures NoLoad(run) <==> !IsLoad(run[0]) && NoLoad(run[1..])
  {
    assert forall k :: 0 < k < |run| ==> run[k] == run[1..][k - 1];
    assert forall k :: 0 <= k < |run| - 1 ==> run[1..][k] == run[k + 1];
  }

  // ---------- A message keeps the guid it was given ----------

  /** `x'` is `x` later on. */
  predicate Later(x: Sender, x': Sender) {
    && x'.load == x.load
    && (x.downGuid.Some? ==> x'.downGuid == x.downGuid)
    && (x.upGuid.Some? ==> x'.upGuid == x.upGuid)
    && (x.pc.Exited? ==> x'.pc.Exited?)
  }

  lemma SenderStays(w: World, s: State, i: nat, a: SenderAction)
    requires GuidOk(s) && SenderReady(s, i, a) && SenderFits(s, i, a)
    ensures Later(s.senders[i], SenderNext(w, s, i, a))
  {}

  lemma MainKeepsSenders(w: World, s: State, a: MainAction)
    requires MainReady(s, a) && MainFits(s, a)
    ensures s.senders <= MainStep(w, s, a).senders
  {
    if a.StartCache? || a.NextInterface? {
      StartLeaves(w, s, a);
    } else {
      MainLeaves(w, s, a);
    }
  }

  lemma SendersStay(w: World, s: State, a: Action, i: nat)
    requires GuidOk(s) && Ready(s, a) && Fits(s, a) && i < |s.senders|
    ensures i < |Next(w, s, a).senders| && Later(s.senders[i], Next(w, s, a).senders[i])
  {
    if a.OfSender? {
      SenderStays(w, s, a.i, a.sender);
    } else if a.OfMain? {
      MainKeepsSenders(w, s, a.main);
    }
  }

  lemma {:induction false} SendersStayInRun(w: World, s: State, run: seq<Action>, i: nat)
    requires Inv(w, s) && GuidOk(s) && CanRun(w, s, run) && i < |s.senders|
    ensures i < |Final(w, s, run).senders| && Later(s.senders[i], Final(w, s, run).senders[i])
    decreases |run|
  {
    if run != [] {
      SendersStay(w, s, run[0], i);
      StepKeepsGuid(w, s, run[0]);
      StepKeeps(w, s, run[0]);
      SendersStayInRun(w, Next(w, s, run[0]), run[1..], i);
    }
  }

  // ---------- The messages of one load ----------

  /** The step that copies the guid into one of the messages, and the guid there. */
  predicate IsCopy(a: SenderAction) {
    a.FormatDown? || a.FormatUp?
  }

  function Message(x: Sender, a: SenderAction): Option<nat> {
    if a.FormatDown? then x.downGuid else x.upGuid
  }

  /** Every message carries the guid of its load, or the one a refused load wrote in its stead; only
      the `up` message may carry the second alone, and while its sender lives the module is stopping. */
  lemma MessagesOfALoad(w: World, s: State, i: nat)
    requires Reachable(w, s) && i < |s.senders|
    ensures var x := s.senders[i];
            && Carries(x.downGuid, x.load) && Carries(x.upGuid, x.load)
            && (x.upGuid.Some? ==> x.downGuid.Some? && x.downGuid.value <= x.upGuid.value)
            && (x.downGuid == Some(x.load + 1) || x.upGuid == Some(x.load + 1) ==> Over(s) || x.pc.Exited?)
  {
    ReachableGuid(w, s);
    assert SenderGuid(s, s.senders[i]);
  }

  /** Under a living sender no load succeeds, and the guid is written at most once, by a refused load. */
  lemma GuidChangesOnce(w: World, s: State, run: seq<Action>, i: nat)
    requires Reachable(w, s) && CanRun(w, s, run) && Alive(Final(w, s, run), i)
    requires i < |s.senders| || NoLoad(run)
    ensures NoLoad(run)
    ensures Final(w, s, run).guid == s.guid + Refusals(run) <= s.guid + 1
  {
    ReachableInv(w, s);
    ReachableGuid(w, s);
    RunKeepsGuid(w, s, run);
    LoadsRaise(w, s, run);
    if i < |s.senders| {
      SendersStayInRun(w, s, run, i);
      assert SenderGuid(s, s.senders[i]);
    }
    assert SenderGuid(Final(w, s, run), Final(w, s, run).senders[i]);
  }

  /** In a whole run: what sender `i` copies in step `k` is the guid of its load plus one if a load was
      refused since, which happens at most once; and so it stays. */
  lemma CopiedGuid(w: World, run: seq<Action>, k: nat, i: nat, a: SenderAction)
    requires CanRun(w, INITIAL, run) && k < |run| && IsCopy(a) && run[k] == OfSender(i, a)
    ensures CanRun(w, INITIAL, run[..k]) && i < |Final(w, INITIAL, run).senders|
    ensures var x, s := Final(w, INITIAL, run).senders[i], Final(w, INITIAL, run[..k]);
            x.load == s.loadGuid && Message(x, a) == Some(s.guid) == Some(x.load + RefusedSinceLoad(0, run[..k]))
    ensures RefusedSinceLoad(0, run[..k]) <= 1
  {
    RunSplit(w, INITIAL, run, k);
    OnTheWay(w, run, k);
    var s := Final(w, INITIAL, run[..k]);
    ReachableInv(w, s);
    ReachableGuid(w, s);
    GuidIsCounted(w, INITIAL, run[..k], 0);
    CopyStays(w, s, run[k..], i, a);
  }

  lemma CopyStays(w: World, s: State, run: seq<Action>, i: nat, a: SenderAction)
    requires Inv(w, s) && GuidOk(s) && CanRun(w, s, run) && IsCopy(a) && run != [] && run[0] == OfSender(i, a)
    ensures i < |Final(w, s, run).senders|
    ensures Final(w, s, run).senders[i].load == s.loadGuid && s.guid <= s.loadGuid + 1
    ensures Message(Final(w, s, run).senders[i], a) == Some(s.guid)
  {
    assert SenderGuid(s, s.senders[i]);
    StepKeepsGuid(w, s, run[0]);
    StepKeeps(w, s, run[0]);
    SendersStayInRun(w, Next(w, s, run[0]), run[1..], i);
  }

  /** Two messages of one load, of one sender or of two, the first copied in step `k` and the second
      in step `m`: they carry the same guid exactly when no load is refused between the two copies. */
  lemma MessagesShareTheGuid(w: World, run: seq<Action>, k: nat, m: nat, i: nat, j: nat,
                             a: SenderAction, b: SenderAction)
    requires CanRun(w, INITIAL, run) && k < m < |run| && IsCopy(a) && IsCopy(b)
    requires run[k] == OfSender(i, a) && run[m] == OfSender(j, b)
    ensures i < |Final(w, INITIAL, run).senders| && j < |Final(w, INITIAL, run).senders|
    ensures var x, y := Final(w, INITIAL, run).senders[i], Final(w, INITIAL, run).senders[j];
            x.load == y.load ==> (Message(x, a) == Message(y, b) <==> Refusals(run[k..m]) == 0)
  {
    CopiedGuid(w, run, k, i, a);
    CopiedGuid(w, run, m, j, b);
    assert run[..m][..k] == run[..k] && run[..m][k..] == run[k..m];
    RunSplit(w, INITIAL, run[..m], k);
    OnTheWay(w, run, k);
    var s := Final(w, INITIAL, run[..k]);
    ReachableGuid(w, s);
    LoadsRaise(w, s, run[k..m]);
  }

  lemma Copy(w: World, s: State, i: nat, a: SenderAction) returns (t: State)
    requires Reachable(w, s) && IsCopy(a) && SenderReady(s, i, a)
    ensures SenderFits(s, i, a) && Reachable(w, t)
    ensures t.senders == s.senders[i := SenderNext(w, s, i, a)] && t.guid == s.guid && t.main == s.main
  {
    t := Walk(w, s, OfSender(i, a));
  }

  lemma GetsReady(w: World) returns (s: State)
    ensures Reachable(w, s) && s.main.StartingSenders? && s.guid == s.loadGuid == 1
    ensures s.senders == [] && s.patterns == []
  {
    s := INITIAL;
    assert CanRun(w, INITIAL, []) && Final(w, INITIAL, []) == INITIAL;
    s := Walk(w, s, OfMain(Load(true, true, true)));
    s := Walk(w, s, OfMain(Cron));
    s := Walk(w, s, OfMain(StartCache(true, true)));
  }

  lemma Lists(w: World, s: State, face: Interface) returns (t: State)
    requires Reachable(w, s) && s.main.StartingSenders? && s.patterns == [] && face.inet
    ensures Reachable(w, t) && t.main == Spawning([face, face]) && t.guid == s.guid && t.loadGuid == s.loadGuid
    ensures t.senders == s.senders && t.patterns == Patterns.Stored([], w.selected)
  {
    assert InetCount([face, face]) == 2 by {
      assert [face, face][1..] == [face] && [face][1..] == [];
      assert InetCount([face]) == 1;
    }
    t := Walk(w, s, OfMain(ListInterfaces(Some([face, face]), true)));
  }

  lemma Spawns(w: World, s: State) returns (t: State)
    requires Reachable(w, s) && s.main.Spawning? && s.main.rest != []
    requires s.main.rest[0].inet && Patterns.Accepts(s.patterns, s.main.rest[0].ip)
    ensures Reachable(w, t) && t.main == Spawning(s.main.rest[1..]) && t.guid == s.guid && t.loadGuid == s.loadGuid
    ensures t.senders == s.senders + [NewSender(s.main.rest[0].ip, s.base, s.loadGuid)]
    ensures t.patterns == s.patterns && t.base == s.base
  {
    t := Walk(w, s, OfMain(NextInterface(true, true)));
  }

  /** Two interfaces, two senders, nothing copied yet. */
  lemma TwoSenders(w: World, ip: string) returns (s: State)
    requires Patterns.Accepts(Patterns.Stored([], w.selected), ip)
    ensures Reachable(w, s) && s.main.EventLoop? && s.guid == 1
    ensures |s.senders| == 2 && forall i :: 0 <= i < 2 ==> s.senders[i] == NewSender(ip, s.base, 1)
  {
    s := GetsReady(w);
    s := Lists(w, s, Interface(true, ip));
    s := Spawns(w, s);
    s := Spawns(w, s);
    s := Walk(w, s, OfMain(EndSpawning));
  }

  /** And it does happen: in this run the two messages of the first sender carry different guids, and
      the second sender carries the later one only. The address may be any that is announced. */
  lemma TwoGuidsInOneLoad(w: World, ip: string) returns (s: State)
    requires Patterns.Accepts(Patterns.Stored([], w.selected), ip)
    ensures Reachable(w, s) && |s.senders| == 2 && Alive(s, 0) && Alive(s, 1)
    ensures s.senders[0].load == s.senders[1].load == 1
    ensures s.senders[0].downGuid == Some(1) && s.senders[0].upGuid == Some(2)
    ensures s.senders[1].downGuid == Some(2) && s.senders[1].upGuid == Some(2)
  {
    s := TwoSenders(w, ip);
    s := Copy(w, s, 0, FormatDown);
    s := Walk(w, s, OfMain(RefuseLoad));
    s := Copy(w, s, 0, FormatUp);
    s := Copy(w, s, 1, FormatDown);
    s := Copy(w, s, 1, FormatUp);
  }
}
