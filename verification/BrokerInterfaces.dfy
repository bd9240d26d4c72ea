/** Which senders a load starts: those of the accepted interfaces, in order. */
module BrokerInterfaces {
  import opened Prelude
  import opened Broker
  import opened BrokerFrame
  import opened BrokerInvariant
  import opened BrokerRuns
  import Patterns

  /** The list send_udp_message walks, as far as it is left, and the addresses of the senders it has
      started: read off the actions alone. */
  datatype Roll = Roll(rest: Option<seq<Interface>>, started: seq<string>)

  /** An interface gets a sender when it has an IPv4 address that the patterns of the setting accept,
      and memory and a thread are granted. */
  ghost predicate Wanted(w: World, face: Interface, taskOk: bool, threadOk: bool) {
    face.inet && Patterns.Accepts(Patterns.Stored([], w.selected), face.ip) && taskOk && threadOk
  }

  ghost function NoteMain(w: World, r: Roll, a: MainAction): Roll {
    match a
    case ListInterfaces(found, hasMemory) =>
      Roll(if hasMemory && found.Some? && exists k :: 0 <= k < |found.value| && found.value[k].inet
           then found else None, [])
    case NextInterface(taskOk, threadOk) =>
      if r.rest.None? || r.rest.value == [] then r
      else
        var face := r.rest.value[0];
        Roll(Some(r.rest.value[1..]), r.started + if Wanted(w, face, taskOk, threadOk) then [face.ip] else [])
    case EndSpawning => r.(rest := None)
    case FreeThreadIds => r.(started := [])
    case _ => r
  }

  ghost function Rolled(w: World, r: Roll, run: seq<Action>): Roll
    decreases |run|
  {
    if run == [] then r else Rolled(w, if run[0].OfMain? then NoteMain(w, r, run[0].main) else r, run[1..])
  }

  ghost predicate Enrolled(s: State, started: seq<string>) {
    && |s.threadIds| == |started|
    && forall m :: 0 <= m < |started| ==>
         s.threadIds[m] < |s.senders| && s.senders[s.threadIds[m]].ip == started[m]
  }

  ghost predicate RollOk(w: World, s: State, r: Roll) {
    && Enrolled(s, r.started)
    && r.rest == (if s.main.Spawning? then Some(s.main.rest) else None)
    && (s.main.Spawning? ==> s.patterns == Patterns.Stored([], w.selected))
  }

  lemma {:induction false} SomeInet(interfaces: seq<Interface>)
    ensures InetCount(interfaces) > 0 <==> exists k :: 0 <= k < |interfaces| && interfaces[k].inet
  {
    if interfaces != [] {
      SomeInet(interfaces[1..]);
      assert forall k :: 0 < k < |interfaces| ==> interfaces[k] == interfaces[1..][k - 1];
      assert forall k :: 0 <= k < |interfaces| - 1 ==> interfaces[1..][k] == interfaces[k + 1];
      assert interfaces[0].inet ==> exists k :: 0 <= k < |interfaces| && interfaces[k].inet;
    }
  }

  /** The walk starts exactly when there is memory for an interface to walk to. */
  lemma ListInterfacesLists(s: State, found: Option<seq<Interface>>, hasMemory: bool, stored: seq<string>)
    requires s.main.StartingSenders?
    ensures var s' := ListInterfacesStep(s, found, hasMemory, stored);
            if hasMemory && found.Some? && exists k :: 0 <= k < |found.value| && found.value[k].inet
            then s'.main == Spawning(found.value) && s'.patterns == stored
            else !s'.main.Spawning?
  {
    if found.Some? {
      SomeInet(found.value);
    }
  }

  lemma ListInterfacesEnrols(w: World, s: State, r: Roll, found: Option<seq<Interface>>, hasMemory: bool)
    requires RollOk(w, s, r) && s.main.StartingSenders? && s.patterns == []
    ensures RollOk(w, ListInterfacesStep(s, found, hasMemory, Patterns.Stored(s.patterns, w.selected)),
                   NoteMain(w, r, ListInterfaces(found, hasMemory)))
  {
    var stored := Patterns.Stored(s.patterns, w.selected);
    ListInterfacesLists(s, found, hasMemory, stored);
    assert ListInterfacesStep(s, found, hasMemory, stored).threadIds == [];
  }

  lemma NextInterfaceEnrols(w: World, s: State, r: Roll, taskOk: bool, threadOk: bool)
    requires RollOk(w, s, r) && s.main.Spawning? && s.main.rest != []
    ensures RollOk(w, NextInterfaceStep(s, taskOk, threadOk), NoteMain(w, r, NextInterface(taskOk, threadOk)))
  {
    var s', face := NextInterfaceStep(s, taskOk, threadOk), s.main.rest[0];
    assert s'.main == Spawning(s.main.rest[1..]) && s'.patterns == s.patterns;
    if Wanted(w, face, taskOk, threadOk) {
      EnrolOne(s, r.started, s', face.ip);
    } else {
      assert s'.threadIds == s.threadIds && s'.senders == s.senders;
    }
  }

  lemma EnrolOne(s: State, started: seq<string>, s': State, ip: string)
    requires Enrolled(s, started)
    requires s'.threadIds == s.threadIds + [|s.senders|]
    requires s'.senders == s.senders + [NewSender(ip, s.base, s.loadGuid)]
    ensures Enrolled(s', started + [ip])
  {}

  lemma StartCacheEnrols(w: World, s: State, r: Roll, maxAge: int, clientOk: bool, threadOk: bool)
    requires RollOk(w, s, r) && s.main.StartingCache?
    ensures RollOk(w, StartCacheStep(s, maxAge, clientOk, threadOk), r)
  {}

  lemma EventEnrols(w: World, s: State, r: Roll, a: MainAction)
    requires RollOk(w, s, r) && MainReady(s, a) && MainFits(s, a) && IsEvent(a)
    ensures RollOk(w, MainStep(w, s, a), NoteMain(w, r, a))
  {}

  lemma CleanUpMain(w: World, s: State, a: MainAction)
    requires MainReady(s, a) && MainFits(s, a) && !IsEvent(a) && !StartsThreads(a)
    ensures !MainStep(w, s, a).main.Spawning? && !s.main.Spawning?
    ensures MainStep(w, s, a).threadIds == if a.FreeThreadIds? then [] else s.threadIds
  {}

  lemma CleanUpEnrols(w: World, s: State, r: Roll, a: MainAction)
    requires RollOk(w, s, r) && MainReady(s, a) && MainFits(s, a) && !IsEvent(a) && !StartsThreads(a)
    ensures RollOk(w, MainStep(w, s, a), NoteMain(w, r, a))
  {
    CleanUpMain(w, s, a);
    MainLeaves(w, s, a);
  }

  lemma MainEnrols(w: World, s: State, r: Roll, a: MainAction)
    requires MAIN < |s.heap.holds| && MainOk(s) && RollOk(w, s, r) && MainReady(s, a) && MainFits(s, a)
    ensures RollOk(w, MainStep(w, s, a), NoteMain(w, r, a))
  {
    if a.StartCache? {
      StartCacheEnrols(w, s, r, w.config.maxAge, a.clientOk, a.threadOk);
    } else if a.ListInterfaces? {
      ListInterfacesEnrols(w, s, r, a.found, a.hasMemory);
    } else if a.NextInterface? {
      NextInterfaceEnrols(w, s, r, a.taskOk, a.threadOk);
    } else if IsEvent(a) {
      EventEnrols(w, s, r, a);
    } else {
      CleanUpEnrols(w, s, r, a);
    }
  }

  lemma SenderKeepsAddress(w: World, s: State, i: nat, a: SenderAction)
    requires SenderReady(s, i, a) && SenderFits(s, i, a)
    ensures SenderNext(w, s, i, a).ip == s.senders[i].ip
  {}

  lemma StepEnrols(w: World, s: State, r: Roll, a: Action)
    requires Inv(w, s) && RollOk(w, s, r) && Ready(s, a) && Fits(s, a)
    ensures RollOk(w, Next(w, s, a), if a.OfMain? then NoteMain(w, r, a.main) else r)
  {
    if a.OfSender? {
      SenderKeepsAddress(w, s, a.i, a.sender);
    } else if a.OfMain? {
      MainEnrols(w, s, r, a.main);
    }
  }

  lemma {:induction false} RunEnrols(w: World, s: State, r: Roll, run: seq<Action>)
    requires Inv(w, s) && RollOk(w, s, r) && CanRun(w, s, run)
    ensures RollOk(w, Final(w, s, run), Rolled(w, r, run))
    decreases |run|
  {
    if run != [] {
      StepEnrols(w, s, r, run[0]);
      StepKeeps(w, s, run[0]);
      RunEnrols(w, Next(w, s, run[0]), if run[0].OfMain? then NoteMain(w, r, run[0].main) else r, run[1..]);
    }
  }

  /** In every run the senders in thread_ids are those of the accepted interfaces of the list, one for
      each that memory and a thread were granted for, in order; and the walk is where it should be. */
  lemma SendersAreTheAcceptedInterfaces(w: World, run: seq<Action>)
    requires CanRun(w, INITIAL, run)
    ensures var s, r := Final(w, INITIAL, run), Rolled(w, Roll(None, []), run);
            && Enrolled(s, r.started)
            && r.rest == (if s.main.Spawning? then Some(s.main.rest) else None)
  {
    InitialInv(w);
    RunEnrols(w, INITIAL, Roll(None, []), run);
  }
}
