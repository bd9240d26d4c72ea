/** When the handlers run and when broadcasting starts, read off what Redis did. */
module BrokerLifeCycle {
  import opened Broker
  import opened BrokerAtWork
  import opened BrokerFrame
  import opened BrokerInvariant
  import opened BrokerRuns

  // ---------- What Redis did ----------

  predicate Ticks(a: Action) {
    a.OfMain? && a.main.Cron?
  }

  predicate TickedAfter(before: bool, a: Action) {
    Ticks(a) || (before && !Starts(a))
  }

  /** A cron tick came since the last load, or had before the run. */
  predicate TickedSinceLoad(before: bool, run: seq<Action>)
    decreases |run|
  {
    if run == [] then before else TickedSinceLoad(TickedAfter(before, run[0]), run[1..])
  }

  /** The module is in Redis: its last load got past libcurl, and it was not unloaded since. */
  predicate LoadedAfter(before: bool, a: Action) {
    if Starts(a) then a.main.curlOk else before && !(a.OfMain? && a.main.Unload?)
  }

  predicate LoadedSince(before: bool, run: seq<Action>)
    decreases |run|
  {
    if run == [] then before else LoadedSince(LoadedAfter(before, run[0]), run[1..])
  }

  /** And it hears cron ticks: it also found a listener and registered its hook. */
  predicate HookedAfter(before: bool, a: Action) {
    if Starts(a) then a.main.curlOk && a.main.listening && a.main.hooked else before && !(a.OfMain? && a.main.Unload?)
  }

  predicate HookedSince(before: bool, run: seq<Action>)
    decreases |run|
  {
    if run == [] then before else HookedSince(HookedAfter(before, run[0]), run[1..])
  }

  // ---------- What the statics say ----------

  /** The clean-up of an unload is on its way. */
  predicate Removing(s: State) {
    match s.main
    case RaisingFlag(fate) => fate.Remove?
    case JoiningSenders(_, fate) => fate.Remove?
    case JoiningRefresher(fate) => fate.Remove?
    case DestroyingClient(fate) => fate.Remove?
    case DroppingList(fate) => fate.Remove?
    case ReleasingList(fate) => fate.Remove?
    case FreeingPatterns(fate) => fate.Remove?
    case _ => false
  }

  /** Whether a load or a clean-up is about to be noted is in the program counter. */
  ghost predicate StaticsTell(s: State, stopped: bool, ticked: bool, loaded: bool, hooked: bool) {
    && FlagTells(s, stopped)
    && (!stopped ==> s.announced == ticked)
    && (if Removing(s) then !loaded && !hooked else s.loaded == loaded && s.subscribed == hooked)
  }

  ghost predicate TellsAfter(w: World, s: State, a: MainAction, stopped: bool, ticked: bool, loaded: bool, hooked: bool)
    requires MainReady(s, a) && MainFits(s, a)
  {
    StaticsTell(MainStep(w, s, a), StoppedAfter(stopped, OfMain(a)), TickedAfter(ticked, OfMain(a)),
                LoadedAfter(loaded, OfMain(a)), HookedAfter(hooked, OfMain(a)))
  }

  lemma LoadTellsStatics(w: World, s: State, a: MainAction, stopped: bool, ticked: bool, loaded: bool, hooked: bool)
    requires MainReady(s, a) && a.Load?
    ensures TellsAfter(w, s, a, stopped, ticked, loaded, hooked)
  {
    LoadStarts(s, a.curlOk, a.listening, a.hooked);
  }

  lemma LoadStarts(s: State, curlOk: bool, listening: bool, hooked: bool)
    requires s.main.EventLoop?
    ensures var s' := LoadStep(s, curlOk, listening, hooked);
            && s'.main.EventLoop? && !s'.closing && !s'.announced
            && s'.loaded == curlOk && s'.subscribed == (curlOk && listening && hooked)
  {}

  lemma EventTellsStatics(w: World, s: State, a: MainAction, stopped: bool, ticked: bool, loaded: bool, hooked: bool)
    requires StaticsTell(s, stopped, ticked, loaded, hooked) && MainReady(s, a) && MainFits(s, a)
    requires a.Cron? || a.EndSpawning?
    ensures TellsAfter(w, s, a, stopped, ticked, loaded, hooked)
  {}

  lemma StopTellsStatics(w: World, s: State, a: MainAction, stopped: bool, ticked: bool, loaded: bool, hooked: bool)
    requires StaticsTell(s, stopped, ticked, loaded, hooked) && MainReady(s, a) && MainFits(s, a)
    requires a.RefuseLoad? || a.Shutdown? || a.Unload?
    ensures TellsAfter(w, s, a, stopped, ticked, loaded, hooked)
  {}

  lemma StartIsNoRemoval(w: World, s: State, a: MainAction)
    requires MainReady(s, a) && MainFits(s, a) && StartsThreads(a)
    ensures !Removing(s) && !Removing(MainStep(w, s, a))
  {}

  lemma StartTellsStatics(w: World, s: State, a: MainAction)
    requires MainReady(s, a) && MainFits(s, a) && StartsThreads(a)
    ensures var s' := MainStep(w, s, a);
            && !Removing(s) && !Removing(s') && s'.announced == s.announced
            && s'.loaded == s.loaded && s'.subscribed == s.subscribed
  {
    StartIsNoRemoval(w, s, a);
    if a.ListInterfaces? {
      MainLeaves(w, s, a);
    } else {
      StartLeaves(w, s, a);
    }
  }

  lemma JoinKeepsFate(w: World, s: State, a: MainAction)
    requires MainReady(s, a) && MainFits(s, a) && !IsEvent(a) && !StartsThreads(a) && !DropsList(a)
    ensures Removing(MainStep(w, s, a)) == Removing(s)
  {}

  lemma DropKeepsFate(w: World, s: State)
    requires MainReady(s, DropCurrent) && MainFits(s, DropCurrent)
    ensures Removing(MainStep(w, s, DropCurrent)) == Removing(s)
  {}

  lemma ReleaseKeepsFate(s: State)
    requires MainReady(s, ReleaseCurrent) && MainFits(s, ReleaseCurrent)
    ensures Removing(ReleaseCurrentStep(s)) == Removing(s)
  {}

  lemma FateIsDone(s: State)
    requires MainReady(s, FreePatterns)
    ensures var s' := FreePatternsStep(s);
            && !Removing(s')
            && (if Removing(s) then !s'.loaded && !s'.subscribed
                else s'.loaded == s.loaded && s'.subscribed == s.subscribed)
  {}

  lemma CleanUpTellsStatics(w: World, s: State, a: MainAction)
    requires MainReady(s, a) && MainFits(s, a) && !IsEvent(a) && !StartsThreads(a)
    ensures var s' := MainStep(w, s, a);
            && s'.announced == s.announced
            && (if a.FreePatterns? && Removing(s) then !s'.loaded && !s'.subscribed && !Removing(s')
                else s'.loaded == s.loaded && s'.subscribed == s.subscribed && Removing(s') == Removing(s))
  {
    MainLeaves(w, s, a);
    if a.FreePatterns? {
      FateIsDone(s);
    } else if a.DropCurrent? {
      DropKeepsFate(w, s);
    } else if a.ReleaseCurrent? {
      ReleaseKeepsFate(s);
    } else {
      JoinKeepsFate(w, s, a);
    }
  }

  lemma OtherTellsStatics(w: World, s: State, a: MainAction, stopped: bool, ticked: bool, loaded: bool, hooked: bool)
    requires StaticsTell(s, stopped, ticked, loaded, hooked) && MainReady(s, a) && MainFits(s, a) && !IsEvent(a)
    ensures TellsAfter(w, s, a, stopped, ticked, loaded, hooked)
  {
    MainTells(w, s, a, stopped);
    if StartsThreads(a) {
      StartTellsStatics(w, s, a);
    } else {
      CleanUpTellsStatics(w, s, a);
    }
  }

  lemma MainTellsStatics(w: World, s: State, a: MainAction, stopped: bool, ticked: bool, loaded: bool, hooked: bool)
    requires StaticsTell(s, stopped, ticked, loaded, hooked) && MainReady(s, a) && MainFits(s, a)
    ensures TellsAfter(w, s, a, stopped, ticked, loaded, hooked)
  {
    if a.Load? {
      LoadTellsStatics(w, s, a, stopped, ticked, loaded, hooked);
    } else if a.RefuseLoad? || a.Shutdown? || a.Unload? {
      StopTellsStatics(w, s, a, stopped, ticked, loaded, hooked);
    } else if IsEvent(a) {
      EventTellsStatics(w, s, a, stopped, ticked, loaded, hooked);
    } else {
      OtherTellsStatics(w, s, a, stopped, ticked, loaded, hooked);
    }
  }

  lemma StepTellsStatics(w: World, s: State, a: Action, stopped: bool, ticked: bool, loaded: bool, hooked: bool)
    requires StaticsTell(s, stopped, ticked, loaded, hooked) && Ready(s, a) && Fits(s, a)
    ensures StaticsTell(Next(w, s, a), StoppedAfter(stopped, a), TickedAfter(ticked, a),
                        LoadedAfter(loaded, a), HookedAfter(hooked, a))
  {
    if a.OfMain? {
      MainTellsStatics(w, s, a.main, stopped, ticked, loaded, hooked);
    }
  }

  lemma {:induction false} RunTellsStatics(w: World, s: State, run: seq<Action>,
                                           stopped: bool, ticked: bool, loaded: bool, hooked: bool)
    requires StaticsTell(s, stopped, ticked, loaded, hooked) && CanRun(w, s, run)
    ensures StaticsTell(Final(w, s, run), StoppedSinceLoad(stopped, run), TickedSinceLoad(ticked, run),
                        LoadedSince(loaded, run), HookedSince(hooked, run))
    decreases |run|
  {
    if run != [] {
      var a := run[0];
      StepTellsStatics(w, s, a, stopped, ticked, loaded, hooked);
      RunTellsStatics(w, Next(w, s, a), run[1..], StoppedAfter(stopped, a), TickedAfter(ticked, a),
                      LoadedAfter(loaded, a), HookedAfter(hooked, a));
    }
  }

  // ---------- The handlers ----------

  /** In every run, with the main thread back in Redis: the module can be loaded exactly when it is not
      in Redis, shut down and unloaded exactly when it is, and a cron tick reaches it exactly when its
      last load found a listener and registered the hook. */
  lemma HandlersRunWhenTheyShould(w: World, run: seq<Action>, curlOk: bool, listening: bool, hooked: bool)
    requires CanRun(w, INITIAL, run) && Final(w, INITIAL, run).main.EventLoop?
    ensures var s := Final(w, INITIAL, run);
            && (MainReady(s, Load(curlOk, listening, hooked)) <==> !LoadedSince(false, run))
            && (MainReady(s, Shutdown) <==> LoadedSince(false, run))
            && (MainReady(s, Unload) <==> LoadedSince(false, run))
            && (MainReady(s, Cron) <==> LoadedSince(false, run) && HookedSince(false, run))
  {
    RunTellsStatics(w, INITIAL, run, false, false, false, false);
  }

  /** In every run a cron tick starts broadcasting exactly when it is the first since the last load and
      no refused load, shutdown or unload came since. */
  lemma TickStartsExactlyOnce(w: World, run: seq<Action>)
    requires CanRun(w, INITIAL, run) && MainReady(Final(w, INITIAL, run), Cron)
    ensures MainStep(w, Final(w, INITIAL, run), Cron).main.StartingCache? <==>
              !TickedSinceLoad(false, run) && !StoppedSinceLoad(false, run)
  {
    RunTellsStatics(w, INITIAL, run, false, false, false, false);
  }

  /** So a module that is loaded again announces again: whatever came before, after a load that found
      a listener and registered its hook the next cron tick comes and starts broadcasting. */
  lemma ReloadAnnouncesAgain(w: World, s: State)
    requires Reachable(w, s) && s.main.EventLoop? && !s.loaded
    ensures MainReady(s, Load(true, true, true))
    ensures var t := MainStep(w, s, Load(true, true, true));
            MainReady(t, Cron) && MainStep(w, t, Cron).main.StartingCache?
  {}
}
