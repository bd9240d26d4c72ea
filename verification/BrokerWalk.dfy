/** Taking runs apart and putting them together. */
module BrokerWalk {
  import opened Broker
  import opened BrokerRuns

  lemma {:induction false} RunAppend(w: World, s: State, run: seq<Action>, a: Action)
    requires CanRun(w, s, run) && Ready(Final(w, s, run), a) && Fits(Final(w, s, run), a)
    ensures CanRun(w, s, run + [a]) && Final(w, s, run + [a]) == Next(w, Final(w, s, run), a)
    decreases |run|
  {
    if run == [] {
      assert [a][1..] == [];
    } else {
      assert (run + [a])[1..] == run[1..] + [a];
      RunAppend(w, Next(w, s, run[0]), run[1..], a);
    }
  }

  /** One step further. */
  lemma Walk(w: World, s: State, a: Action) returns (t: State)
    requires Reachable(w, s) && Ready(s, a)
    ensures Fits(s, a) && t == Next(w, s, a) && Reachable(w, t)
  {
    ReachableInv(w, s);
    AlwaysFits(w, s, a);
    t := Next(w, s, a);
    var run :| CanRun(w, INITIAL, run) && Final(w, INITIAL, run) == s;
    RunAppend(w, INITIAL, run, a);
  }

  /** A run up to some point, and from there on. */
  lemma {:induction false} RunSplit(w: World, s: State, run: seq<Action>, k: nat)
    requires CanRun(w, s, run) && k <= |run|
    ensures CanRun(w, s, run[..k]) && CanRun(w, Final(w, s, run[..k]), run[k..])
    ensures Final(w, Final(w, s, run[..k]), run[k..]) == Final(w, s, run)
    decreases k
  {
    if k == 0 {
      assert run[0..] == run;
    } else {
      assert run[..k][1..] == run[1..][..k - 1] && run[k..] == run[1..][k - 1..];
      RunSplit(w, Next(w, s, run[0]), run[1..], k - 1);
    }
  }

  /** Every state on the way is reachable. */
  lemma OnTheWay(w: World, run: seq<Action>, k: nat)
    requires CanRun(w, INITIAL, run) && k <= |run|
    ensures CanRun(w, INITIAL, run[..k]) && Reachable(w, Final(w, INITIAL, run[..k]))
  {
    RunSplit(w, INITIAL, run, k);
  }
}
