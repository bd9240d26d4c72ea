/** What the sends of a pass come to: outcomes, counts and notices, read off the run. */
module BrokerNotices {
  import opened Prelude
  import opened Broker
  import opened BrokerFrame
  import opened BrokerInvariant
  import opened BrokerRuns
  import opened BrokerSenders

  // ---------- Counting failures ----------

  /** No send failed exactly when every one succeeded. */
  lemma {:induction false} MissesNone(delivered: seq<bool>)
    ensures Misses(delivered) == 0 <==> forall k :: 0 <= k < |delivered| ==> delivered[k]
  {
    if delivered != [] {
      var last := |delivered| - 1;
      MissesNone(delivered[..last]);
      assert delivered == delivered[..last] + [delivered[last]];
    }
  }

  lemma {:induction false} MissesAppend(a: seq<bool>, b: seq<bool>)
    ensures Misses(a + b) == Misses(a) + Misses(b)
    decreases |b|
  {
    if b == [] {
      assert a + b == a;
    } else {
      var last := |b| - 1;
      MissesAppend(a, b[..last]);
      assert (a + b)[..|a| + last] == a + b[..last];
    }
  }

  /** And all of them did exactly when none succeeded. */
  lemma {:induction false} MissesAll(delivered: seq<bool>)
    ensures Misses(delivered) == |delivered| <==> forall k :: 0 <= k < |delivered| ==> !delivered[k]
  {
    if delivered != [] {
      var last := |delivered| - 1;
      MissesAll(delivered[..last]);
      assert delivered == delivered[..last] + [delivered[last]];
    }
  }

  // ---------- The outcomes of a run ----------

  /** What the sends of sender `i` returned, in order. */
  function Outcomes(run: seq<Action>, i: nat): seq<bool> {
    if run == [] then [] else Outcome(run[0], i) + Outcomes(run[1..], i)
  }

  function Outcome(a: Action, i: nat): seq<bool> {
    if a.OfSender? && a.i == i && a.sender.Send? then [a.sender.ok] else []
  }

  function Joined(passes: seq<Pass>): seq<bool> {
    if passes == [] then [] else Joined(passes[..|passes| - 1]) + passes[|passes| - 1].delivered
  }

  /** What a sender has noted: the outcomes of its completed passes, and of the one under way. */
  function Noted(x: Sender): seq<bool> {
    Joined(x.passes) + if x.pc.Sending? then x.pass.delivered else []
  }

  lemma JoinedNext(passes: seq<Pass>, p: Pass)
    ensures Joined(passes + [p]) == Joined(passes) + p.delivered
  {
    assert (passes + [p])[..|passes|] == passes;
  }

  lemma SenderNotes(w: World, s: State, i: nat, a: SenderAction)
    requires SenderReady(s, i, a) && SenderFits(s, i, a)
    ensures Noted(SenderNext(w, s, i, a)) == Noted(s.senders[i]) + Outcome(OfSender(i, a), i)
  {
    var x := s.senders[i];
    JoinedNext(x.passes, x.pass);
  }

  lemma NewSenderNotes(s: State, taskOk: bool, threadOk: bool)
    requires s.main.Spawning? && s.main.rest != []
    ensures var s' := NextInterfaceStep(s, taskOk, threadOk);
            forall i :: |s.senders| <= i < |s'.senders| ==> Noted(s'.senders[i]) == []
  {}

  lemma MainKeepsSenders(w: World, s: State, a: MainAction)
    requires MainReady(s, a) && MainFits(s, a)
    ensures var s' := MainStep(w, s, a);
            && s.senders <= s'.senders
            && forall i :: |s.senders| <= i < |s'.senders| ==> Noted(s'.senders[i]) == []
  {
    if a.StartCache? {
      StartLeaves(w, s, a);
    } else if a.NextInterface? {
      StartLeaves(w, s, a);
      NewSenderNotes(s, a.taskOk, a.threadOk);
    } else {
      MainLeaves(w, s, a);
    }
  }

  /** What sender `i` has noted; nothing before it exists. */
  function NotedBy(s: State, i: nat): seq<bool> {
    if i < |s.senders| then Noted(s.senders[i]) else []
  }

  lemma StepNotes(w: World, s: State, a: Action, i: nat)
    requires Ready(s, a) && Fits(s, a)
    ensures NotedBy(Next(w, s, a), i) == NotedBy(s, i) + Outcome(a, i)
  {
    if a.OfSender? {
      SenderNotes(w, s, a.i, a.sender);
    } else if a.OfMain? {
      MainKeepsSenders(w, s, a.main);
    }
  }

  lemma {:induction false} RunNotes(w: World, s: State, run: seq<Action>, i: nat)
    requires CanRun(w, s, run)
    ensures NotedBy(Final(w, s, run), i) == NotedBy(s, i) + Outcomes(run, i)
    decreases |run|
  {
    if run != [] {
      StepNotes(w, s, run[0], i);
      RunNotes(w, Next(w, s, run[0]), run[1..], i);
    }
  }

  lemma PassesAreCounted(w: World, s: State, x: Sender)
    requires PassesOk(w, s, x)
    ensures forall k :: 0 <= k < |x.passes| ==>
              && |x.passes[k].delivered| == |x.passes[k].sent|
              && x.passes[k].failed == Misses(x.passes[k].delivered)
  {
    forall k | 0 <= k < |x.passes|
      ensures |x.passes[k].delivered| == |x.passes[k].sent|
      ensures x.passes[k].failed == Misses(x.passes[k].delivered)
    {
      assert PassOk(w, s.published, x.born, x.passes[k]);
    }
  }

  /** In every run the outcomes of a sender's passes, joined, are what its sends returned, in order;
      each pass has one for each address, and `failed` is the number of refusals among them. */
  lemma FailuresAreRefusedSends(w: World, run: seq<Action>, i: nat)
    requires CanRun(w, INITIAL, run) && i < |Final(w, INITIAL, run).senders|
    ensures var x := Final(w, INITIAL, run).senders[i];
            && Outcomes(run, i) == Joined(x.passes) + (if x.pc.Sending? then x.pass.delivered else [])
            && forall k :: 0 <= k < |x.passes| ==>
                 && |x.passes[k].delivered| == |x.passes[k].sent|
                 && x.passes[k].failed == Misses(x.passes[k].delivered)
  {
    RunNotes(w, INITIAL, run, i);
    InitialInv(w);
    RunKeeps(w, INITIAL, run);
    var s := Final(w, INITIAL, run);
    assert SenderOk(w, s, i);
    PassesAreCounted(w, s, s.senders[i]);
  }

  // ---------- When something is said ----------

  /** Some send of the pass was refused. */
  predicate Refused(p: Pass) {
    p.got.Some? && false in p.delivered
  }

  /** Of these passes the latest that had a list had a refused send. */
  ghost predicate LastRefused(passes: seq<Pass>) {
    exists k :: 0 <= k < |passes| && Refused(passes[k]) && forall m :: k < m < |passes| ==> passes[m].got.None?
  }

  ghost predicate Counted(passes: seq<Pass>) {
    forall k :: 0 <= k < |passes| ==> passes[k].failed == Misses(passes[k].delivered)
  }

  lemma RefusedIsCounted(p: Pass)
    requires p.failed == Misses(p.delivered)
    ensures p.failed > 0 <==> false in p.delivered
  {
    MissesNone(p.delivered);
  }

  lemma LastRefusedNext(passes: seq<Pass>, p: Pass)
    ensures LastRefused(passes + [p]) <==> if p.got.None? then LastRefused(passes) else Refused(p)
  {
    var all := passes + [p];
    if p.got.None? && LastRefused(passes) {
      var k :| 0 <= k < |passes| && Refused(passes[k]) && forall m :: k < m < |passes| ==> passes[m].got.None?;
      assert Refused(all[k]);
    }
    if p.got.Some? && Refused(p) {
      assert Refused(all[|passes|]);
    }
    if LastRefused(all) {
      var k :| 0 <= k < |all| && Refused(all[k]) && forall m :: k < m < |all| ==> all[m].got.None?;
      if k < |passes| {
        assert all[|passes|].got.None?;
        assert Refused(passes[k]) && forall m :: k < m < |passes| ==> passes[m] == all[m];
      }
    }
  }

  lemma {:induction false} FailingMeansLastRefused(passes: seq<Pass>)
    requires Counted(passes)
    ensures Noticed(passes).0 <==> LastRefused(passes)
  {
    if passes != [] {
      var front, p := passes[..|passes| - 1], passes[|passes| - 1];
      FailingMeansLastRefused(front);
      assert passes == front + [p];
      LastRefusedNext(front, p);
      RefusedIsCounted(p);
    }
  }

  /** A pass adds a warning exactly when a send of it was refused and none was in the latest pass with
      a list before it, an all-clear exactly the other way round, and otherwise nothing. */
  ghost function Said(passes: seq<Pass>, p: Pass): seq<Notice> {
    if p.got.None? then []
    else if false in p.delivered && !LastRefused(passes) then [Failing(Misses(p.delivered), |p.got.value|)]
    else if false !in p.delivered && LastRefused(passes) then [DeliveredAgain]
    else []
  }

  lemma NoticesNext(passes: seq<Pass>, p: Pass)
    requires Counted(passes + [p])
    ensures Noticed(passes + [p]).1 == Noticed(passes).1 + Said(passes, p)
  {
    assert forall k :: 0 <= k < |passes| ==> (passes + [p])[k] == passes[k];
    assert (passes + [p])[|passes|] == p;
    FailingMeansLastRefused(passes);
    RefusedIsCounted(p);
    NoticedNext(passes, p);
  }

  lemma NoticesAt(passes: seq<Pass>, k: nat)
    requires Counted(passes) && k < |passes|
    ensures Noticed(passes[..k + 1]).1 == Noticed(passes[..k]).1 + Said(passes[..k], passes[k])
  {
    assert passes[..k + 1] == passes[..k] + [passes[k]];
    assert forall m :: 0 <= m < k + 1 ==> passes[..k + 1][m] == passes[m];
    NoticesNext(passes[..k], passes[k]);
  }

  /** In every run a sender's notices are exactly what its completed passes call for, one after the
      other. */
  lemma NoticesSayWhatHappened(w: World, s: State, i: nat, k: nat)
    requires Reachable(w, s) && i < |s.senders| && k < |s.senders[i].passes|
    ensures var x := s.senders[i];
            && Noticed(x.passes[..k + 1]).1 == Noticed(x.passes[..k]).1 + Said(x.passes[..k], x.passes[k])
            && Noticed(x.passes[..0]).1 == [] && x.notices == Noticed(x.passes[..|x.passes|]).1
  {
    ReachableSender(w, s, i);
    var x := s.senders[i];
    PassesAreCounted(w, s, x);
    NoticesAt(x.passes, k);
    assert x.passes[..|x.passes|] == x.passes;
  }
}
