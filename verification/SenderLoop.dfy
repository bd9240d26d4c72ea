/** The loop of unicast_thread by itself: what one sender does with what its passes meet. */
module SenderLoop {
  import opened Prelude
  import opened Broker
  import opened BrokerInvariant

  /** What one pass meets: the closing flag, the list pod_cache_acquire hands out, and which of the
      sends succeed. */
  datatype Turn = Turn(closing: bool, got: Option<seq<string>>, delivered: seq<bool>)

  ghost predicate TurnOk(t: Turn) {
    t.got.Some? ==> |t.delivered| == |t.got.value|
  }

  /** The pass a turn should make: one send to each address. When it ran and which list was current
      is not the loop's business. */
  function Made(t: Turn): Pass {
    if t.got.None? then Pass(t.closing, 0, 0, 0, None, [], [], 0)
    else Pass(t.closing, 0, 0, 0, t.got, t.got.value, t.delivered, Misses(t.delivered))
  }

  function AllMade(turns: seq<Turn>): seq<Pass> {
    if turns == [] then []
    else AllMade(turns[..|turns| - 1]) + [Made(turns[|turns| - 1])]
  }

  /** The turns taken: up to the first that found the flag up. */
  function Taken(turns: seq<Turn>): (r: seq<Turn>)
    ensures |r| <= |turns| && r == turns[..|r|]
  {
    if turns == [] || turns[0].closing then turns[..if turns == [] then 0 else 1]
    else [turns[0]] + Taken(turns[1..])
  }

  lemma {:induction false} TakenAt(turns: seq<Turn>, n: nat)
    requires n <= |turns| && forall k :: 0 <= k < n - 1 ==> !turns[k].closing
    requires n == |turns| || (n > 0 && turns[n - 1].closing)
    ensures Taken(turns) == turns[..n]
  {
    if n > 0 && !turns[0].closing {
      TakenAt(turns[1..], n - 1);
      assert turns[..n] == [turns[0]] + turns[1..][..n - 1];
    }
  }

  /** The inner loop. */
  method SendAll(ips: seq<string>, delivered: seq<bool>) returns (sent: seq<string>, failed: nat)
    requires |delivered| == |ips|
    ensures sent == ips && failed == Misses(delivered)
  {
    sent, failed := [], 0;
    var i := 0;
    while i < |ips|
      invariant 0 <= i <= |ips|
      invariant sent == ips[..i] && failed == Misses(delivered[..i])
    {
      assert delivered[..i + 1][..i] == delivered[..i];
      sent := sent + [ips[i]];
      if !delivered[i] {
        failed := failed + 1;
      }
      i := i + 1;
    }
    assert delivered[..|ips|] == delivered;
  }

  /** unicast_thread, on the turns it is given. */
  method UnicastThread(turns: seq<Turn>) returns (passes: seq<Pass>, notices: seq<Notice>)
    requires forall k :: 0 <= k < |turns| ==> TurnOk(turns[k])
    ensures passes == AllMade(Taken(turns))
    ensures notices == Noticed(AllMade(Taken(turns))).1
  {
    passes, notices := [], [];
    var wasFailing := false;
    var n := 0;
    while n < |turns|
      invariant 0 <= n <= |turns|
      invariant forall k :: 0 <= k < n ==> !turns[k].closing
      invariant passes == AllMade(turns[..n])
      invariant (wasFailing, notices) == Noticed(passes)
      decreases |turns| - n
    {
      var t := turns[n];
      assert TurnOk(t);
      var sent, failed := [], 0;
      if t.got.Some? {
        sent, failed := SendAll(t.got.value, t.delivered);
      }
      ghost var before := passes;
      passes := passes + [Pass(t.closing, 0, 0, 0, t.got, sent, if t.got.Some? then t.delivered else [], failed)];
      assert passes[..|before|] == before && turns[..n + 1][..n] == turns[..n];
      if failed > 0 && !wasFailing {
        notices := notices + [Failing(failed, |t.got.value|)];
      } else if failed == 0 && wasFailing && t.got.Some? {
        notices := notices + [DeliveredAgain];
      }
      if t.got.Some? {
        wasFailing := failed > 0;
      }
      n := n + 1;
      if t.closing {
        TakenAt(turns, n);
        return;
      }
    }
    TakenAt(turns, n);
  }
}
