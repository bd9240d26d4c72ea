/** next_delay of pod_cache.c: the capped exponential backoff of the refresh loop. */
module Backoff {
  import Settings

  newtype Int32 = x: int | -0x8000_0000 <= x < 0x8000_0000

  const MAX_RETRY_DELAY: Int32 := 30

  function Max(a: int, b: int): int {
    if a > b then a else b
  }

  function Min(a: int, b: int): int {
    if a < b then a else b
  }

  function Pow2(n: nat): nat {
    if n == 0 then 1 else 2 * Pow2(n - 1)
  }

  /** The longest wait between two requests. */
  function Cap(refresh: int): int {
    Max(refresh, 30)
  }

  /** The wait after `failures` failed requests in a row. */
  function Delay(refresh: int, failures: int): int {
    Min(Cap(refresh), refresh * Pow2(Max(failures, 1) - 1))
  }

  /** next_delay; that `delay *= 2` stays inside an int is part of what is verified here. */
  method NextDelay(refresh: Int32, failures: Int32) returns (r: Int32)
    requires refresh >= 1
    ensures r as int == Delay(refresh as int, failures as int)
  {
    var cap := if refresh > MAX_RETRY_DELAY then refresh else MAX_RETRY_DELAY;
    var delay := refresh;
    var i: Int32 := 1;
    while i < failures && delay < cap
      invariant 1 <= i && (i <= failures || i == 1)
      invariant delay as int == refresh as int * Pow2(i as int - 1)
      invariant 1 <= delay
      decreases failures as int - i as int
    {
      ScaledDoubles(refresh as int, i as int - 1);
      delay := delay * 2;
      i := i + 1;
    }
    if i < failures {
      DelayCapped(refresh as int, i as int, failures as int);
    }
    r := if delay < cap then delay else cap;
  }

  lemma ScaledDoubles(refresh: int, n: nat)
    ensures refresh * Pow2(n + 1) == 2 * (refresh * Pow2(n))
  {
    assert refresh * (2 * Pow2(n)) == 2 * (refresh * Pow2(n));
  }

  lemma {:induction false} Pow2Monotone(m: nat, n: nat)
    requires m <= n
    ensures 1 <= Pow2(m) <= Pow2(n)
    decreases n
  {
    if n > 0 {
      if m < n {
        Pow2Monotone(m, n - 1);
      } else {
        Pow2Monotone(m - 1, n - 1);
      }
    }
  }

  lemma ScaledMonotone(refresh: int, a: nat, b: nat)
    requires refresh >= 1 && a <= b
    ensures refresh * a <= refresh * b
  {}

  /** Once at the cap, more failures change nothing. */
  lemma DelayCapped(refresh: int, i: int, failures: int)
    requires refresh >= 1 && 1 <= i <= failures && refresh * Pow2(i - 1) >= Cap(refresh)
    ensures Delay(refresh, failures) == Cap(refresh)
  {
    Pow2Monotone(i - 1, failures - 1);
    ScaledMonotone(refresh, Pow2(i - 1), Pow2(failures - 1));
  }

  /** More failures never shorten the wait. */
  lemma DelayMonotone(refresh: int, f: int, g: int)
    requires refresh >= 1 && f <= g
    ensures Delay(refresh, f) <= Delay(refresh, g)
  {
    Pow2Monotone(Max(f, 1) - 1, Max(g, 1) - 1);
    ScaledMonotone(refresh, Pow2(Max(f, 1) - 1), Pow2(Max(g, 1) - 1));
  }

  /** The first wait is the refresh interval, each further one doubles up to the cap. */
  lemma DelayDoubles(refresh: int, failures: int)
    requires refresh >= 1 && failures >= 1
    ensures Delay(refresh, 1) == refresh
    ensures Delay(refresh, failures + 1) == Min(Cap(refresh), 2 * Delay(refresh, failures))
  {
    Pow2Monotone(0, failures - 1);
    ScaledMonotone(refresh, 1, Pow2(failures - 1));
    ScaledDoubles(refresh, failures - 1);
  }

  /** A refresh interval over 30 s is never stretched; a shorter one reaches 30 s after at most
      five doublings. */
  lemma DelaySettles(refresh: int, failures: int)
    requires refresh >= 1
    ensures refresh >= 30 ==> Delay(refresh, failures) == refresh
    ensures failures >= 6 ==> Delay(refresh, failures) == Cap(refresh)
  {
    assert Pow2(5) == 32;
    if failures >= 6 {
      DelayCapped(refresh, 6, failures);
    }
    Pow2Monotone(0, Max(failures, 1) - 1);
    ScaledMonotone(refresh, 1, Pow2(Max(failures, 1) - 1));
  }

  /** Whatever the environment says, the wait is between one second and max(refresh, 30). */
  lemma DelayBounds(env: Settings.Environment, failures: int)
    ensures var refresh := Settings.ReadConfig(env).refresh;
            1 <= Delay(refresh, failures) <= Max(refresh, 30) <= Settings.INT_MAX
  {
    Settings.EveryEnvironmentIsValid(env);
    var refresh := Settings.ReadConfig(env).refresh;
    Pow2Monotone(0, Max(failures, 1) - 1);
    ScaledMonotone(refresh, 1, Pow2(Max(failures, 1) - 1));
  }
}
