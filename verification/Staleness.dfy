/** The age of the stored list, as the three readers of pod_cache.c judge it. */
module Staleness {
  import opened Prelude

  /** What a reader under the lock sees of `current`. */
  datatype Held = Held(count: nat, receivedAt: int)

  predicate TooOld(receivedAt: int, now: int, maxAge: int) {
    maxAge > 0 && now - receivedAt > maxAge
  }

  /** describe_current: how many pods, and how old; a count of 0 stands for "no list". */
  function Describe(current: Option<Held>, now: int): (nat, int) {
    match current
    case None => (0, 0)
    case Some(held) => (held.count, now - held.receivedAt)
  }

  /** is_expired. */
  predicate IsExpired(current: Option<Held>, now: int, maxAge: int) {
    var (count, age) := Describe(current, now);
    maxAge > 0 && count != 0 && age > maxAge
  }

  datatype Standing = NoList | Expired(age: int) | Announcing(count: nat, age: int)

  /** The three branches of log_failure. */
  function FailureStanding(current: Option<Held>, now: int, maxAge: int): Standing {
    var (count, age) := Describe(current, now);
    if count == 0 then NoList
    else if maxAge > 0 && age > maxAge then Expired(age)
    else Announcing(count, age)
  }

  /** Does pod_cache_acquire hand out the list? */
  predicate Usable(current: Option<Held>, now: int, maxAge: int) {
    current.Some? && !TooOld(current.value.receivedAt, now, maxAge)
  }

  /** A list is in use up to its maximum age, that instant included. */
  lemma UsableUpToMaxAge(held: Held, now: int, maxAge: int)
    ensures Usable(Some(held), now, maxAge) <==> maxAge <= 0 || now - held.receivedAt <= maxAge
    ensures Usable(Some(held), held.receivedAt + maxAge, maxAge)
    ensures maxAge > 0 ==> !Usable(Some(held), held.receivedAt + maxAge + 1, maxAge)
  {}

  ghost predicate ReadersAgree(current: Option<Held>, now: int, maxAge: int) {
    var standing := FailureStanding(current, now, maxAge);
    && (standing.NoList? <==> current.None?)
    && (standing.Expired? <==> IsExpired(current, now, maxAge))
    && (standing.Announcing? <==> Usable(current, now, maxAge))
  }

  /** At one instant the readers agree (no list, expired, in use) exactly when the stored list is
      not an empty one, which is why refresh_pods must never publish an empty list. */
  lemma AgreementIsNonEmptiness(current: Option<Held>, now: int, maxAge: int)
    ensures ReadersAgree(current, now, maxAge) <==> (current.Some? ==> current.value.count >= 1)
  {
    if current.Some? && current.value.count == 0 {
      assert FailureStanding(current, now, maxAge).NoList?;
    }
  }

  /** Age only grows: an expired list stays expired until it is replaced. */
  lemma ExpiryIsFinal(current: Option<Held>, now: int, later: int, maxAge: int)
    requires now <= later && IsExpired(current, now, maxAge)
    ensures IsExpired(current, later, maxAge)
  {}
}
