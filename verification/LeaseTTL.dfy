/** The service's TTL check, in 64-bit arithmetic, and what the state machine makes of what it accepts. */
module LeaseTTL {
  import opened Domain
  import opened Fsm
  import opened Replicas

  /** Two's-complement reduction of a result to 64 bits. */
  function Wrap(x: int): int64 {
    (x - MIN_INT64) % 0x1_0000_0000_0000_0000 + MIN_INT64
  }

  const MAX_TTL_SECONDS: int64 := MAX_INT64 / SECOND

  function TTLDuration(ttlSeconds: int64, now: int64): Option<int64> {
    if ttlSeconds <= 0 || ttlSeconds > MAX_TTL_SECONDS then None else
    var ttl := Wrap(ttlSeconds * SECOND);
    var maxExpiryNanos := Wrap(MAX_INT64 - now);
    if maxExpiryNanos <= 0 || ttl > maxExpiryNanos then None else Some(ttl)
  }

  /** For a positive clock no step wraps, and exactly the TTLs whose expiry fits in 64 bits are accepted. */
  lemma AcceptedTTLs(ttlSeconds: int64, now: int64)
    requires 0 < now
    ensures Wrap(MAX_INT64 - now) == MAX_INT64 - now
    ensures 0 < ttlSeconds <= MAX_TTL_SECONDS ==> Wrap(ttlSeconds * SECOND) == ttlSeconds * SECOND
    ensures TTLDuration(ttlSeconds, now).Some? <==>
              0 < ttlSeconds && now + ttlSeconds * 1_000_000_000 <= 9_223_372_036_854_775_807
    ensures TTLDuration(ttlSeconds, now).Some? ==> TTLDuration(ttlSeconds, now).value == ttlSeconds * SECOND
  {
    if 0 < ttlSeconds <= MAX_TTL_SECONDS {
      assert 0 < ttlSeconds * SECOND <= MAX_INT64;
      InRange(ttlSeconds * SECOND);
    }
    InRange(MAX_INT64 - now);
  }

  /** A clock at the epoch leaves all 64 bits to the TTL; one before it wraps, and every TTL is refused. */
  lemma EarlyClock(ttlSeconds: int64, now: int64)
    requires now <= 0
    ensures TTLDuration(ttlSeconds, now) ==
            if now == 0 && 0 < ttlSeconds <= MAX_TTL_SECONDS then Some(ttlSeconds * SECOND) else None
  {
    if now < 0 {
      assert Wrap(MAX_INT64 - now) == MIN_INT64 - now - 1;
    } else {
      InRange(MAX_INT64);
      if 0 < ttlSeconds <= MAX_TTL_SECONDS {
        assert 0 < ttlSeconds * SECOND <= MAX_INT64;
        InRange(ttlSeconds * SECOND);
      }
    }
  }

  lemma InRange(x: int)
    requires MIN_INT64 <= x <= MAX_INT64
    ensures Wrap(x) == x
  {
  }

  /**
   Whatever the service accepts, the state machine accepts: the lease expires at
   `now` plus the TTL, the TTL reads back as the requested seconds, and a snapshot
   holding the lease is not rejected for it.
   */
  lemma AcceptedTTLCreatesLease(s: State, ownerID: string, ttlSeconds: int64, now: int64)
    requires 0 < now && TTLDuration(ttlSeconds, now).Some?
    ensures var ttl := TTLDuration(ttlSeconds, now).value;
            var (s', resp) := Step(s, CreateLease(ownerID, ttl, now));
            && resp == LeaseCreated(s.nextLeaseID, now + ttl, ttl)
            && s.nextLeaseID in s'.leases && LeaseAccepted(Some(s'.leases[s.nextLeaseID]))
            && ttl / SECOND == ttlSeconds
  {
    AcceptedTTLs(ttlSeconds, now);
  }
}
