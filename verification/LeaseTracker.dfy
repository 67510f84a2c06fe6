/**
 The leader's in-memory view of lease liveness. Renewals never enter the Raft
 log; the tracker records them and decides which leases are dead. All times are
 readings of this process's own clock.
 */
module LeaseTracker {
  import opened Domain

  /** `leaderSince` and absent `renewedAt` entries are None where the zero time would be. */
  datatype Tracker = Tracker(term: nat, leaderSince: Option<int>, renewedAt: map<nat, int>, expiring: set<nat>)

  const FRESH := Tracker(0, None, map[], {})

  function Synced(t: Tracker, term: nat, now: int): Tracker {
    if term == t.term then t else Tracker(term, Some(now), map[], {})
  }

  function LastRenewal(t: Tracker, id: nat): Option<int> {
    if id in t.renewedAt then Some(t.renewedAt[id]) else None
  }

  function Extend(deadline: int, from: Option<int>, ttl: int): int {
    if from.Some? && from.value + ttl > deadline then from.value + ttl else deadline
  }

  /** One TTL after the latest of creation, takeover and last renewal. */
  function DeadlineOf(t: Tracker, lease: Lease): int {
    Extend(Extend(lease.expiresAt, t.leaderSince, lease.ttl), LastRenewal(t, lease.leaseID), lease.ttl)
  }

  predicate Renewable(t: Tracker, now: int, lease: Lease) {
    lease.leaseID !in t.expiring && now < DeadlineOf(t, lease)
  }

  /** The tracker after a renewal call, and whether it was recorded. */
  function Renewed(t: Tracker, term: nat, now: int, lease: Lease): (Tracker, bool) {
    var t' := Synced(t, term, now);
    if Renewable(t', now, lease) then (t'.(renewedAt := t'.renewedAt[lease.leaseID := now]), true) else (t', false)
  }

  predicate Claimable(t: Tracker, now: int, lease: Lease) {
    lease.leaseID !in t.expiring && DeadlineOf(t, lease) <= now
  }

  /** IDs claimed by one pass of the expiry loop over `leases`, in that order. */
  function Claimed(t: Tracker, now: int, leases: seq<Lease>): seq<nat> {
    if leases == [] then [] else
    var earlier := Claimed(t, now, leases[..|leases| - 1]);
    var lease := leases[|leases| - 1];
    if lease.leaseID !in earlier && Claimable(t, now, lease) then earlier + [lease.leaseID] else earlier
  }

  function ClaimPass(t: Tracker, term: nat, now: int, leases: seq<Lease>): (Tracker, seq<nat>) {
    var t' := Synced(t, term, now);
    var ids := Claimed(t', now, leases);
    (t'.(expiring := t'.expiring + set id | id in ids), ids)
  }

  function Finished(t: Tracker, id: nat, committed: bool): Tracker {
    t.(expiring := t.expiring - {id}, renewedAt := if committed then t.renewedAt - {id} else t.renewedAt)
  }

  /** A pass claims exactly the unmarked leases past their deadline, each once. */
  lemma {:induction false} ClaimedExactly(t: Tracker, now: int, leases: seq<Lease>)
    ensures forall id :: id in Claimed(t, now, leases) <==>
                           exists i :: 0 <= i < |leases| && leases[i].leaseID == id && Claimable(t, now, leases[i])
    ensures forall i, j :: 0 <= i < j < |Claimed(t, now, leases)| ==>
                             Claimed(t, now, leases)[i] != Claimed(t, now, leases)[j]
  {
    if leases != [] {
      var n := |leases| - 1;
      ClaimedExactly(t, now, leases[..n]);
      assert leases[..n + 1] == leases;
    }
  }

  /** The tracker itself, updated in place under its mutex. */
  class LeaseTracker {
    var term: nat
    var leaderSince: Option<int>
    var renewedAt: map<nat, int>
    var expiring: set<nat>

    function Value(): Tracker
      reads this
    {
      Tracker(term, leaderSince, renewedAt, expiring)
    }

    constructor ()
      ensures Value() == FRESH
    {
      term, leaderSince, renewedAt, expiring := 0, None, map[], {};
    }

    method SyncTerm(newTerm: nat, now: int)
      modifies this
      ensures Value() == Synced(old(Value()), newTerm, now)
    {
      if newTerm == term {
        return;
      }
      term := newTerm;
      leaderSince := Some(now);
      renewedAt := map[];
      expiring := {};
    }

    method Deadline(lease: Lease) returns (deadline: int)
      ensures deadline == DeadlineOf(Value(), lease)
    {
      deadline := lease.expiresAt;
      var candidates := [leaderSince, LastRenewal(Value(), lease.leaseID)];
      for i := 0 to |candidates|
        invariant i == 0 ==> deadline == lease.expiresAt
        invariant i == 1 ==> deadline == Extend(lease.expiresAt, leaderSince, lease.ttl)
        invariant i == 2 ==> deadline == DeadlineOf(Value(), lease)
      {
        var from := candidates[i];
        if from.Some? && from.value + lease.ttl > deadline {
          deadline := from.value + lease.ttl;
        }
      }
    }

    method Renew(callTerm: nat, now: int, lease: Lease) returns (err: Option<Error>)
      modifies this
      ensures (Value(), err.None?) == Renewed(old(Value()), callTerm, now, lease)
      ensures err == None || err == Some(ErrLeaseExpired)
    {
      SyncTerm(callTerm, now);
      var deadline := Deadline(lease);
      if lease.leaseID in expiring || !(now < deadline) {
        return Some(ErrLeaseExpired);
      }
      renewedAt := renewedAt[lease.leaseID := now];
      err := None;
    }

    method ClaimExpired(callTerm: nat, now: int, leases: seq<Lease>) returns (expired: seq<nat>)
      modifies this
      ensures (Value(), expired) == ClaimPass(old(Value()), callTerm, now, leases)
    {
      SyncTerm(callTerm, now);
      expired := [];
      ghost var synced := Value();
      for i := 0 to |leases|
        invariant expired == Claimed(synced, now, leases[..i])
        invariant Value() == synced.(expiring := synced.expiring + set id | id in expired)
      {
        var lease := leases[i];
        assert leases[..i + 1][..i] == leases[..i];
        var deadline := Deadline(lease);
        assert deadline == DeadlineOf(synced, lease);
        if lease.leaseID !in expiring && !(now < deadline) {
          MarkOne(synced.expiring, expired, lease.leaseID);
          expiring := expiring + {lease.leaseID};
          expired := expired + [lease.leaseID];
        }
      }
      assert leases[..|leases|] == leases;
    }

    method Alive(callTerm: nat, now: int, lease: Lease) returns (alive: bool)
      modifies this
      ensures Value() == Synced(old(Value()), callTerm, now)
      ensures alive <==> Renewable(Value(), now, lease)
    {
      SyncTerm(callTerm, now);
      var deadline := Deadline(lease);
      alive := lease.leaseID !in expiring && now < deadline;
    }

    method FinishExpiry(leaseID: nat, committed: bool)
      modifies this`expiring, this`renewedAt
      ensures Value() == Finished(old(Value()), leaseID, committed)
    {
      expiring := expiring - {leaseID};
      if committed {
        renewedAt := renewedAt - {leaseID};
      }
    }
  }

  lemma MarkOne(marks: set<nat>, ids: seq<nat>, id: nat)
    ensures marks + (set x | x in ids + [id]) == marks + (set x | x in ids) + {id}
  {
    assert forall x :: x in ids + [id] <==> x in ids || x == id;
  }

  // -------------------------------------------------------- claimed means dead

  /** One call on the tracker, all within the tracker's current term. */
  datatype Call =
    | CallRenew(now: int, lease: Lease)
    | CallClaim(now: int, leases: seq<Lease>)
    | CallAlive(now: int, lease: Lease)
    | CallFinish(id: nat, committed: bool)

  function ExecCall(t: Tracker, call: Call): Tracker {
    match call
    case CallRenew(now, lease) => Renewed(t, t.term, now, lease).0
    case CallClaim(now, leases) => ClaimPass(t, t.term, now, leases).0
    case CallAlive(now, lease) => Synced(t, t.term, now)
    case CallFinish(id, committed) => Finished(t, id, committed)
  }

  function ExecCalls(t: Tracker, calls: seq<Call>): Tracker {
    if calls == [] then t else ExecCall(ExecCalls(t, calls[..|calls| - 1]), calls[|calls| - 1])
  }

  /** No renewal call of this lease in `calls` carries a clock reading before `c`. */
  ghost predicate NoReadingBefore(calls: seq<Call>, id: nat, c: int) {
    forall i :: 0 <= i < |calls| && calls[i].CallRenew? && calls[i].lease.leaseID == id ==> c <= calls[i].now
  }

  /** Any two copies of one lease agree on what the deadline is computed from. */
  ghost predicate SameLease(a: Lease, b: Lease) {
    a.leaseID == b.leaseID ==> a.expiresAt == b.expiresAt && a.ttl == b.ttl
  }

  ghost predicate CopiesOf(calls: seq<Call>, lease: Lease) {
    forall i :: 0 <= i < |calls| && calls[i].CallRenew? ==> SameLease(calls[i].lease, lease)
  }

  /** The deadline of a dead lease never moves past the claim, whatever is called next. */
  lemma {:induction false} DeadlineFrozen(t: Tracker, lease: Lease, c: int, calls: seq<Call>)
    requires DeadlineOf(t, lease) <= c
    requires NoReadingBefore(calls, lease.leaseID, c) && CopiesOf(calls, lease)
    ensures ExecCalls(t, calls).term == t.term
    ensures DeadlineOf(ExecCalls(t, calls), lease) <= c
  {
    if calls != [] {
      var n := |calls| - 1;
      DeadlineFrozen(t, lease, c, calls[..n]);
    }
  }

  /**
   From now on in this term, as long as all readings of the lease are from `b` on,
   no renewal of it succeeds: whatever passes, checks and finishes are called, and
   with any copy of the lease.
   */
  ghost predicate StaysDead(t: Tracker, lease: Lease, b: int) {
    forall calls, now :: NoReadingBefore(calls, lease.leaseID, b) && CopiesOf(calls, lease) && b <= now ==>
      !Renewed(ExecCalls(t, calls), t.term, now, lease).1
  }

  /** Over whole histories, a lease stays dead for the readings from `b` on exactly if `b` is past its deadline. */
  lemma DeadExactly(t: Tracker, lease: Lease, b: int)
    ensures StaysDead(t, lease, b) <==> DeadlineOf(t, lease) <= b
  {
    if DeadlineOf(t, lease) <= b {
      forall calls, now | NoReadingBefore(calls, lease.leaseID, b) && CopiesOf(calls, lease) && b <= now
        ensures !Renewed(ExecCalls(t, calls), t.term, now, lease).1
      {
        DeadlineFrozen(t, lease, b, calls);
      }
    } else {
      // A failed expiry takes the mark away and leaves the deadline.
      var calls := [CallFinish(lease.leaseID, false)];
      assert calls[..0] == [];
      assert ExecCalls(t, calls) == Finished(ExecCalls(t, []), lease.leaseID, false);
      assert NoReadingBefore(calls, lease.leaseID, b) && CopiesOf(calls, lease);
      assert Renewed(ExecCalls(t, calls), t.term, b, lease).1;
    }
  }

  /**
   Once a pass at time `c` has claimed a lease, it stays dead for all readings from
   `c` on; and for those from any earlier `b` on exactly if `b` is past the
   deadline it had.
   */
  lemma ClaimedMeansDead(t: Tracker, c: int, leases: seq<Lease>, lease: Lease)
    requires lease in leases && lease.leaseID in Claimed(t, c, leases)
    requires forall i :: 0 <= i < |leases| ==> SameLease(leases[i], lease)
    ensures var marked := ClaimPass(t, t.term, c, leases).0;
            && StaysDead(marked, lease, c)
            && (forall b :: StaysDead(marked, lease, b) <==> DeadlineOf(t, lease) <= b)
  {
    hide StaysDead;
    ClaimedExactly(t, c, leases);
    var marked := ClaimPass(t, t.term, c, leases).0;
    assert DeadlineOf(marked, lease) == DeadlineOf(t, lease) <= c;
    forall b ensures StaysDead(marked, lease, b) <==> DeadlineOf(t, lease) <= b {
      DeadExactly(marked, lease, b);
    }
  }

  /** No call within a term changes the term or the time it was met. */
  lemma {:induction false} TermStays(t: Tracker, calls: seq<Call>)
    ensures ExecCalls(t, calls).term == t.term && ExecCalls(t, calls).leaderSince == t.leaderSince
  {
    if calls != [] {
      TermStays(t, calls[..|calls| - 1]);
    }
  }

  /**
   Exactly what a committed expiry leaves open. Whatever calls came before its
   finish, the next renewal of the lease is accepted if and only if its reading
   lies before the later of its creation expiry and one TTL after the takeover.
   */
  lemma {:induction false} FinishedRenewableExactly(t: Tracker, lease: Lease, calls: seq<Call>, now: int)
    ensures var after := Finished(ExecCalls(t, calls), lease.leaseID, true);
            Renewed(after, t.term, now, lease).1 <==> now < Extend(lease.expiresAt, t.leaderSince, lease.ttl)
  {
    TermStays(t, calls);
  }

  /**
   Exactly what a failed expiry leaves open: the next renewal is accepted if and
   only if its reading lies before the deadline the lease had when it was claimed.
   */
  lemma {:induction false} FailedRenewableExactly(t: Tracker, lease: Lease, calls: seq<Call>, now: int)
    requires lease.leaseID in t.expiring
    requires forall i :: 0 <= i < |calls| && calls[i].CallFinish? ==> calls[i].id != lease.leaseID
    ensures var after := Finished(ExecCalls(t, calls), lease.leaseID, false);
            Renewed(after, t.term, now, lease).1 <==> now < DeadlineOf(t, lease)
  {
    TermStays(t, calls);
    MarkedKeepsRenewal(t, lease.leaseID, calls);
  }

  lemma {:induction false} MarkedKeepsRenewal(t: Tracker, id: nat, calls: seq<Call>)
    requires id in t.expiring
    requires forall i :: 0 <= i < |calls| && calls[i].CallFinish? ==> calls[i].id != id
    ensures id in ExecCalls(t, calls).expiring && LastRenewal(ExecCalls(t, calls), id) == LastRenewal(t, id)
  {
    if calls != [] {
      MarkedKeepsRenewal(t, id, calls[..|calls| - 1]);
    }
  }

  /** Until its expiry finishes, a claimed lease refuses every renewal, however old the clock reading. */
  lemma {:induction false} MarkedRefusesAll(t: Tracker, id: nat, calls: seq<Call>)
    requires id in t.expiring
    requires forall i :: 0 <= i < |calls| && calls[i].CallFinish? ==> calls[i].id != id
    ensures id in ExecCalls(t, calls).expiring && ExecCalls(t, calls).term == t.term
    ensures forall now, lease: Lease | lease.leaseID == id :: !Renewed(ExecCalls(t, calls), t.term, now, lease).1
  {
    if calls != [] {
      MarkedRefusesAll(t, id, calls[..|calls| - 1]);
    }
  }

  /**
   A finished expiry reopens the lease to an old reading: a renewal that read
   the clock at 9, before the claim at 10, is recorded after that expiry has
   committed, and then one read at 11, after the claim, is recorded too. Reading
   the clock inside the tracker's mutex would rule this out.
   */
  lemma LateReadingRevivesFinishedLease()
    ensures var lease := Lease(1, "o", 10, 4);
            var t := Tracker(1, Some(0), map[], {});
            var claimed := ClaimPass(t, 1, 10, [lease]);
            && claimed.1 == [1]
            && (var late := Renewed(Finished(claimed.0, 1, true), 1, 9, lease);
                late.1 && Renewed(late.0, 1, 11, lease).1)
  {
    var lease := Lease(1, "o", 10, 4);
    var t := Tracker(1, Some(0), map[], {});
    assert Claimed(t, 10, [lease][..0]) == [];
  }

  /**
   An older reading recorded after a newer one moves the deadline back: a renewal
   at 12 is recorded, then one read at 8, and the lease is claimed at 13 although
   the first renewal was good until 16.
   */
  lemma OlderReadingShortensRenewal()
    ensures var lease := Lease(1, "o", 10, 4);
            var t := Tracker(1, Some(9), map[1 := 9], {});
            var newer := Renewed(t, 1, 12, lease);
            var older := Renewed(newer.0, 1, 8, lease);
            && newer.1 && older.1
            && ClaimPass(newer.0, 1, 13, [lease]).1 == []
            && ClaimPass(older.0, 1, 13, [lease]).1 == [1]
  {
    var lease := Lease(1, "o", 10, 4);
    var t := Tracker(1, Some(9), map[1 := 9], {});
    var newer := Renewed(t, 1, 12, lease).0;
    var older := Renewed(newer, 1, 8, lease).0;
    assert [lease][..0] == [];
    assert Claimed(newer, 13, [lease]) == Claimed(newer, 13, []) == [];
    assert Claimed(older, 13, [lease]) == Claimed(older, 13, []) + [1];
  }

  /**
   A call with an older term resets the tracker twice and forgets the claim:
   the lease claimed in term 2 at 10 is renewable in term 2 at 11.
   */
  lemma OlderTermForgetsClaim()
    ensures var lease := Lease(1, "o", 5, 4);
            var t := Tracker(2, Some(0), map[], {});
            var claimed := ClaimPass(t, 2, 10, [lease]);
            && claimed.1 == [1]
            && !Renewed(claimed.0, 2, 11, lease).1
            && Renewed(Synced(claimed.0, 1, 11), 2, 11, lease).1
  {
    var lease := Lease(1, "o", 5, 4);
    var t := Tracker(2, Some(0), map[], {});
    assert Claimed(t, 10, [lease][..0]) == [];
  }

  /**
   The first renewal call of any other term succeeds for every lease, claimed or
   not. An expiry claimed before and appended after it would cut that renewal
   short, so a claim must not outlive its term.
   */
  lemma NewTermForgetsClaims(t: Tracker, term: nat, now: int, lease: Lease)
    requires term != t.term && 0 < lease.ttl
    ensures Renewed(t, term, now, lease).1
    ensures now + lease.ttl <= DeadlineOf(Renewed(t, term, now, lease).0, lease)
  {
  }
}
