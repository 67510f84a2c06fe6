/**
 One run of the lease protocol, with a change of leader, in which the lease of an
 acknowledged renewal is expired at the very instant the guarantee ends. So the
 protocol's hypotheses can be met together, and its bound cannot be improved.
 */
module LeaseTightness {
  import opened Domain
  import opened Fsm
  import opened RaftLog
  import opened LeaseTracker
  import opened LeaseProtocol

  ghost predicate Reached(s: Sys) {
    exists run :: Valid(Start(0), run) && After(Start(0), run) == s
  }

  lemma ReachStart()
    ensures Reached(Start(0))
  {
    assert Valid(Start(0), []) && After(Start(0), []) == Start(0);
  }

  lemma Reach(s: Sys, e: Event)
    requires Reached(s) && Enabled(s, e)
    ensures Reached(Exec(s, e))
  {
    var run :| Valid(Start(0), run) && After(Start(0), run) == s;
    var longer := run + [e];
    assert longer[..|longer| - 1] == run;
    assert Valid(Start(0), longer);
  }

  const CREATE := Entry(1, Do(CreateLease("o", 4, 5)), 0, 0)
  const EXPIRE := Entry(2, Do(ExpireLease(1)), 6, 1)
  const LEASE := Lease(1, "o", 9, 4)
  const LOOKUP := Lookup(1, LEASE, 1)
  const RENEWAL := Renewal(1, LEASE, 1, 2)
  const CLAIM := Claim(2, LEASE, 1, 6, false)

  const CREATED_STATE := State(map[], map[1 := LEASE], map[], 0, 2)
  const LOG := [CREATE, EXPIRE]

  lemma Steps()
    ensures Replay([]) == INIT && ApplyEntry(INIT, CREATE) == CREATED_STATE
    ensures 1 !in ApplyEntry(CREATED_STATE, EXPIRE).leases
  {
  }

  lemma Replays()
    ensures Replay([CREATE]) == CREATED_STATE
    ensures 1 !in Replay([CREATE, EXPIRE]).leases
  {
    hide Replay, ApplyEntry;
    Steps();
    ReplayNext(LOG, 0);
    ReplayNext(LOG, 1);
    assert LOG[..0] == [] && LOG[..1] == [CREATE] && LOG[..2] == LOG;
  }

  /** Process 0 has won term 1 and its state machine holds the lease. */
  const CREATED_RAFT := Raft(0, map[0 := 5], map[1 := 0], map[1 := 0], {1}, map[1 := [CREATE]], [CREATE])
  const CREATED := Sys(CREATED_RAFT, map[0 := NEW_PROC.(applied := 1)])

  const LED := Sys(CREATED_RAFT.(logs := map[1 := []], committed := []), map[0 := NEW_PROC])

  lemma ReachLed()
    ensures Reached(LED)
  {
    hide Reached, Valid, After, Replay;
    ReachStart();
    Reach(Start(0), Boot(0, 5));
    var s := Exec(Start(0), Boot(0, 5));
    Reach(s, Win(1, 0, 0, 0));
    assert Exec(s, Win(1, 0, 0, 0)).raft == LED.raft;
    assert Exec(s, Win(1, 0, 0, 0)) == LED;
  }

  const COMMITTED := Sys(CREATED_RAFT, map[0 := NEW_PROC])

  lemma ReachCommitted()
    ensures Reached(COMMITTED)
  {
    hide Reached, Valid, After, Replay;
    ReachLed();
    Reach(LED, Propose(1, CREATE.data));
    var s := Exec(LED, Propose(1, CREATE.data));
    assert s.raft.logs[1] == [CREATE];
    Reach(s, Commit(1, 1));
    assert Exec(s, Commit(1, 1)).raft.committed == [CREATE];
    assert Exec(s, Commit(1, 1)) == COMMITTED;
  }

  lemma ReachCreated()
    ensures Reached(CREATED)
  {
    hide Reached, Valid, After, Replay;
    ReachCommitted();
    Reach(COMMITTED, ApplyTo(0, 1));
    assert Exec(COMMITTED, ApplyTo(0, 1)) == CREATED;
  }

  /** Process 0 has looked the lease up and read its clock at time 2. */
  const READER := Proc(FRESH, {1}, 1, {LOOKUP}, {RENEWAL}, {}, {}, {}, {})
  const READ := Sys(CREATED_RAFT.(now := 2), map[0 := READER])

  lemma ReachRead()
    ensures Reached(READ)
  {
    hide Reached, Valid, After, Replay;
    ReachCreated();
    Replays();
    assert CREATED.raft.committed[..1] == [CREATE];
    Reach(CREATED, AwaitTermApplied(0, 1));
    var s1 := Exec(CREATED, AwaitTermApplied(0, 1));
    Reach(s1, LookUp(0, 1, 1));
    var s2 := Exec(s1, LookUp(0, 1, 1));
    assert s2.procs[0].lookups == {LOOKUP};
    Reach(s2, Tick(2));
    var s3 := Exec(s2, Tick(2));
    Reach(s3, ReadClock(0, LOOKUP));
    assert Exec(s3, ReadClock(0, LOOKUP)).procs[0] == READER;
    assert Exec(s3, ReadClock(0, LOOKUP)) == READ;
  }

  /** It has recorded the renewal and acknowledged it. */
  const TRACKER := Tracker(1, Some(7), map[1 := 7], {})
  const RENEWER := READER.(tracker := TRACKER, recorded := {RENEWAL}, acked := {RENEWAL})
  const ACKED := READ.(procs := map[0 := RENEWER])

  lemma ReachAcked()
    ensures Reached(ACKED)
  {
    hide Reached, Valid, After, Replay;
    ReachRead();
    Reach(READ, RecordRenewal(0, RENEWAL));
    var s1 := Exec(READ, RecordRenewal(0, RENEWAL));
    assert s1.procs[0] == READER.(tracker := TRACKER, recorded := {RENEWAL});
    Reach(s1, VerifyLeader(0, RENEWAL));
    assert Exec(s1, VerifyLeader(0, RENEWAL)).procs[0] == RENEWER;
    assert Exec(s1, VerifyLeader(0, RENEWAL)) == ACKED;
  }

  /** Process 1 has won term 2 at time 2. */
  const FAILED_OVER_RAFT := Raft(2, map[0 := 5, 1 := 6], map[1 := 0, 2 := 1], map[1 := 0, 2 := 2], {1, 2},
                                 map[1 := [CREATE], 2 := [CREATE]], [CREATE])
  const WON := Sys(FAILED_OVER_RAFT, map[0 := RENEWER, 1 := NEW_PROC])

  lemma ReachWon()
    ensures Reached(WON)
  {
    hide Reached, Valid, After, Replay;
    ReachAcked();
    Reach(ACKED, Boot(1, 6));
    var s1 := Exec(ACKED, Boot(1, 6));
    assert Inherited(s1.raft, 1, 1) == [CREATE];
    Reach(s1, Win(2, 1, 1, 1));
    assert Exec(s1, Win(2, 1, 1, 1)).raft == FAILED_OVER_RAFT;
    assert Exec(s1, Win(2, 1, 1, 1)) == WON;
  }

  /** It has applied the log and met its term, still at time 2. */
  const SUCCESSOR := NEW_PROC.(applied := 1, tracker := Tracker(2, Some(8), map[], {}))
  const FAILED_OVER := WON.(procs := map[0 := RENEWER, 1 := SUCCESSOR])

  lemma ReachFailedOver()
    ensures Reached(FAILED_OVER)
  {
    hide Reached, Valid, After, Replay;
    ReachWon();
    Reach(WON, ApplyTo(1, 1));
    var s1 := Exec(WON, ApplyTo(1, 1));
    Reach(s1, CheckAlive(1, 2, 2));
    assert Exec(s1, CheckAlive(1, 2, 2)) == FAILED_OVER;
  }

  /** It has claimed the lease at time 6, one TTL after taking over. */
  const CLAIMED := Sys(FAILED_OVER_RAFT.(now := 6),
                       map[0 := RENEWER,
                           1 := SUCCESSOR.(tracker := Tracker(2, Some(8), map[], {1}), pending := {CLAIM})])

  lemma PassClaims()
    ensures ClaimPass(SUCCESSOR.tracker, 2, 12, [LEASE]) == (CLAIMED.procs[1].tracker, [1])
  {
    var t := SUCCESSOR.tracker;
    assert [LEASE][..0] == [];
    assert Claimable(t, 12, LEASE);
    assert Claimed(t, 12, [LEASE]) == Claimed(t, 12, []) + [1] == [1];
    assert ClaimPass(t, 2, 12, [LEASE]).0.expiring == {1};
  }

  lemma ReachClaimed()
    ensures Reached(CLAIMED)
  {
    hide Reached, Valid, After, Replay, ClaimPass;
    ReachFailedOver();
    Replays();
    assert FAILED_OVER_RAFT.committed[..1] == [CREATE];
    Reach(FAILED_OVER, Tick(6));
    var s1 := Exec(FAILED_OVER, Tick(6));
    assert InState(s1.raft, LEASE, 1);
    var e := ClaimExpired(1, 2, 6, [LEASE], 1);
    Reach(s1, e);
    PassClaims();
    assert Exec(s1, e).procs[1] == CLAIMED.procs[1];
    assert Exec(s1, e) == CLAIMED;
  }

  /** The expiry is committed. */
  const APPENDED := CLAIM.(appended := true)
  const EXPIRED := Sys(FAILED_OVER_RAFT.(now := 6, logs := map[1 := [CREATE], 2 := LOG], committed := LOG),
                       map[0 := RENEWER, 1 := CLAIMED.procs[1].(pending := {APPENDED})])

  lemma ReachExpired()
    ensures Reached(EXPIRED)
  {
    hide Reached, Valid, After, Replay;
    ReachClaimed();
    Reach(CLAIMED, ProposeExpiry(1, CLAIM));
    var s := Exec(CLAIMED, ProposeExpiry(1, CLAIM));
    assert s.raft.logs[2] == LOG;
    assert s.procs[1].pending == {APPENDED};
    Reach(s, Commit(2, 2));
    assert Exec(s, Commit(2, 2)).raft.committed == LOG;
    assert Exec(s, Commit(2, 2)) == EXPIRED;
  }

  /** A lease with an acknowledged renewal can be gone the instant its TTL has passed since. */
  lemma GuaranteeIsTight()
    ensures exists run, p, k :: Valid(Start(0), run) &&
              (var s := After(Start(0), run);
               && p in s.procs && k in s.procs[p].acked
               && s.raft.now == k.at + k.lease.ttl
               && k.lease.leaseID !in Replay(s.raft.committed).leases)
  {
    hide Replay;
    ReachExpired();
    Replays();
    var run :| Valid(Start(0), run) && After(Start(0), run) == EXPIRED;
    assert RENEWAL in EXPIRED.procs[0].acked;
  }

  /** Once applied, the committed expiry finishes: nothing is pending, and the tracker has no mark. */
  const FINISHER := SUCCESSOR.(applied := 2, finished := {APPENDED})

  lemma ExpiryFinishes()
    ensures Reached(EXPIRED.(procs := map[0 := RENEWER, 1 := FINISHER]))
    ensures FINISHER.pending == {} && FINISHER.tracker.expiring == {}
  {
    hide Reached, Valid, After, Replay;
    ReachExpired();
    Reach(EXPIRED, ApplyTo(1, 2));
    var s := Exec(EXPIRED, ApplyTo(1, 2));
    assert Expires(s.raft.committed[1], 1);
    assert CommittedExpiry(s.raft, s.procs[1], APPENDED);
    Reach(s, FinishExpiry(1, APPENDED, true));
    assert Exec(s, FinishExpiry(1, APPENDED, true)).procs[1] == FINISHER;
    assert Exec(s, FinishExpiry(1, APPENDED, true)) == EXPIRED.(procs := map[0 := RENEWER, 1 := FINISHER]);
  }

  /** An expiry that was never appended fails, which takes the mark away, and the next pass claims the lease again. */
  const UNCLAIMED := CLAIMED.(procs := map[0 := RENEWER, 1 := SUCCESSOR])

  lemma FailedExpiryIsRetried()
    ensures Reached(UNCLAIMED)
    ensures Enabled(UNCLAIMED, ClaimExpired(1, 2, 6, [LEASE], 1))
    ensures Exec(UNCLAIMED, ClaimExpired(1, 2, 6, [LEASE], 1)) == CLAIMED
  {
    hide Reached, Valid, After, Replay, ClaimPass;
    ReachClaimed();
    Reach(CLAIMED, FinishExpiry(1, CLAIM, false));
    assert Exec(CLAIMED, FinishExpiry(1, CLAIM, false)).procs[1] == SUCCESSOR;
    assert Exec(CLAIMED, FinishExpiry(1, CLAIM, false)) == UNCLAIMED;
    Replays();
    PassClaims();
    assert UNCLAIMED.raft.committed[..1] == [CREATE];
    assert InState(UNCLAIMED.raft, LEASE, 1);
    var e := ClaimExpired(1, 2, 6, [LEASE], 1);
    assert Exec(UNCLAIMED, e).procs[1] == CLAIMED.procs[1];
    assert Exec(UNCLAIMED, e).procs == CLAIMED.procs;
  }

  /** The old leader steps down, after which only the new term is led. */
  lemma OldLeaderStepsDown()
    ensures Reached(FAILED_OVER.(raft := FAILED_OVER_RAFT.(active := {2})))
  {
    hide Reached, Valid, After, Replay;
    ReachFailedOver();
    Reach(FAILED_OVER, StepDown(1));
    assert Exec(FAILED_OVER, StepDown(1)).raft.active == {2};
  }
}
