/**
 One run in which a lock changes hands by release: a session gives up its belief,
 its release is committed, and a second session acquires the lock while the first
 is still live.
 */
module HandoverRelease {
  import opened Domain
  import opened Fsm
  import opened RaftLog
  import opened LeaseProtocol
  import opened LeaseSafety
  import opened Heartbeat
  import opened Exclusion
  import opened Handover

  const SECOND_LEASE := Entry(1, Do(CreateLease("b", SECOND, 1)), 0, 0)
  const RELEASE := Entry(1, Do(ReleaseLock("l", 1)), 0, 0)
  const TAKE := Entry(1, Do(AcquireLock("l", "b", 2)), 0, 0)

  const BEFORE := [CREATE_A, ACQUIRE_A, SECOND_LEASE]
  const LOG := [CREATE_A, ACQUIRE_A, SECOND_LEASE, RELEASE, TAKE]
  const NEXT_LEASE := Lease(2, "b", SECOND + 1, SECOND)

  const TWO_LEASES := LOCKED_A.(leases := map[1 := LEASE_A, 2 := NEXT_LEASE], nextLeaseID := 3)
  const RELEASED := TWO_LEASES.(locks := map[])

  lemma MoreSteps()
    ensures ApplyEntry(LOCKED_A, SECOND_LEASE) == TWO_LEASES && ApplyEntry(TWO_LEASES, RELEASE) == RELEASED
  {
    assert TWO_LEASES.locks - {"l"} == map[];
  }

  /** The states the log goes through. */
  lemma MoreReplays()
    ensures Replay(LOG[..0]) == INIT && Replay(LOG[..1]) == CREATED_A && Replay(LOG[..2]) == LOCKED_A
    ensures Replay(LOG[..3]) == TWO_LEASES && Replay(LOG[..4]) == RELEASED
  {
    hide Replay, ApplyEntry;
    Nothing();
    assert LOG[..0] == LONG[..0];
    Steps();
    MoreSteps();
    ReplayNext(LOG, 0);
    ReplayNext(LOG, 1);
    ReplayNext(LOG, 2);
    ReplayNext(LOG, 3);
  }

  /** The world with a given log, part of it committed, and given sessions. */
  function Served(log: seq<Entry>, committed: seq<Entry>, clients: map<nat, Client>): World {
    World(Sys(RAFT.(logs := map[1 := log], committed := committed), map[0 := NEW_PROC]), clients)
  }

  lemma ReachServed()
    ensures GoesTo(EMPTY, Served(BEFORE, BEFORE, map[]))
  {
    hide GoesTo, ValidActs, AfterActs, Replay;
    ReachLed();
    Draft([], CREATE_A.data);
    Draft([] + [CREATE_A], ACQUIRE_A.data);
    Draft([] + [CREATE_A] + [ACQUIRE_A], SECOND_LEASE.data);
    assert [] + [CREATE_A] + [ACQUIRE_A] + [SECOND_LEASE] == BEFORE;
    var w := Drafted(BEFORE);
    Then(EMPTY, w, Server(Commit(1, 3)));
    assert DoAct(w, Server(Commit(1, 3))).sys.raft.committed == BEFORE;
  }

  const NEWCOMER := Client(2, NEXT_LEASE, 0, 0, Started(0, 0, SECOND), Some(Conn([], 0)), false, ByCreate, false, map[])

  /** Both sessions are live, and the first holds the lock. */
  const BOTH := Served(BEFORE, BEFORE, map[0 := CLIENT_A, 1 := NEWCOMER])

  lemma LeasesAreThere(r: Raft)
    requires r.committed == BEFORE && r.leader == map[1 := 0] && r.offset == map[0 := 1] && r.logs == map[1 := BEFORE]
    ensures Creates(r, 0, 1, LEASE_A, 0) && Creates(r, 2, 2, NEXT_LEASE, 0)
    ensures AcquiredAt(r, 1, "l", LEASE_A) && NoStrayRelease(r, 1, "l", 1)
  {
    hide Replay;
    MoreReplays();
    assert BEFORE[..0] == LOG[..0] && BEFORE[..1] == LOG[..1] && BEFORE[..2] == LOG[..2] && BEFORE[..3] == LOG[..3];
  }

  lemma ReachStarted()
    ensures GoesTo(EMPTY, Served(BEFORE, BEFORE, map[0 := CLIENT_A.(holds := map[])]))
  {
    hide GoesTo, ValidActs, AfterActs, Replay, Creates;
    ReachServed();
    var w := Served(BEFORE, BEFORE, map[]);
    LeasesAreThere(w.sys.raft);
    Then(EMPTY, w, StartSession(0, 0, 0, LEASE_A, 0, SECOND));
    assert DoAct(w, StartSession(0, 0, 0, LEASE_A, 0, SECOND)).clients == map[0 := CLIENT_A.(holds := map[])];
  }

  lemma ReachBoth()
    ensures GoesTo(EMPTY, BOTH)
  {
    hide GoesTo, ValidActs, AfterActs, Replay, Creates, AcquiredAt, NoStrayRelease;
    ReachStarted();
    var w := Served(BEFORE, BEFORE, map[0 := CLIENT_A.(holds := map[])]);
    LeasesAreThere(w.sys.raft);
    var second := StartSession(1, 0, 2, NEXT_LEASE, 0, SECOND);
    Then(EMPTY, w, second);
    var w1 := DoAct(w, second);
    Then(EMPTY, w1, Acquired(0, "l", 1));
    assert DoAct(w1, Acquired(0, "l", 1)).clients == BOTH.clients;
  }

  const FORMER := CLIENT_A.(holds := map[])

  /** The first session no longer believes it holds the lock. */
  lemma ReachDropped()
    ensures GoesTo(BOTH, Served(BEFORE, BEFORE, map[0 := FORMER, 1 := NEWCOMER]))
  {
    hide GoesTo, ValidActs, AfterActs, Replay;
    StaysAt(BOTH);
    Then(BOTH, BOTH, Releasing(0, "l"));
    assert CLIENT_A.holds - {"l"} == map[];
    assert DoAct(BOTH, Releasing(0, "l")).clients == map[0 := FORMER, 1 := NEWCOMER];
  }

  const APART := map[0 := FORMER, 1 := NEWCOMER]

  /** Its release and the second session's acquire go into the log. */
  lemma Log(log: seq<Entry>, data: Data)
    requires GoesTo(BOTH, Served(log, BEFORE, APART)) && data.Do?
    requires data.cmd == ReleaseLock("l", 1) || data.cmd.AcquireLock?
    ensures GoesTo(BOTH, Served(log + [Entry(1, data, 0, 0)], BEFORE, APART))
  {
    hide GoesTo, ValidActs, AfterActs, Replay;
    var w, e := Served(log, BEFORE, APART), Server(Propose(1, data));
    Then(BOTH, w, e);
    assert DoAct(w, e).sys.raft.logs == map[1 := log + [Entry(1, data, 0, 0)]];
  }

  lemma ReachSettled()
    ensures GoesTo(BOTH, Served(LOG, LOG, APART))
  {
    hide GoesTo, ValidActs, AfterActs, Replay;
    ReachDropped();
    Log(BEFORE, RELEASE.data);
    Log(BEFORE + [RELEASE], TAKE.data);
    assert BEFORE + [RELEASE] + [TAKE] == LOG;
    var w := Served(LOG, BEFORE, APART);
    Then(BOTH, w, Server(Commit(1, 5)));
    assert DoAct(w, Server(Commit(1, 5))).sys.raft.committed == LOG;
  }

  lemma LockIsThere(r: Raft)
    requires r.committed == LOG && r.logs == map[1 := LOG]
    ensures AcquiredAt(r, 4, "l", NEXT_LEASE) && NoStrayRelease(r, 4, "l", 2)
  {
    hide Replay;
    MoreReplays();
  }

  const OWNER := NEWCOMER.(holds := map["l" := 4])

  lemma ReachReleased()
    ensures GoesTo(BOTH, Served(LOG, LOG, map[0 := FORMER, 1 := OWNER]))
  {
    hide GoesTo, ValidActs, AfterActs, Replay, AcquiredAt, NoStrayRelease;
    ReachSettled();
    var w := Served(LOG, LOG, APART);
    LockIsThere(w.sys.raft);
    Then(BOTH, w, Acquired(1, "l", 4));
    assert DoAct(w, Acquired(1, "l", 4)).clients == map[0 := FORMER, 1 := OWNER];
  }

  /** A lock passes by release from one live session to another, and both live on. */
  lemma LockIsReleased()
    ensures exists w, w' ::
              && GoesTo(World(Start(0), map[]), w) && GoesTo(w, w')
              && Live(w, 0) && "l" in w.clients[0].holds && Live(w, 1) && "l" !in w.clients[1].holds
              && Live(w', 0) && "l" !in w'.clients[0].holds && Live(w', 1) && "l" in w'.clients[1].holds
  {
    hide GoesTo;
    ReachBoth();
    ReachReleased();
    var w' := Served(LOG, LOG, map[0 := FORMER, 1 := OWNER]);
    assert Live(BOTH, 0) && Live(BOTH, 1) && Live(w', 0) && Live(w', 1);
  }
}
