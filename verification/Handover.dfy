/**
 One run of servers and clients in which a lock changes hands. A session holds it
 and cannot renew; its heartbeat loop gives up, its lease expires, and a second
 session acquires the lock. So the hypotheses of exclusion can be met together.
 */
module Handover {
  import opened Domain
  import opened Fsm
  import opened RaftLog
  import opened LeaseTracker
  import opened LeaseProtocol
  import opened LeaseSafety
  import opened Heartbeat
  import opened Exclusion

  ghost predicate GoesTo(w: World, w': World) {
    exists acts :: ValidActs(w, acts) && AfterActs(w, acts) == w'
  }

  lemma StaysAt(w: World)
    ensures GoesTo(w, w)
  {
    assert ValidActs(w, []) && AfterActs(w, []) == w;
  }

  lemma Then(w0: World, w: World, a: Act)
    requires GoesTo(w0, w) && MayAct(w, a)
    ensures GoesTo(w0, DoAct(w, a))
  {
    var acts :| ValidActs(w0, acts) && AfterActs(w0, acts) == w;
    var longer := acts + [a];
    assert longer[..|longer| - 1] == acts;
    assert ValidActs(w0, longer);
  }

  // -------------------------------------------------------------------- the log

  const CREATE_A := Entry(1, Do(CreateLease("a", SECOND, 1)), 0, 0)
  const ACQUIRE_A := Entry(1, Do(AcquireLock("l", "a", 1)), 0, 0)
  const EXPIRE_A := Entry(1, Do(ExpireLease(1)), SECOND, 2)
  const CREATE_B := Entry(1, Do(CreateLease("b", SECOND, SECOND + 1)), SECOND, 0)
  const ACQUIRE_B := Entry(1, Do(AcquireLock("l", "b", 2)), SECOND, 0)

  const SHORT := [CREATE_A, ACQUIRE_A]
  const LONG := [CREATE_A, ACQUIRE_A, EXPIRE_A, CREATE_B, ACQUIRE_B]

  const LEASE_A := Lease(1, "a", SECOND + 1, SECOND)
  const LEASE_B := Lease(2, "b", 2 * SECOND + 1, SECOND)

  const CREATED_A := State(map[], map[1 := LEASE_A], map[], 0, 2)
  const LOCKED_A := State(map["l" := Lock("l", "a", 1, 1)], map[1 := LEASE_A], map[], 1, 2)
  const EXPIRED_A := State(map[], map[], map[], 1, 2)
  const CREATED_B := State(map[], map[2 := LEASE_B], map[], 1, 3)

  lemma Steps()
    ensures ApplyEntry(INIT, CREATE_A) == CREATED_A && ApplyEntry(CREATED_A, ACQUIRE_A) == LOCKED_A
    ensures ApplyEntry(LOCKED_A, EXPIRE_A) == EXPIRED_A && ApplyEntry(EXPIRED_A, CREATE_B) == CREATED_B
  {
    assert HeldBy(LOCKED_A.locks, 1) == {"l"};
    assert LOCKED_A.locks - {"l"} == map[] && LOCKED_A.leases - {1} == map[];
  }

  lemma Nothing()
    ensures Replay(LONG[..0]) == INIT
  {
    assert LONG[..0] == [];
  }

  /** The states the log goes through. */
  lemma Replays()
    ensures Replay(LONG[..0]) == INIT
    ensures Replay(LONG[..1]) == CREATED_A
    ensures Replay(LONG[..2]) == LOCKED_A
    ensures Replay(LONG[..3]) == EXPIRED_A
    ensures Replay(LONG[..4]) == CREATED_B
  {
    hide Replay, ApplyEntry;
    Nothing();
    Steps();
    ReplayNext(LONG, 0);
    ReplayNext(LONG, 1);
    ReplayNext(LONG, 2);
    ReplayNext(LONG, 3);
  }

  // ------------------------------------------------------------------- the run

  const EMPTY := World(Start(0), map[])

  /** Process 0 leads term 1; the first lease is created and has the lock. */
  const RAFT := Raft(0, map[0 := 1], map[1 := 0], map[1 := 0], {1}, map[1 := SHORT], SHORT)
  const LED := Drafted([])
  const GRANTED := World(Sys(RAFT, map[0 := NEW_PROC]), map[])

  lemma ReachLed()
    ensures GoesTo(EMPTY, LED)
  {
    hide GoesTo, ValidActs, AfterActs, Replay;
    StaysAt(EMPTY);
    var boot, win := Boot(0, 1), Win(1, 0, 0, 0);
    Then(EMPTY, EMPTY, Server(boot));
    var w1 := DoAct(EMPTY, Server(boot));
    Then(EMPTY, w1, Server(win));
    assert DoAct(w1, Server(win)).sys.raft == LED.sys.raft;
    assert DoAct(w1, Server(win)) == LED;
  }

  /** The world with a given log, nothing of it committed. */
  function Drafted(log: seq<Entry>): World {
    World(Sys(RAFT.(logs := map[1 := log], committed := []), map[0 := NEW_PROC]), map[])
  }

  lemma Draft(log: seq<Entry>, data: Data)
    requires GoesTo(EMPTY, Drafted(log)) && data.Do? && !data.cmd.ExpireLease?
    requires data.cmd.CreateLease? ==> data.cmd.createdAt <= 1
    ensures GoesTo(EMPTY, Drafted(log + [Entry(1, data, 0, 0)]))
  {
    hide GoesTo, ValidActs, AfterActs, Replay;
    Then(EMPTY, Drafted(log), Server(Propose(1, data)));
    assert DoAct(Drafted(log), Server(Propose(1, data))).sys.raft.logs == map[1 := log + [Entry(1, data, 0, 0)]];
  }

  lemma ReachGranted()
    ensures GoesTo(EMPTY, GRANTED)
  {
    hide GoesTo, ValidActs, AfterActs, Replay;
    ReachLed();
    Draft([], CREATE_A.data);
    Draft([] + [CREATE_A], ACQUIRE_A.data);
    assert [] + [CREATE_A] + [ACQUIRE_A] == SHORT;
    Then(EMPTY, Drafted(SHORT), Server(Commit(1, 2)));
    assert DoAct(Drafted(SHORT), Server(Commit(1, 2))).sys.raft.committed == SHORT;
    assert DoAct(Drafted(SHORT), Server(Commit(1, 2))) == GRANTED;
  }

  /** It has applied the log and met its term. */
  const SERVER := NEW_PROC.(applied := 2, tracker := Tracker(1, Some(1), map[], {}))
  const READY := World(Sys(RAFT, map[0 := SERVER]), map[])

  lemma ReachReady()
    ensures GoesTo(EMPTY, READY)
  {
    hide GoesTo, ValidActs, AfterActs, Replay;
    ReachGranted();
    Then(EMPTY, GRANTED, Server(ApplyTo(0, 2)));
    var w1 := DoAct(GRANTED, Server(ApplyTo(0, 2)));
    Then(EMPTY, w1, Server(CheckAlive(0, 1, 0)));
    assert DoAct(w1, Server(CheckAlive(0, 1, 0))) == READY;
  }

  /** Session 0 is live and believes it holds the lock. */
  const CLIENT_A :=
    Client(0, LEASE_A, 0, 0, Started(0, 0, SECOND), Some(Conn([], 0)), false, ByCreate, false, map["l" := 1])
  const HELD := READY.(clients := map[0 := CLIENT_A])

  lemma ReachHeld()
    ensures GoesTo(EMPTY, HELD)
  {
    hide GoesTo, ValidActs, AfterActs, Replay;
    ReachReady();
    Replays();
    assert SHORT[..0] == LONG[..0] && SHORT[..1] == LONG[..1];
    var start := StartSession(0, 0, 0, LEASE_A, 0, SECOND);
    assert Creates(RAFT, 0, 1, LEASE_A, 0);
    Then(EMPTY, READY, start);
    var w1 := DoAct(READY, start);
    assert AcquiredAt(RAFT, 1, "l", LEASE_A);
    assert NoStrayRelease(RAFT, 1, "l", 1);
    Then(EMPTY, w1, Acquired(0, "l", 1));
    assert DoAct(w1, Acquired(0, "l", 1)) == HELD;
  }

  /** The world with session 0 in some phase of its loop, at some time. */
  function Phased(now: int, phase: Phase, conn: Option<Conn>): World {
    World(Sys(RAFT.(now := now), map[0 := SERVER]), map[0 := CLIENT_A.(loop := Loop(SECOND, 0, phase), conn := conn)])
  }

  lemma Wait(now: int, phase: Phase, conn: Option<Conn>, to: int)
    requires GoesTo(HELD, Phased(now, phase, conn))
    requires now <= to && (phase.GivenUp? || MayPass(Loop(SECOND, 0, phase), now, to))
    ensures GoesTo(HELD, Phased(to, phase, conn))
  {
    hide GoesTo, ValidActs, AfterActs, Replay, MayPass;
    Then(HELD, Phased(now, phase, conn), Server(Tick(to)));
    assert DoAct(Phased(now, phase, conn), Server(Tick(to))) == Phased(to, phase, conn);
  }

  lemma BeatOnce(now: int, phase: Phase, conn: Option<Conn>, b: Beat, phase': Phase)
    requires GoesTo(HELD, Phased(now, phase, conn)) && !phase.GivenUp? && !b.Acked?
    requires Turns(phase, now, b, phase')
    ensures GoesTo(HELD, Phased(now, phase', if b.Fails? then None else conn))
  {
    hide GoesTo, ValidActs, AfterActs, Replay, MayBeat, DoBeat;
    Then(HELD, Phased(now, phase, conn), Heartbeat(0, b));
    var next := Phased(now, phase', if b.Fails? then None else conn);
    assert DoAct(Phased(now, phase, conn), Heartbeat(0, b)).clients[0] == next.clients[0];
    assert DoAct(Phased(now, phase, conn), Heartbeat(0, b)) == next;
  }

  const FIRST := Waiting(333_333_333)
  const TRIED := Attempting(333_333_333, 666_666_666, 333_333_333)
  const BACKED_OFF := BackingOff(716_666_666, 100_000_000, 333_333_333)
  const RETRIED := Retrying(716_666_666, 750_000_000, 100_000_000, 333_333_333)

  predicate Turns(phase: Phase, now: int, b: Beat, phase': Phase) {
    var l := Loop(SECOND, 0, phase);
    MayBeat(l, now, b) && DoBeat(l, now, b) == Loop(SECOND, 0, phase')
  }

  lemma FirstTry()
    ensures Turns(FIRST, 333_333_333, TickFires(0), TRIED)
  {
  }

  lemma FirstFailure()
    ensures Turns(TRIED, 666_666_666, Fails, BACKED_OFF)
  {
  }

  lemma SecondTry()
    ensures Turns(BACKED_OFF, 716_666_666, BackoffOver, RETRIED)
    ensures Turns(RETRIED, 750_000_000, Fails, GivenUp)
  {
  }

  lemma HeldIsPhased()
    ensures HELD == Phased(0, FIRST, Some(Conn([], 0)))
  {
  }

  /** No renewal succeeds: a tick, a backoff and one retry later the session gives up. */
  lemma ReachGivenUp()
    ensures GoesTo(HELD, Phased(750_000_000, GivenUp, None))
  {
    hide GoesTo, Turns, Phased;
    StaysAt(HELD);
    FirstTry();
    FirstFailure();
    SecondTry();
    HeldIsPhased();
    var conn := Some(Conn([], 0));
    Wait(0, FIRST, conn, 333_333_333);
    BeatOnce(333_333_333, FIRST, conn, TickFires(0), TRIED);
    Wait(333_333_333, TRIED, conn, 666_666_666);
    BeatOnce(666_666_666, TRIED, conn, Fails, BACKED_OFF);
    Wait(666_666_666, BACKED_OFF, None, 716_666_666);
    BeatOnce(716_666_666, BACKED_OFF, None, BackoffOver, RETRIED);
    Wait(716_666_666, RETRIED, None, 750_000_000);
    BeatOnce(750_000_000, RETRIED, None, Fails, GivenUp);
  }

  /** One TTL after the takeover the server claims the lease. */
  const CLAIM := Claim(1, LEASE_A, 2, SECOND, false)
  const EX_HOLDER := CLIENT_A.(loop := Loop(SECOND, 0, GivenUp), conn := None)
  const CLAIMER := SERVER.(tracker := Tracker(1, Some(1), map[], {1}), pending := {CLAIM})
  const CLAIMED := World(Sys(RAFT.(now := SECOND), map[0 := CLAIMER]), map[0 := EX_HOLDER])

  lemma PassClaims()
    ensures ClaimPass(SERVER.tracker, 1, SECOND + 1, [LEASE_A]) == (CLAIMER.tracker, [1])
  {
    var t := SERVER.tracker;
    assert [LEASE_A][..0] == [];
    assert Claimable(t, SECOND + 1, LEASE_A);
    assert Claimed(t, SECOND + 1, [LEASE_A]) == Claimed(t, SECOND + 1, []) + [1] == [1];
    assert ClaimPass(t, 1, SECOND + 1, [LEASE_A]).0.expiring == {1};
  }

  lemma ReachClaimed()
    ensures GoesTo(HELD, CLAIMED)
  {
    hide GoesTo, ValidActs, AfterActs, Replay, ClaimPass;
    ReachGivenUp();
    Wait(750_000_000, GivenUp, None, SECOND);
    var w := Phased(SECOND, GivenUp, None);
    LeaseIsThere(w.sys.raft);
    PassClaims();
    var e := LeaseProtocol.ClaimExpired(0, 1, SECOND, [LEASE_A], 2);
    Then(HELD, w, Server(e));
    assert DoAct(w, Server(e)).sys.procs[0] == CLAIMER;
    assert DoAct(w, Server(e)) == CLAIMED;
  }

  lemma LeaseIsThere(r: Raft)
    requires r.committed == SHORT
    ensures InState(r, LEASE_A, 2)
  {
    hide Replay;
    Replays();
    assert SHORT[..2] == LONG[..2];
  }

  /** The world with the claim proposed and a given log. */
  const PROPOSER := CLAIMER.(pending := {CLAIM.(appended := true)})

  function Logged(log: seq<Entry>): World {
    World(Sys(RAFT.(now := SECOND, logs := map[1 := log]), map[0 := PROPOSER]), map[0 := EX_HOLDER])
  }

  lemma ReachExpiring()
    ensures GoesTo(HELD, Logged([CREATE_A, ACQUIRE_A, EXPIRE_A]))
  {
    hide GoesTo, ValidActs, AfterActs, Replay;
    ReachClaimed();
    Then(HELD, CLAIMED, Server(ProposeExpiry(0, CLAIM)));
    var w := DoAct(CLAIMED, Server(ProposeExpiry(0, CLAIM)));
    assert w.sys.raft.logs[1] == [CREATE_A, ACQUIRE_A, EXPIRE_A];
    assert w.sys.procs[0] == PROPOSER;
    assert w == Logged([CREATE_A, ACQUIRE_A, EXPIRE_A]);
  }

  /** Any command but a lease's expiry or a release goes into the log. */
  lemma Add(log: seq<Entry>, data: Data)
    requires GoesTo(HELD, Logged(log)) && data.Do? && !data.cmd.ExpireLease? && !data.cmd.ReleaseLock?
    requires data.cmd.CreateLease? ==> data.cmd.createdAt - 1 <= SECOND
    ensures GoesTo(HELD, Logged(log + [Entry(1, data, SECOND, 0)]))
  {
    hide GoesTo, ValidActs, AfterActs, Replay;
    Then(HELD, Logged(log), Server(Propose(1, data)));
    assert DoAct(Logged(log), Server(Propose(1, data))).sys.raft.logs == map[1 := log + [Entry(1, data, SECOND, 0)]];
  }

  /** The expiry, the second lease and its acquire are in the log. */
  const PROPOSED := Logged(LONG)

  lemma ReachProposed()
    ensures GoesTo(HELD, PROPOSED)
  {
    hide GoesTo;
    ReachExpiring();
    var log := [CREATE_A, ACQUIRE_A, EXPIRE_A];
    Add(log, CREATE_B.data);
    Add(log + [CREATE_B], ACQUIRE_B.data);
    assert log + [CREATE_B] + [ACQUIRE_B] == LONG;
  }

  /** Session 1 is live and believes it holds the lock. */
  const CLIENT_B :=
    Client(3, LEASE_B, SECOND, SECOND, Started(SECOND, SECOND, SECOND), Some(Conn([], 0)), false,
           ByCreate, false, map["l" := 4])
  const TAKEN := World(PROPOSED.sys.(raft := PROPOSED.sys.raft.(committed := LONG)), map[0 := EX_HOLDER, 1 := CLIENT_B])

  const COMMITTED := World(TAKEN.sys, map[0 := EX_HOLDER])

  lemma ReachCommitted()
    ensures GoesTo(HELD, COMMITTED)
  {
    hide GoesTo, ValidActs, AfterActs, Replay;
    ReachProposed();
    Then(HELD, PROPOSED, Server(Commit(1, 5)));
    assert DoAct(PROPOSED, Server(Commit(1, 5))).sys.raft.committed == LONG;
    assert DoAct(PROPOSED, Server(Commit(1, 5))) == COMMITTED;
  }

  lemma LeaseAndLockAreThere()
    ensures Creates(TAKEN.sys.raft, 3, 2, LEASE_B, SECOND)
    ensures AcquiredAt(TAKEN.sys.raft, 4, "l", LEASE_B) && NoStrayRelease(TAKEN.sys.raft, 4, "l", 2)
  {
    hide Replay;
    Replays();
  }

  lemma ReachTaken()
    ensures GoesTo(HELD, TAKEN)
  {
    hide GoesTo, ValidActs, AfterActs, Replay, Creates, AcquiredAt, NoStrayRelease;
    ReachCommitted();
    LeaseAndLockAreThere();
    var start := StartSession(1, SECOND, 3, LEASE_B, SECOND, SECOND);
    Then(HELD, COMMITTED, start);
    var w := DoAct(COMMITTED, start);
    Then(HELD, w, Acquired(1, "l", 4));
    assert DoAct(w, Acquired(1, "l", 4)) == TAKEN;
  }

  /** A lock passes from one live session, which gives up for want of renewals, to another. */
  lemma LockChangesHands()
    ensures exists w, w' ::
              && GoesTo(World(Start(0), map[]), w) && GoesTo(w, w')
              && Live(w, 0) && "l" in w.clients[0].holds
              && 0 in w'.clients && w'.clients[0].loop.phase.GivenUp?
              && Live(w', 1) && "l" in w'.clients[1].holds
  {
    hide GoesTo;
    ReachHeld();
    ReachTaken();
    assert Live(HELD, 0) && Live(TAKEN, 1);
  }
}
