/**
 One run in which a session renews: its first attempt fails and takes the stream
 down, the retry reconnects, and the server's acknowledgement renews its proof of
 life and leaves the lock with it.
 */
module HeartbeatRun {
  import opened Domain
  import opened RaftLog
  import opened LeaseTracker
  import opened LeaseProtocol
  import opened Heartbeat
  import opened Exclusion
  import opened Handover

  const AGAIN := BackingOff(383_333_333, 100_000_000, 333_333_333)
  const RETRY := Retrying(383_333_333, 716_666_666, 100_000_000, 333_333_333)

  lemma Turned()
    ensures Turns(TRIED, 333_333_333, Fails, AGAIN)
  {
  }

  lemma Retried()
    ensures Turns(AGAIN, 383_333_333, BackoffOver, RETRY)
  {
  }

  lemma ReachRetry()
    ensures GoesTo(HELD, Phased(383_333_333, RETRY, None))
  {
    hide GoesTo, Turns, Phased;
    StaysAt(HELD);
    FirstTry();
    Turned();
    Retried();
    HeldIsPhased();
    var conn := Some(Conn([], 0));
    Wait(0, FIRST, conn, 333_333_333);
    BeatOnce(333_333_333, FIRST, conn, TickFires(0), TRIED);
    BeatOnce(333_333_333, TRIED, conn, Fails, AGAIN);
    Wait(333_333_333, AGAIN, None, 383_333_333);
    BeatOnce(383_333_333, AGAIN, None, BackoffOver, RETRY);
  }

  /** The world at the time of the retry, with a given server and a given session. */
  function WorldWith(server: Proc, client: Client): World {
    World(Sys(RAFT.(now := 383_333_333), map[0 := server]), map[0 := client])
  }

  const ASKING := CLIENT_A.(loop := Loop(SECOND, 0, RETRY), conn := Some(Conn([383_333_333], 0)), asked := true)

  /** The session has reconnected and sent its request. */
  lemma ReachAsking()
    ensures GoesTo(HELD, WorldWith(SERVER, ASKING))
  {
    hide GoesTo, ValidActs, AfterActs, Replay;
    ReachRetry();
    var w := Phased(383_333_333, RETRY, None);
    Then(HELD, w, Reconnect(0));
    var w1 := DoAct(w, Reconnect(0));
    Then(HELD, w1, Send(0));
    assert [] + [383_333_333] == [383_333_333];
    assert DoAct(w1, Send(0)).clients[0] == ASKING;
    assert DoAct(w1, Send(0)) == WorldWith(SERVER, ASKING);
  }

  const LOOKUP := Lookup(1, LEASE_A, 2)
  const RENEWAL := Renewal(1, LEASE_A, 2, 383_333_333)
  const READER := SERVER.(barriers := {1}, lookups := {LOOKUP}, readings := {RENEWAL})

  /** The server has looked the lease up and read its clock. */
  lemma ReachLookedUp()
    ensures GoesTo(HELD, WorldWith(READER.(readings := {}), ASKING))
  {
    hide GoesTo, ValidActs, AfterActs, Replay;
    ReachAsking();
    Replays();
    assert SHORT[..2] == LONG[..2];
    var w := WorldWith(SERVER, ASKING);
    Then(HELD, w, Server(AwaitTermApplied(0, 1)));
    var w1 := DoAct(w, Server(AwaitTermApplied(0, 1)));
    Then(HELD, w1, Server(LookUp(0, 1, 1)));
    assert DoAct(w1, Server(LookUp(0, 1, 1))).sys.procs[0] == READER.(readings := {});
    assert DoAct(w1, Server(LookUp(0, 1, 1))) == WorldWith(READER.(readings := {}), ASKING);
  }

  lemma ReachReading()
    ensures GoesTo(HELD, WorldWith(READER, ASKING))
  {
    hide GoesTo, ValidActs, AfterActs, Replay;
    ReachLookedUp();
    var w := WorldWith(READER.(readings := {}), ASKING);
    Then(HELD, w, Server(ReadClock(0, LOOKUP)));
    assert DoAct(w, Server(ReadClock(0, LOOKUP))).sys.procs[0] == READER;
    assert DoAct(w, Server(ReadClock(0, LOOKUP))) == WorldWith(READER, ASKING);
  }

  const RENEWED := Tracker(1, Some(1), map[1 := 383_333_334], {})
  const RENEWER := READER.(tracker := RENEWED, recorded := {RENEWAL}, acked := {RENEWAL})

  /** It has recorded the renewal. */
  lemma ReachRecorded()
    ensures GoesTo(HELD, WorldWith(RENEWER.(acked := {}), ASKING))
  {
    hide GoesTo, ValidActs, AfterActs, Replay;
    ReachReading();
    var w, e := WorldWith(READER, ASKING), Server(RecordRenewal(0, RENEWAL));
    Then(HELD, w, e);
    assert DoAct(w, e).sys.procs[0] == RENEWER.(acked := {});
    assert DoAct(w, e) == WorldWith(RENEWER.(acked := {}), ASKING);
  }

  /** It has acknowledged the renewal. */
  lemma ReachAnswered()
    ensures GoesTo(HELD, WorldWith(RENEWER, ASKING))
  {
    hide GoesTo, ValidActs, AfterActs, Replay;
    ReachRecorded();
    var w, e := WorldWith(RENEWER.(acked := {}), ASKING), Server(VerifyLeader(0, RENEWAL));
    Then(HELD, w, e);
    assert DoAct(w, e).sys.procs[0] == RENEWER;
    assert DoAct(w, e) == WorldWith(RENEWER, ASKING);
  }

  const RENEWED_CLIENT := CLIENT_A.(loop := Loop(SECOND, 383_333_333, Waiting(333_333_333)),
                                    conn := Some(Conn([383_333_333], 1)), proof := ByRenewal(0, RENEWAL))

  /** A session that holds a lock renews its proof of life over a reconnected stream, and keeps the lock. */
  lemma SessionRenews()
    ensures exists w, w' ::
              && GoesTo(World(Start(0), map[]), w) && GoesTo(w, w')
              && Live(w, 0) && w.clients[0].proof.ByCreate? && "l" in w.clients[0].holds
              && Live(w', 0) && w'.clients[0].proof.ByRenewal? && "l" in w'.clients[0].holds
              && w.clients[0].loop.confirmedAt < w'.clients[0].loop.confirmedAt == w'.sys.raft.now
  {
    hide GoesTo, ValidActs, AfterActs, Replay;
    ReachHeld();
    ReachAnswered();
    var w := WorldWith(RENEWER, ASKING);
    Then(HELD, w, Confirm(0, 0, RENEWAL));
    var w' := DoAct(w, Confirm(0, 0, RENEWAL));
    assert w'.clients[0] == RENEWED_CLIENT;
    assert Live(HELD, 0) && Live(w', 0);
  }
}
