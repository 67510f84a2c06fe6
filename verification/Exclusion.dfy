/**
 End-to-end exclusion: the server protocol together with its client sessions. At
 no reachable instant do two live sessions both believe they hold one lock.

 A session's heartbeat loop takes the steps of module Heartbeat. Besides the
 protocol's own hypotheses, `MayAct` states:
   C1  a heartbeat attempt returns by its timeout, and a timer that is due is met
       before time passes on, all clocks running at one rate;
   C2  a session starts heartbeating less than a third of its TTL after it sent its
       create request, and each create answer goes to one session;
   C3  the n-th reply on a heartbeat stream answers its n-th request, by a renewal
       whose clock was read after that request was sent;
   C4  a session's lease is used by that session only, and it proposes no release
       of a lock it believes to hold; when it learns that an acquire succeeded,
       no release of that lock by that lease lies later in any log.
 */
module Exclusion {
  import opened Domain
  import opened Fsm
  import opened FsmLog
  import opened RaftLog
  import opened LeaseProtocol
  import opened LeaseSafety
  import opened LeaseSteps
  import opened Heartbeat

  /** Why a session trusts its lease: the answer to its create, or an acknowledged renewal on process `p`. */
  datatype Proof = ByCreate | ByRenewal(p: nat, renewal: Renewal)

  /** The current heartbeat stream: when each request was sent, and how many replies were read. */
  datatype Conn = Conn(sent: seq<int>, answered: nat)

  datatype Client = Client(
    created: nat,             // log index of the create command it got its lease from
    lease: Lease,
    readAt: int,              // when the creating leader read its clock
    loopStart: int,
    loop: Loop,
    conn: Option<Conn>,
    asked: bool,              // the current attempt has sent its request
    proof: Proof,
    stopped: bool,
    holds: map<string, nat>)  // lock it believes to hold -> log index of the acquire

  /** A session ends when it is stopped or when its loop gives up. */
  predicate Ended(x: Client) {
    x.stopped || x.loop.phase.GivenUp?
  }

  datatype World = World(sys: Sys, clients: map<nat, Client>)

  datatype Act =
    | Server(e: Event)
    | StartSession(c: nat, sentAt: int, created: nat, lease: Lease, readAt: int, ttl: int)
    | Heartbeat(c: nat, beat: Beat)
    | Reconnect(c: nat)
    | Send(c: nat)
    | Confirm(c: nat, p: nat, renewal: Renewal)
    | Stop(c: nat)
    | Acquired(c: nat, name: string, index: nat)
    | Releasing(c: nat, name: string)

  ghost predicate Live(w: World, c: nat) {
    c in w.clients && !Ended(w.clients[c])
  }

  predicate IsRelease(e: Entry, name: string, id: nat) {
    e.data == Do(ReleaseLock(name, id))
  }

  /** No release of the lock by the lease lies after index `i` of `log`. */
  ghost predicate NoReleaseAfter(log: seq<Entry>, i: nat, name: string, id: nat) {
    forall j :: i < j < |log| ==> !IsRelease(log[j], name, id)
  }

  ghost predicate NoStrayRelease(r: Raft, i: nat, name: string, id: nat) {
    && NoReleaseAfter(r.committed, i, name, id)
    && (forall t :: t in r.logs ==> NoReleaseAfter(r.logs[t], i, name, id))
  }

  /** The acquire at index `i` of the committed log gave the lock to the lease. */
  ghost predicate AcquiredAt(r: Raft, i: nat, name: string, lease: Lease) {
    && i < |r.committed|
    && r.committed[i].data == Do(AcquireLock(name, lease.ownerID, lease.leaseID))
    && Step(Replay(r.committed[..i]), r.committed[i].data.cmd).1.LockAcquired?
  }

  predicate InAttempt(x: Client) {
    x.loop.phase.Attempting? || x.loop.phase.Retrying?
  }

  /** The next reply on the stream may stem from this renewal. */
  predicate Answers(renewal: Renewal, conn: Conn) {
    conn.answered < |conn.sent| && conn.sent[conn.answered] <= renewal.at
  }

  /** No live session with this lease believes it holds the lock. */
  ghost predicate MayRelease(w: World, name: string, id: nat) {
    forall c :: Live(w, c) && w.clients[c].lease.leaseID == id ==> name !in w.clients[c].holds
  }

  ghost predicate MayAct(w: World, a: Act) {
    match a
    case Server(e) =>
      && Enabled(w.sys, e)
      && (e.Tick? ==> forall c :: Live(w, c) ==> MayPass(w.clients[c].loop, w.sys.raft.now, e.to))
      && (e.Propose? && e.data.Do? && e.data.cmd.ReleaseLock? ==>
            MayRelease(w, e.data.cmd.lockName, e.data.cmd.leaseID))
    case StartSession(c, sentAt, created, lease, readAt, ttl) =>
      && c !in w.clients
      && Creates(w.sys.raft, created, lease.leaseID, lease, readAt)
      && (forall d :: d in w.clients ==> w.clients[d].created != created)
      && SECOND <= ttl <= lease.ttl
      && sentAt <= readAt
      && sentAt <= w.sys.raft.now < sentAt + Interval(ttl)
    case Heartbeat(c, beat) => Live(w, c) && !beat.Acked? && MayBeat(w.clients[c].loop, w.sys.raft.now, beat)
    case Reconnect(c) => Live(w, c) && InAttempt(w.clients[c]) && w.clients[c].conn.None?
    case Send(c) => Live(w, c) && InAttempt(w.clients[c]) && !w.clients[c].asked && w.clients[c].conn.Some?
    case Confirm(c, p, renewal) =>
      && Live(w, c) && MayBeat(w.clients[c].loop, w.sys.raft.now, Acked)
      && w.clients[c].asked && w.clients[c].conn.Some?
      && p in w.sys.procs && renewal in w.sys.procs[p].acked
      && renewal.lease.leaseID == w.clients[c].lease.leaseID
      && Answers(renewal, w.clients[c].conn.value)
    case Stop(c) => Live(w, c)
    case Acquired(c, name, index) =>
      && Live(w, c)
      && AcquiredAt(w.sys.raft, index, name, w.clients[c].lease)
      && NoStrayRelease(w.sys.raft, index, name, w.clients[c].lease.leaseID)
    case Releasing(c, name) => Live(w, c)
  }

  function WithClient(w: World, c: nat, client: Client): World {
    w.(clients := w.clients[c := client])
  }

  ghost function DoAct(w: World, a: Act): World
    requires MayAct(w, a)
  {
    var now := w.sys.raft.now;
    match a
    case Server(e) => w.(sys := LeaseProtocol.Exec(w.sys, e))
    case StartSession(c, sentAt, created, lease, readAt, ttl) =>
      WithClient(w, c, Client(created, lease, readAt, now, Started(sentAt, now, ttl), Some(Conn([], 0)), false,
                              ByCreate, false, map[]))
    case Heartbeat(c, beat) =>
      var x := w.clients[c];
      WithClient(w, c, x.(loop := DoBeat(x.loop, now, beat), asked := false,
                          conn := if beat.Fails? then None else x.conn))
    case Reconnect(c) => WithClient(w, c, w.clients[c].(conn := Some(Conn([], 0))))
    case Send(c) =>
      var conn := w.clients[c].conn.value;
      WithClient(w, c, w.clients[c].(conn := Some(conn.(sent := conn.sent + [now])), asked := true))
    case Confirm(c, p, renewal) =>
      var x := w.clients[c];
      WithClient(w, c, x.(loop := DoBeat(x.loop, now, Acked), asked := false, proof := ByRenewal(p, renewal),
                          conn := Some(x.conn.value.(answered := x.conn.value.answered + 1))))
    case Stop(c) => WithClient(w, c, w.clients[c].(stopped := true, conn := None))
    case Acquired(c, name, index) =>
      WithClient(w, c, w.clients[c].(holds := w.clients[c].holds[name := index]))
    case Releasing(c, name) => WithClient(w, c, w.clients[c].(holds := w.clients[c].holds - {name}))
  }

  ghost predicate ValidActs(w: World, acts: seq<Act>)
    decreases |acts|, 0
  {
    acts == [] || (ValidActs(w, acts[..|acts| - 1]) && MayAct(AfterActs(w, acts[..|acts| - 1]), acts[|acts| - 1]))
  }

  ghost function AfterActs(w: World, acts: seq<Act>): World
    requires ValidActs(w, acts)
    decreases |acts|, 1
  {
    if acts == [] then w else DoAct(AfterActs(w, acts[..|acts| - 1]), acts[|acts| - 1])
  }

  /** Two live sessions never believe they hold one lock. */
  ghost predicate Exclusive(w: World) {
    forall c, d, name :: Live(w, c) && Live(w, d) && name in w.clients[c].holds && name in w.clients[d].holds ==> c == d
  }

  // ------------------------------------------------------------------ invariant

  /** The session's proof of life, from `confirmedAt` on. */
  ghost predicate ProofOk(s: Sys, x: Client) {
    match x.proof
    case ByCreate => x.loop.confirmedAt <= x.readAt
    case ByRenewal(p, k) =>
      p in s.procs && k in s.procs[p].acked && k.lease.leaseID == x.lease.leaseID && x.loop.confirmedAt <= k.at
  }

  /**
   The stream is settled: outside an attempt, and until the attempt sends, every
   request was answered; after that its own request, sent no earlier than the
   attempt began, is the only one that was not.
   */
  ghost predicate ConnOk(x: Client) {
    && (x.asked ==> InAttempt(x) && x.conn.Some?)
    && (x.conn.Some? ==>
          var conn := x.conn.value;
          if x.asked then conn.answered + 1 == |conn.sent| && x.loop.phase.sentAt <= conn.sent[conn.answered]
          else conn.answered == |conn.sent|)
  }

  /** So the reply an attempt reads answers its own request. */
  lemma ReplyAnswersOwnRequest(x: Client, renewal: Renewal)
    requires ConnOk(x) && x.asked && x.conn.Some? && Answers(renewal, x.conn.value)
    ensures x.conn.value.answered == |x.conn.value.sent| - 1
    ensures InAttempt(x) && x.loop.phase.sentAt <= renewal.at
  {
  }

  /** The tick by which the current proof has to be renewed from. */
  function RenewFrom(x: Client): int {
    (if x.proof.ByCreate? then x.loopStart else x.loop.confirmedAt) + Interval(x.loop.ttl)
  }

  /** The latest instant the session can be alive on the proof it has. */
  function LatestEndOf(x: Client): int {
    if x.proof.ByCreate? then FirstLatestEnd(x.loop.confirmedAt, x.loopStart, x.loop.ttl)
    else LatestEnd(x.loop.confirmedAt, x.loop.ttl)
  }

  /** The loop's own invariant, for the proof the session has. */
  ghost predicate SessionOk(x: Client, now: int) {
    && SECOND <= x.loop.ttl <= x.lease.ttl
    && LoopOk(x.loop, RenewFrom(x), now)
    && (x.proof.ByCreate? ==> x.loopStart < x.loop.confirmedAt + Interval(x.loop.ttl))
  }

  ghost predicate HoldOk(r: Raft, x: Client, name: string, i: nat) {
    AcquiredAt(r, i, name, x.lease) && NoStrayRelease(r, i, name, x.lease.leaseID)
  }

  ghost predicate ClientOk(s: Sys, x: Client) {
    && Creates(s.raft, x.created, x.lease.leaseID, x.lease, x.readAt)
    && (!Ended(x) ==>
          && SessionOk(x, s.raft.now)
          && ConnOk(x)
          && ProofOk(s, x)
          && (forall name :: name in x.holds ==> HoldOk(s.raft, x, name, x.holds[name])))
  }

  ghost predicate WorldOk(w: World) {
    && Inv(w.sys)
    && (forall c :: c in w.clients ==> ClientOk(w.sys, w.clients[c]))
    && (forall c, d :: c in w.clients && d in w.clients && c != d ==> w.clients[c].created != w.clients[d].created)
  }

  // --------------------------------------------------------- from it, exclusion

  /** The heartbeat loop ends every session before its proof of life runs out. */
  lemma SessionFailsClosed(x: Client, now: int)
    requires SessionOk(x, now) && !Ended(x)
    ensures now <= LatestEndOf(x) < x.loop.confirmedAt + x.loop.ttl <= x.loop.confirmedAt + x.lease.ttl
  {
    LoopBounded(x.loop, RenewFrom(x), now);
    LatestEndsAre(x.loop.confirmedAt, x.loopStart, x.loop.ttl);
    EndsBeforeProofRunsOut(x.loop.confirmedAt, x.loop.ttl);
  }

  /** A live session's lease is in the replicated state. */
  lemma LeaseLives(s: Sys, x: Client)
    requires Inv(s) && ClientOk(s, x) && !Ended(x)
    ensures x.lease.leaseID in Replay(s.raft.committed).leases
  {
    hide Inv, HoldOk, Replay, Step, SessionOk, LatestEndOf;
    SessionFailsClosed(x, s.raft.now);
    var r := s.raft;
    assert r.committed[..|r.committed|] == r.committed;
    match x.proof {
      case ByCreate =>
        InvHonoursCreations(s);
        assert AliveSince(r, x.lease.leaseID, x.created + 1);
      case ByRenewal(p, k) =>
        RenewalRecord(s, p, k);
        SameRecord(r.committed, k.seen, x.created + 1, x.lease.leaseID);
        InvHonoursRenewals(s);
        assert AliveSince(r, x.lease.leaseID, k.seen);
    }
  }

  lemma RenewalRecord(s: Sys, p: nat, k: Renewal)
    requires Inv(s) && p in s.procs && k in s.procs[p].acked
    ensures InState(s.raft, k.lease, k.seen)
  {
    assert SeenOk(s.raft, p, k.term, k.lease, k.seen);
  }

  lemma AcquireGives(s: State, name: string, ownerID: string, id: nat)
    requires Sound(s) && Step(s, AcquireLock(name, ownerID, id)).1.LockAcquired?
    ensures var s' := Step(s, AcquireLock(name, ownerID, id)).0;
            name in s'.locks && s'.locks[name].leaseID == id && id in s'.leases
  {
  }

  /** A lock a live session believes to hold is held by its lease in the replicated state. */
  lemma BeliefIsTrue(s: Sys, x: Client, name: string)
    requires Inv(s) && ClientOk(s, x) && !Ended(x) && name in x.holds
    ensures HeldAt(s.raft.committed, |s.raft.committed|, name, x.lease.leaseID)
  {
    hide Inv, Creates, ProofOk, SessionOk, Replay, Step;
    var log, i, id := s.raft.committed, x.holds[name], x.lease.leaseID;
    assert HoldOk(s.raft, x, name, i);
    ReplayNext(log, i);
    ReplaySound(log[..i]);
    AcquireGives(Replay(log[..i]), name, x.lease.ownerID, id);
    LeaseLives(s, x);
    NotExpiredSince(log, i + 1, id);
    assert NoReleaseAfter(log, i, name, id);
    LockStays(log, i + 1, |log|, name, id);
  }

  /** Two create commands issue two lease IDs. */
  lemma CreatesDistinct(r: Raft, i: nat, j: nat, a: Lease, b: Lease, atA: int, atB: int)
    requires i < j && Creates(r, i, a.leaseID, a, atA) && Creates(r, j, b.leaseID, b, atB)
    ensures a.leaseID != b.leaseID
  {
    ReplaySound(r.committed[..i + 1]);
    NextIDGrows(r.committed, i + 1, j);
  }

  /** No two sessions have one lease. */
  lemma OneLeaseEach(w: World, c: nat, d: nat)
    requires WorldOk(w) && c in w.clients && d in w.clients && c != d
    ensures w.clients[c].lease.leaseID != w.clients[d].lease.leaseID
  {
    hide Inv, HoldOk, ProofOk, SessionOk, ConnOk, Replay, Step, Creates;
    var x, y := w.clients[c], w.clients[d];
    assert ClientOk(w.sys, x) && ClientOk(w.sys, y);
    if x.created < y.created {
      CreatesDistinct(w.sys.raft, x.created, y.created, x.lease, y.lease, x.readAt, y.readAt);
    } else {
      CreatesDistinct(w.sys.raft, y.created, x.created, y.lease, x.lease, y.readAt, x.readAt);
    }
  }

  lemma OkIsExclusive(w: World)
    requires WorldOk(w)
    ensures Exclusive(w)
  {
    hide Inv, HoldOk, ProofOk, SessionOk, Replay, Step, Creates;
    forall c, d, name | Live(w, c) && Live(w, d) && name in w.clients[c].holds && name in w.clients[d].holds
      ensures c == d
    {
      var x, y := w.clients[c], w.clients[d];
      BeliefIsTrue(w.sys, x, name);
      BeliefIsTrue(w.sys, y, name);
      if c != d {
        OneLeaseEach(w, c, d);
      }
    }
  }

  // ------------------------------------------------------------- every act keeps it

  lemma ExecExtends(s: Sys, e: Event)
    requires Inv(s) && Enabled(s, e)
    ensures Extends(s.raft, LeaseProtocol.Exec(s, e).raft)
  {
    hide LogOk, OwnLog, ProcOk, EnabledProc, ExecProc, Replay;
    if e.Win? {
      WinExtends(s.raft, e);
    }
  }

  lemma AckedGrows(s: Sys, e: Event, p: nat)
    requires Enabled(s, e) && p in s.procs
    ensures p in LeaseProtocol.Exec(s, e).procs
    ensures s.procs[p].acked <= LeaseProtocol.Exec(s, e).procs[p].acked
  {
  }

  lemma CreatesKept(r: Raft, r': Raft, x: Client)
    requires Extends(r, r') && Creates(r, x.created, x.lease.leaseID, x.lease, x.readAt)
    ensures Creates(r', x.created, x.lease.leaseID, x.lease, x.readAt)
  {
    hide Replay;
    PrefixKept(r, r', x.created);
    PrefixKept(r, r', x.created + 1);
  }

  lemma AcquiredKept(r: Raft, r': Raft, i: nat, name: string, lease: Lease)
    requires Extends(r, r') && AcquiredAt(r, i, name, lease)
    ensures AcquiredAt(r', i, name, lease)
  {
    hide Replay, Step;
    PrefixKept(r, r', i);
  }

  /** No event but a proposed release of this lock by this lease puts a release behind the acquire. */
  lemma NoStrayKept(s: Sys, e: Event, i: nat, name: string, id: nat)
    requires Enabled(s, e) && NoStrayRelease(s.raft, i, name, id)
    requires !(e.Propose? && e.data == Do(ReleaseLock(name, id)))
    ensures NoStrayRelease(LeaseProtocol.Exec(s, e).raft, i, name, id)
  {
    hide EnabledProc, ExecProc;
    var r, r' := s.raft, LeaseProtocol.Exec(s, e).raft;
    forall t | t in r'.logs ensures NoReleaseAfter(r'.logs[t], i, name, id) {
      if t in r.logs {
        assert NoReleaseAfter(r.logs[t], i, name, id);
      }
      if e.Win? && e.source in r.logs {
        assert NoReleaseAfter(r.logs[e.source], i, name, id);
      }
    }
    if e.Commit? {
      assert NoReleaseAfter(r.logs[e.term], i, name, id);
    }
  }

  lemma HoldKept(w: World, e: Event, c: nat, name: string)
    requires WorldOk(w) && MayAct(w, Server(e)) && Live(w, c) && name in w.clients[c].holds
    ensures HoldOk(LeaseProtocol.Exec(w.sys, e).raft, w.clients[c], name, w.clients[c].holds[name])
  {
    hide Inv, Creates, ProofOk, SessionOk, Enabled, LeaseProtocol.Exec;
    var x, i := w.clients[c], w.clients[c].holds[name];
    assert ClientOk(w.sys, x);
    assert HoldOk(w.sys.raft, x, name, i);
    ExecExtends(w.sys, e);
    AcquiredKept(w.sys.raft, LeaseProtocol.Exec(w.sys, e).raft, i, name, x.lease);
    NoStrayKept(w.sys, e, i, name, x.lease.leaseID);
  }

  lemma NowAfter(s: Sys, e: Event)
    requires Enabled(s, e)
    ensures LeaseProtocol.Exec(s, e).raft.now == if e.Tick? then e.to else s.raft.now
  {
    hide EnabledProc, ExecProc;
  }

  lemma ProofKept(s: Sys, e: Event, x: Client)
    requires Enabled(s, e) && ProofOk(s, x)
    ensures ProofOk(LeaseProtocol.Exec(s, e), x)
  {
    hide Enabled, LeaseProtocol.Exec;
    if x.proof.ByRenewal? {
      AckedGrows(s, e, x.proof.p);
    }
  }

  lemma ServerKeepsSession(w: World, e: Event, c: nat)
    requires MayAct(w, Server(e)) && Live(w, c) && SessionOk(w.clients[c], w.sys.raft.now)
    ensures SessionOk(w.clients[c], LeaseProtocol.Exec(w.sys, e).raft.now)
  {
    hide Enabled, LeaseProtocol.Exec, LoopOk;
    NowAfter(w.sys, e);
    if e.Tick? {
      PassKeepsLoop(w.clients[c].loop, RenewFrom(w.clients[c]), w.sys.raft.now, e.to);
    }
  }

  lemma ServerKeepsClient(w: World, e: Event, c: nat)
    requires WorldOk(w) && MayAct(w, Server(e)) && c in w.clients
    ensures ClientOk(LeaseProtocol.Exec(w.sys, e), w.clients[c])
  {
    hide Inv, Creates, ProofOk, HoldOk, SessionOk, Enabled, LeaseProtocol.Exec;
    var x := w.clients[c];
    assert ClientOk(w.sys, x);
    ExecExtends(w.sys, e);
    CreatesKept(w.sys.raft, LeaseProtocol.Exec(w.sys, e).raft, x);
    if !Ended(x) {
      assert Live(w, c);
      ServerKeepsSession(w, e, c);
      ProofKept(w.sys, e, x);
      forall name | name in x.holds ensures HoldOk(LeaseProtocol.Exec(w.sys, e).raft, x, name, x.holds[name]) {
        HoldKept(w, e, c, name);
      }
    }
  }

  lemma ActKeepsConn(w: World, a: Act)
    requires !a.Server? && MayAct(w, a) && (a.c in w.clients ==> ConnOk(w.clients[a.c]))
    requires a.c in w.clients ==> SessionOk(w.clients[a.c], w.sys.raft.now)
    ensures !Ended(DoAct(w, a).clients[a.c]) ==> ConnOk(DoAct(w, a).clients[a.c])
  {
    hide Creates, AcquiredAt, NoStrayRelease, Replay, Step;
  }

  lemma ActKeepsSession(w: World, a: Act)
    requires !a.Server? && MayAct(w, a)
    requires a.c in w.clients ==> SessionOk(w.clients[a.c], w.sys.raft.now)
    ensures !Ended(DoAct(w, a).clients[a.c]) ==> SessionOk(DoAct(w, a).clients[a.c], w.sys.raft.now)
  {
    hide Creates, AcquiredAt, NoStrayRelease, Replay, Step, LoopOk;
    var now := w.sys.raft.now;
    match a {
      case StartSession(c, sentAt, _, _, _, ttl) => StartedLoopOk(sentAt, now, ttl);
      case Heartbeat(c, beat) => BeatKeepsLoop(w.clients[c].loop, RenewFrom(w.clients[c]), now, beat);
      case Confirm(c, _, _) => BeatKeepsLoop(w.clients[c].loop, RenewFrom(w.clients[c]), now, Acked);
      case _ =>
    }
  }

  /** A session keeps its proof of life, or has a new one from the attempt that was acknowledged. */
  lemma ActKeepsProof(w: World, a: Act)
    requires !a.Server? && MayAct(w, a)
    requires a.c in w.clients ==> ConnOk(w.clients[a.c]) && ProofOk(w.sys, w.clients[a.c])
    ensures ProofOk(w.sys, DoAct(w, a).clients[a.c])
  {
    hide Creates, AcquiredAt, NoStrayRelease, Replay, Step, ConnOk;
    if a.Confirm? {
      ReplyAnswersOwnRequest(w.clients[a.c], a.renewal);
    }
  }

  /** The client an act of its own changes is in order after it. */
  lemma ActKeepsOwn(w: World, a: Act)
    requires WorldOk(w) && !a.Server? && MayAct(w, a)
    ensures ClientOk(w.sys, DoAct(w, a).clients[a.c])
  {
    hide Inv, Creates, Replay, Step, AcquiredAt, NoStrayRelease, LoopOk, ConnOk, SessionOk, ProofOk;
    assert a.c in w.clients ==> ClientOk(w.sys, w.clients[a.c]);
    ActKeepsConn(w, a);
    ActKeepsSession(w, a);
    ActKeepsProof(w, a);
  }

  lemma ClientActKeeps(w: World, a: Act)
    requires WorldOk(w) && !a.Server? && MayAct(w, a)
    ensures WorldOk(DoAct(w, a))
  {
    hide Inv, ClientOk;
    ActKeepsOwn(w, a);
    SameCreations(w, a);
  }

  /** No act of a client changes the servers, any other client, or who got which create answer. */
  lemma SameCreations(w: World, a: Act)
    requires !a.Server? && MayAct(w, a)
    ensures var w' := DoAct(w, a);
            && w'.sys == w.sys && w'.clients.Keys == w.clients.Keys + {a.c}
            && (forall d :: d in w.clients && d != a.c ==> w'.clients[d] == w.clients[d])
            && (a.c in w.clients ==> w'.clients[a.c].created == w.clients[a.c].created)
            && (a.c !in w.clients ==> forall d :: d in w.clients ==> w.clients[d].created != w'.clients[a.c].created)
  {
  }

  lemma ActKeeps(w: World, a: Act)
    requires WorldOk(w) && MayAct(w, a)
    ensures WorldOk(DoAct(w, a))
  {
    hide Inv, ClientOk, Enabled, LeaseProtocol.Exec;
    if a.Server? {
      EventKeeps(w.sys, a.e);
      forall c | c in w.clients ensures ClientOk(LeaseProtocol.Exec(w.sys, a.e), w.clients[c]) {
        ServerKeepsClient(w, a.e, c);
      }
    } else {
      ClientActKeeps(w, a);
    }
  }

  lemma {:induction false} ActsKeep(now: int, acts: seq<Act>)
    requires ValidActs(World(Start(now), map[]), acts)
    ensures WorldOk(AfterActs(World(Start(now), map[]), acts))
  {
    if acts != [] {
      ActsKeep(now, acts[..|acts| - 1]);
      ActKeeps(AfterActs(World(Start(now), map[]), acts[..|acts| - 1]), acts[|acts| - 1]);
    }
  }

  // ------------------------------------------------------------- release and stop

  /** An acquire adds the belief in that lock to those the session has, and changes nothing else. */
  lemma AcquiringAddsBelief(w: World, c: nat, name: string, index: nat)
    requires MayAct(w, Acquired(c, name, index))
    ensures var x, y := w.clients[c], DoAct(w, Acquired(c, name, index)).clients[c];
            && (forall n :: n in y.holds <==> n in x.holds || n == name)
            && (forall n :: n in x.holds && n != name ==> y.holds[n] == x.holds[n])
            && y.holds[name] == index && y.(holds := x.holds) == x
  {
  }

  /** A release drops the belief in that lock and in no other, and changes nothing else. */
  lemma ReleasingDropsBelief(w: World, c: nat, name: string)
    requires MayAct(w, Releasing(c, name))
    ensures var x, y := w.clients[c], DoAct(w, Releasing(c, name)).clients[c];
            && (forall n :: n in y.holds <==> n in x.holds && n != name)
            && (forall n :: n in y.holds ==> y.holds[n] == x.holds[n])
            && y.(holds := x.holds) == x
  {
  }

  /** After it nothing keeps the session's release from being proposed. */
  lemma ReleaseMayBeProposed(w: World, c: nat, name: string)
    requires c in w.clients && WorldOk(w) && MayAct(w, Releasing(c, name))
    ensures MayRelease(DoAct(w, Releasing(c, name)), name, w.clients[c].lease.leaseID)
  {
    hide WorldOk;
    var w' := DoAct(w, Releasing(c, name));
    forall d | Live(w', d) && w'.clients[d].lease.leaseID == w.clients[c].lease.leaseID
      ensures name !in w'.clients[d].holds
    {
      if d != c {
        OneLeaseEach(w, c, d);
      }
    }
  }

  /** A stopped session has ended, and its stream is closed. */
  lemma StopEnds(w: World, c: nat)
    requires MayAct(w, Stop(c))
    ensures !Live(DoAct(w, Stop(c)), c)
    ensures DoAct(w, Stop(c)).clients[c].conn == None
    ensures DoAct(w, Stop(c)).clients[c].(stopped := false, conn := w.clients[c].conn) == w.clients[c]
  {
  }

  /**
   Whatever servers and clients do, from the empty cluster on, two live sessions
   never both believe they hold the same lock.
   */
  lemma NoTwoHolders(now: int, acts: seq<Act>)
    requires ValidActs(World(Start(now), map[]), acts)
    ensures Exclusive(AfterActs(World(Start(now), map[]), acts))
  {
    ActsKeep(now, acts);
    OkIsExclusive(AfterActs(World(Start(now), map[]), acts));
  }

  /**
   In every such run, a live session is within its latest end, which lies before
   the end of its proof of life, and its lease is in the replicated state.
   */
  lemma NoSessionOutlivesLease(now: int, acts: seq<Act>, c: nat)
    requires ValidActs(World(Start(now), map[]), acts) && Live(AfterActs(World(Start(now), map[]), acts), c)
    ensures var w := AfterActs(World(Start(now), map[]), acts);
            && w.sys.raft.now <= LatestEndOf(w.clients[c]) < w.clients[c].loop.confirmedAt + w.clients[c].loop.ttl
            && w.clients[c].lease.leaseID in Replay(w.sys.raft.committed).leases
  {
    ActsKeep(now, acts);
    var w := AfterActs(World(Start(now), map[]), acts);
    assert ClientOk(w.sys, w.clients[c]);
    SessionFailsClosed(w.clients[c], w.sys.raft.now);
    LeaseLives(w.sys, w.clients[c]);
  }
}
