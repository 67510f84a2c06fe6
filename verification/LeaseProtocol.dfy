/**
 Lease liveness across leaders, as a step system: any number of processes and
 Raft terms, real time, one constant clock offset per process, the abstract Raft
 log, and the tracker of each process.

 A process is one run of the server. A restart is a new process: the tracker is
 memory, and `Now` fixes its clock offset when the process starts.

 What the code takes from Raft and from its environment is written into
 `Enabled`:
   R1  a term is won by at most one process, and a process wins growing terms;
   R2  a leader only appends, and starts from a prefix of an earlier leader's log;
   R3  the committed log only grows, by a prefix of some leader's log, and a
       process applies only entries of its own log;
   H1  a clock reading reaches `renew` no later than a newer renewal of the lease,
       and no later than the finish of a committed expiry claimed after it;
   H2  an expiry is appended in the term that claimed it, or not at all;
   H3  leadership is verified only while the term is led and no later one is won;
   H4  the tracker meets a term only after this process won it;
   H5  an expiry that failed while its term is still led was never appended;
   H6  the tracker is never called with an older term than its own.
 */
module LeaseProtocol {
  import opened Domain
  import opened Fsm
  import opened RaftLog
  import opened LeaseTracker

  datatype Raft = Raft(
    now: int,                      // real time
    offset: map<nat, int>,         // process -> its clock minus real time
    leader: map<nat, nat>,         // term -> the process that won it
    wonAt: map<nat, int>,          // term -> when it was won
    active: set<nat>,              // terms still led
    logs: map<nat, seq<Entry>>,    // term -> the log of its leader
    committed: seq<Entry>)

  /** A lease this process put in its expiry pass, until `finishExpiry`. `seen` is history. */
  datatype Claim = Claim(term: nat, lease: Lease, seen: nat, at: int, appended: bool)

  /** A `RenewLease` call past its lease lookup; `seen` counts the entries applied at that lookup. */
  datatype Lookup = Lookup(term: nat, lease: Lease, seen: nat)

  /** The same call past its clock reading, taken at real time `at`. */
  datatype Renewal = Renewal(term: nat, lease: Lease, seen: nat, at: int)

  datatype Proc = Proc(
    tracker: Tracker,
    barriers: set<nat>,            // terms some call has awaited
    applied: nat,                  // committed entries its state machine has applied
    lookups: set<Lookup>,
    readings: set<Renewal>,
    recorded: set<Renewal>,        // recorded in the tracker, leadership not yet verified
    acked: set<Renewal>,           // acknowledged to the client
    pending: set<Claim>,
    finished: set<Claim>)          // history: expiries finished as committed

  datatype Sys = Sys(raft: Raft, procs: map<nat, Proc>)

  const NEW_PROC := Proc(FRESH, {}, 0, {}, {}, {}, {}, {}, {})

  function Start(now: int): Sys {
    Sys(Raft(now, map[], map[], map[], {}, map[], []), map[])
  }

  datatype Event =
    | Tick(to: int)
    | Boot(p: nat, offset: int)
    | Win(term: nat, p: nat, source: nat, len: nat)
    | StepDown(term: nat)
    | Propose(term: nat, data: Data)
    | Commit(term: nat, len: nat)
    | ApplyTo(p: nat, upTo: nat)
    | AwaitTermApplied(p: nat, term: nat)
    | LookUp(p: nat, term: nat, id: nat)
    | ReadClock(p: nat, lookup: Lookup)
    | RecordRenewal(p: nat, reading: Renewal)
    | VerifyLeader(p: nat, renewal: Renewal)
    | CheckAlive(p: nat, term: nat, at: int)
    | ClaimExpired(p: nat, term: nat, at: int, leases: seq<Lease>, seen: nat)
    | ProposeExpiry(p: nat, claim: Claim)
    | FinishExpiry(p: nat, claim: Claim, ok: bool)

  predicate Leads(r: Raft, p: nat, term: nat) {
    term in r.leader && r.leader[term] == p
  }

  predicate Active(r: Raft, p: nat, term: nat) {
    Leads(r, p, term) && term in r.active
  }

  /** The log a new leader starts from. */
  function Inherited(r: Raft, source: nat, len: nat): seq<Entry> {
    if source in r.logs && len <= |r.logs[source]| then r.logs[source][..len] else []
  }

  /** Any prefix of an earlier leader's log may survive, so entries that were not committed can be lost. */
  lemma InheritsAnyPrefix(r: Raft, source: nat, len: nat)
    requires source in r.logs && len <= |r.logs[source]|
    ensures Inherited(r, source, len) <= r.logs[source] && |Inherited(r, source, len)| == len
  {
  }

  /** H1 for one reading. */
  ghost predicate InOrder(r: Raft, p: nat, x: Proc, reading: Renewal)
    requires p in r.offset
  {
    var id := reading.lease.leaseID;
    && (reading.term == x.tracker.term && id in x.tracker.renewedAt ==>
          x.tracker.renewedAt[id] <= reading.at + r.offset[p])
    && (forall c :: c in x.finished && c.term == reading.term && c.lease.leaseID == id ==> c.at <= reading.at)
  }

  /** The tracker meets `term` with a clock reading taken at `at`: H4 and H6. */
  ghost predicate MayCall(r: Raft, p: nat, x: Proc, term: nat, at: int) {
    && p in r.offset
    && Leads(r, p, term) && term in r.wonAt
    && r.wonAt[term] <= at <= r.now
    && x.tracker.term <= term
  }

  ghost predicate CommittedExpiry(r: Raft, x: Proc, claim: Claim) {
    exists i :: 0 <= i < x.applied && i < |r.committed| &&
                r.committed[i].term == claim.term && Expires(r.committed[i], claim.lease.leaseID)
  }

  ghost predicate EnabledRaft(r: Raft, procs: map<nat, Proc>, e: Event)
    requires e.Tick? || e.Win? || e.StepDown? || e.Propose? || e.Commit?
  {
    match e
    case Tick(to) => r.now <= to
    case Win(term, p, source, len) =>
      && p in procs && 0 < term && term !in r.leader
      && (forall t :: t in r.leader && r.leader[t] == p ==> t < term)
      && (source in r.logs ==> source < term)
      && procs[p].applied <= |r.committed|
      && r.committed[..procs[p].applied] <= Inherited(r, source, len)
    case StepDown(term) => term in r.active
    case Propose(term, data) =>
      && term in r.active && term in r.leader && term in r.logs && r.leader[term] in r.offset
      && !(data.Do? && data.cmd.ExpireLease?)
      && (data.Do? && data.cmd.CreateLease? ==> data.cmd.createdAt - r.offset[r.leader[term]] <= r.now)
    case Commit(term, len) =>
      term in r.logs && |r.committed| <= len <= |r.logs[term]| && r.committed <= r.logs[term]
  }

  function ExecRaft(r: Raft, e: Event): Raft
    requires e.Tick? || e.Win? || e.StepDown? || e.Propose? || e.Commit?
    requires e.Propose? ==> e.term in r.logs
    requires e.Commit? ==> e.term in r.logs && e.len <= |r.logs[e.term]|
  {
    match e
    case Tick(to) => r.(now := to)
    case Win(term, p, source, len) =>
      r.(leader := r.leader[term := p],
         wonAt := r.wonAt[term := r.now],
         active := (set t | t in r.active && !(t in r.leader && r.leader[t] == p)) + {term},
         logs := r.logs[term := Inherited(r, source, len)])
    case StepDown(term) => r.(active := r.active - {term})
    case Propose(term, data) => Append(r, term, Entry(term, data, r.now, 0))
    case Commit(term, len) => r.(committed := r.logs[term][..len])
  }

  function Append(r: Raft, term: nat, e: Entry): Raft
    requires term in r.logs
  {
    r.(logs := r.logs[term := r.logs[term] + [e]])
  }

  ghost predicate EnabledProc(r: Raft, p: nat, x: Proc, e: Event)
    requires e.ApplyTo? || e.AwaitTermApplied? || e.LookUp? || e.ReadClock? || e.RecordRenewal? || e.VerifyLeader?
             || e.CheckAlive? || e.ClaimExpired? || e.FinishExpiry?
  {
    && p in r.offset
    && match e
       case ApplyTo(_, upTo) =>
         && x.applied <= upTo <= |r.committed|
         && (forall t :: t in r.active && t in r.logs && Leads(r, p, t) ==> r.committed[..upTo] <= r.logs[t])
       case AwaitTermApplied(_, term) =>
         Leads(r, p, term) && 0 < x.applied <= |r.committed| && term <= r.committed[x.applied - 1].term
       case LookUp(_, term, id) =>
         && Leads(r, p, term) && term in x.barriers
         && x.applied <= |r.committed| && id in Replay(r.committed[..x.applied]).leases
       case ReadClock(_, lookup) => lookup in x.lookups
       case RecordRenewal(_, reading) =>
         && reading in x.readings && InOrder(r, p, x, reading)
         && MayCall(r, p, x, reading.term, reading.at)
       case VerifyLeader(_, renewal) =>
         && renewal in x.recorded && Active(r, p, renewal.term)
         && (forall t :: t in r.leader ==> t <= renewal.term)
       case CheckAlive(_, term, at) => MayCall(r, p, x, term, at)
       case ClaimExpired(_, term, at, leases, seen) =>
         && MayCall(r, p, x, term, at)
         && x.pending == {}
         && seen <= x.applied <= |r.committed|
         && (forall i :: 0 <= i < |leases| ==> InState(r, leases[i], seen))
       case FinishExpiry(_, claim, ok) =>
         && claim in x.pending
         && (if ok then claim.appended && CommittedExpiry(r, x, claim)
             else !claim.appended || claim.term !in r.active)
  }

  /** `lease` is a lease of the state after the first `seen` committed entries. */
  ghost predicate InState(r: Raft, lease: Lease, seen: nat) {
    && seen <= |r.committed|
    && lease.leaseID in Replay(r.committed[..seen]).leases
    && Replay(r.committed[..seen]).leases[lease.leaseID] == lease
  }

  /** What one process does to its own memory. */
  function ExecProc(r: Raft, p: nat, x: Proc, e: Event): Proc
    requires e.ApplyTo? || e.AwaitTermApplied? || e.LookUp? || e.ReadClock? || e.RecordRenewal? || e.VerifyLeader?
             || e.CheckAlive? || e.ClaimExpired? || e.FinishExpiry?
    requires p in r.offset
    requires e.LookUp? ==> x.applied <= |r.committed| && e.id in Replay(r.committed[..x.applied]).leases
  {
    match e
    case ApplyTo(_, upTo) => x.(applied := upTo)
    case AwaitTermApplied(_, term) => x.(barriers := x.barriers + {term})
    case LookUp(_, term, id) =>
      x.(lookups := x.lookups + {Lookup(term, Replay(r.committed[..x.applied]).leases[id], x.applied)})
    case ReadClock(_, k) => x.(readings := x.readings + {Renewal(k.term, k.lease, k.seen, r.now)})
    case RecordRenewal(_, k) =>
      var (tracker, ok) := Renewed(x.tracker, k.term, k.at + r.offset[p], k.lease);
      x.(tracker := tracker, recorded := if ok then x.recorded + {k} else x.recorded)
    case VerifyLeader(_, renewal) => x.(acked := x.acked + {renewal})
    case CheckAlive(_, term, at) => x.(tracker := Synced(x.tracker, term, at + r.offset[p]))
    case ClaimExpired(_, term, at, leases, seen) =>
      var (tracker, ids) := ClaimPass(x.tracker, term, at + r.offset[p], leases);
      x.(tracker := tracker,
         pending := set l | l in leases && l.leaseID in ids :: Claim(term, l, seen, at, false))
    case FinishExpiry(_, claim, ok) =>
      x.(tracker := Finished(x.tracker, claim.lease.leaseID, ok),
         pending := x.pending - {claim},
         finished := if ok then x.finished + {claim} else x.finished)
  }

  ghost predicate Enabled(s: Sys, e: Event) {
    match e
    case Boot(p, _) => p !in s.procs
    case Tick(_) => EnabledRaft(s.raft, s.procs, e)
    case Win(_, _, _, _) => EnabledRaft(s.raft, s.procs, e)
    case StepDown(_) => EnabledRaft(s.raft, s.procs, e)
    case Propose(_, _) => EnabledRaft(s.raft, s.procs, e)
    case Commit(_, _) => EnabledRaft(s.raft, s.procs, e)
    case ProposeExpiry(p, claim) =>
      && p in s.procs && claim in s.procs[p].pending && !claim.appended
      && claim.term in s.raft.logs && Active(s.raft, p, claim.term)
    case _ => e.p in s.procs && EnabledProc(s.raft, e.p, s.procs[e.p], e)
  }

  function Exec(s: Sys, e: Event): Sys
    requires Enabled(s, e)
  {
    match e
    case Boot(p, offset) =>
      Sys(s.raft.(offset := s.raft.offset[p := offset]), s.procs[p := NEW_PROC])
    case Tick(_) => s.(raft := ExecRaft(s.raft, e))
    case Win(_, _, _, _) => s.(raft := ExecRaft(s.raft, e))
    case StepDown(_) => s.(raft := ExecRaft(s.raft, e))
    case Propose(_, _) => s.(raft := ExecRaft(s.raft, e))
    case Commit(_, _) => s.(raft := ExecRaft(s.raft, e))
    case ProposeExpiry(p, claim) =>
      var x := s.procs[p];
      var entry := Entry(claim.term, Do(ExpireLease(claim.lease.leaseID)), s.raft.now, claim.seen);
      Sys(Append(s.raft, claim.term, entry),
          s.procs[p := x.(pending := x.pending - {claim} + {claim.(appended := true)})])
    case _ => s.(procs := s.procs[e.p := ExecProc(s.raft, e.p, s.procs[e.p], e)])
  }

  /** Every event of the run is enabled when it happens. */
  ghost predicate Valid(s: Sys, run: seq<Event>)
    decreases |run|, 0
  {
    run == [] || (Valid(s, run[..|run| - 1]) && Enabled(After(s, run[..|run| - 1]), run[|run| - 1]))
  }

  ghost function After(s: Sys, run: seq<Event>): Sys
    requires Valid(s, run)
    decreases |run|, 1
  {
    if run == [] then s else Exec(After(s, run[..|run| - 1]), run[|run| - 1])
  }
}
