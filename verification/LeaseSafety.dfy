/**
 No acknowledged renewal is cut short, in any run of the multi-process,
 multi-term system. The invariant speaks of Raft's logs and of each process
 separately; every event is shown to keep both parts.
 */
module LeaseSafety {
  import opened Domain
  import opened Fsm
  import opened FsmLog
  import opened RaftLog
  import opened LeaseTracker
  import opened LeaseProtocol

  // ------------------------------------------------------------ Raft's side

  ghost predicate KeysOk(r: Raft) {
    && r.leader.Keys == r.wonAt.Keys == r.logs.Keys
    && r.active <= r.leader.Keys
    && 0 !in r.leader
    && (forall t :: t in r.leader ==> r.leader[t] in r.offset && r.wonAt[t] <= r.now)
    && (forall t, u :: t in r.leader && u in r.active && r.leader[t] == r.leader[u] ==> t <= u)
  }

  ghost predicate EntryTimed(r: Raft, e: Entry) {
    e.term in r.wonAt && r.wonAt[e.term] <= e.at <= r.now
  }

  /** An expiry entry was proposed no earlier than its lease's deadline on the proposing leader. */
  ghost predicate ExpiryOk(r: Raft, e: Entry)
    requires IsExpiry(e)
  {
    && e.term in r.wonAt && e.term in r.leader && r.leader[e.term] in r.offset
    && e.seen <= |r.committed|
    && e.data.cmd.leaseID in Replay(r.committed[..e.seen]).leases
    && var lease := Replay(r.committed[..e.seen]).leases[e.data.cmd.leaseID];
       && r.wonAt[e.term] + lease.ttl <= e.at
       && lease.expiresAt <= e.at + r.offset[r.leader[e.term]]
  }

  /** A lease's creation time was read on the proposing leader's clock before the append. */
  ghost predicate CreateOk(r: Raft, e: Entry)
    requires IsCreate(e)
  {
    && e.term in r.leader && r.leader[e.term] in r.offset
    && e.data.cmd.createdAt - r.offset[r.leader[e.term]] <= e.at
  }

  ghost predicate EntryOk(r: Raft, e: Entry) {
    && EntryTimed(r, e)
    && (IsExpiry(e) ==> ExpiryOk(r, e))
    && (IsCreate(e) ==> CreateOk(r, e))
  }

  /** Terms never go down along a log, and an entry of an earlier term was appended before the later was won. */
  ghost predicate Ordered(r: Raft, log: seq<Entry>) {
    forall i, j :: 0 <= i < j < |log| ==>
      && log[i].term <= log[j].term
      && (log[i].term < log[j].term ==> log[j].term in r.wonAt && log[i].at <= r.wonAt[log[j].term])
  }

  ghost predicate EntriesOk(r: Raft, log: seq<Entry>) {
    forall i :: 0 <= i < |log| ==> EntryOk(r, log[i])
  }

  /** A lease is expired only after it was issued. */
  ghost predicate IssuedFirst(log: seq<Entry>) {
    forall i :: 0 <= i < |log| && IsExpiry(log[i]) ==> log[i].data.cmd.leaseID < Replay(log[..i]).nextLeaseID
  }

  /** Every entry was appended by the leader of its own term. */
  ghost predicate Traceable(r: Raft, log: seq<Entry>) {
    forall i :: 0 <= i < |log| ==> log[i].term in r.logs && log[i] in r.logs[log[i].term]
  }

  ghost predicate LogOk(r: Raft, log: seq<Entry>) {
    Ordered(r, log) && EntriesOk(r, log) && IssuedFirst(log) && Traceable(r, log)
  }

  ghost predicate OwnLog(r: Raft, term: nat, log: seq<Entry>) {
    forall i :: 0 <= i < |log| ==>
      && log[i].term <= term
      && (log[i].term < term ==> term in r.wonAt && log[i].at <= r.wonAt[term])
  }

  ghost predicate RaftOk(r: Raft) {
    && KeysOk(r)
    && (forall t :: t in r.logs ==> LogOk(r, r.logs[t]) && OwnLog(r, t, r.logs[t]))
    && LogOk(r, r.committed)
  }

  // --------------------------------------------------------- a process's side

  ghost predicate TrackerOk(r: Raft, p: nat, x: Proc) {
    && p in r.offset
    && (x.tracker.term == 0 ==> x.tracker == FRESH)
    && (0 < x.tracker.term ==>
          && Leads(r, p, x.tracker.term) && x.tracker.term in r.wonAt
          && x.tracker.leaderSince.Some?
          && r.wonAt[x.tracker.term] <= x.tracker.leaderSince.value - r.offset[p])
  }

  ghost predicate AppliedOk(r: Raft, p: nat, x: Proc) {
    && x.applied <= |r.committed|
    && (forall t :: t in x.barriers ==> 0 < x.applied && t <= r.committed[x.applied - 1].term)
    && (forall t :: t in r.active && t in r.logs && Leads(r, p, t) ==> r.committed[..x.applied] <= r.logs[t])
  }

  /** What the barrier and the lookup established: `lease` is alive after an entry of `term` or later. */
  ghost predicate SeenOk(r: Raft, p: nat, term: nat, lease: Lease, seen: nat) {
    && Leads(r, p, term)
    && 0 < seen && InState(r, lease, seen)
    && term <= r.committed[seen - 1].term
  }

  ghost predicate RenewalsOk(r: Raft, p: nat, x: Proc) {
    && (forall k :: k in x.lookups ==> SeenOk(r, p, k.term, k.lease, k.seen))
    && (forall k :: k in x.readings ==> SeenOk(r, p, k.term, k.lease, k.seen) && k.at <= r.now)
    && x.acked <= x.recorded <= x.readings
  }

  predicate Lapsed(r: Raft, k: Renewal) {
    k.at + k.lease.ttl <= r.now
  }

  /** A renewal recorded in the current term still counts towards the deadline, or has run out. */
  ghost predicate RecordedOk(r: Raft, p: nat, x: Proc)
    requires p in r.offset
  {
    forall k :: k in x.recorded ==>
      && k.term <= x.tracker.term
      && (k.term == x.tracker.term && k.term in r.active ==>
            || (k.lease.leaseID in x.tracker.renewedAt && k.at + r.offset[p] <= x.tracker.renewedAt[k.lease.leaseID])
            || Lapsed(r, k))
  }

  ghost predicate ClaimOk(r: Raft, p: nat, x: Proc, c: Claim) {
    && p in r.offset && Leads(r, p, c.term) && c.term in r.wonAt
    && c.term <= x.tracker.term
    && InState(r, c.lease, c.seen)
    && (c.term == x.tracker.term ==> DeadlineOf(x.tracker, c.lease) <= c.at + r.offset[p])
  }

  ghost predicate PendingOk(r: Raft, p: nat, x: Proc) {
    forall c :: c in x.pending ==>
      && ClaimOk(r, p, x, c)
      && c.seen <= x.applied
      && c.at <= r.now
      && r.wonAt[c.term] + c.lease.ttl <= c.at
      && c.lease.expiresAt <= c.at + r.offset[p]
      && (c.term == x.tracker.term ==> c.lease.leaseID in x.tracker.expiring)
  }

  /** The pending claims come from one pass, one per lease. */
  ghost predicate OnePass(x: Proc) {
    forall c, d :: c in x.pending && d in x.pending ==>
      c.term == d.term && (c.lease.leaseID == d.lease.leaseID ==> c == d)
  }

  /** While a claim is pending, every renewal of the lease recorded in its term has run out. */
  ghost predicate PendingLapsed(r: Raft, x: Proc) {
    forall c, k ::
      && c in x.pending && k in x.recorded && c.term in r.active
      && k.term == c.term && k.lease.leaseID == c.lease.leaseID
      ==> Lapsed(r, k)
  }

  ghost predicate FinishedOk(r: Raft, p: nat, x: Proc) {
    forall c :: c in x.finished ==> ClaimOk(r, p, x, c)
  }

  ghost predicate Accounted(x: Proc, term: nat, id: nat) {
    || (exists c :: c in x.pending && c.appended && c.term == term && c.lease.leaseID == id)
    || (exists c :: c in x.finished && c.term == term && c.lease.leaseID == id)
  }

  /** Every expiry this process appended in a term it leads is a claim of its own, made after the renewals ran out. */
  ghost predicate OwnExpiriesOk(r: Raft, p: nat, x: Proc) {
    forall t, e ::
      t in r.active && t in r.logs && Leads(r, p, t) && e in r.logs[t] && e.term == t && IsExpiry(e) ==>
        && Accounted(x, t, e.data.cmd.leaseID)
        && RanOutBy(x.recorded, t, e)
  }

  ghost predicate RanOutBy(renewals: set<Renewal>, term: nat, e: Entry)
    requires IsExpiry(e)
  {
    forall k :: k in renewals && k.term == term && k.lease.leaseID == e.data.cmd.leaseID ==> k.at + k.lease.ttl <= e.at
  }

  ghost predicate AckedOk(r: Raft, x: Proc) {
    && (forall k, t :: k in x.acked && t in r.wonAt && k.term < t ==> k.at <= r.wonAt[t])
    && (forall k, e ::
          k in x.acked && k.term in r.logs && e in r.logs[k.term] && e.term == k.term && Expires(e, k.lease.leaseID)
          ==> k.at + k.lease.ttl <= e.at)
  }

  ghost predicate ProcOk(r: Raft, p: nat, x: Proc) {
    && TrackerOk(r, p, x)
    && AppliedOk(r, p, x)
    && RenewalsOk(r, p, x)
    && RecordedOk(r, p, x)
    && PendingOk(r, p, x)
    && OnePass(x)
    && PendingLapsed(r, x)
    && FinishedOk(r, p, x)
    && OwnExpiriesOk(r, p, x)
    && AckedOk(r, x)
  }

  ghost predicate Inv(s: Sys) {
    && RaftOk(s.raft)
    && s.procs.Keys == s.raft.offset.Keys
    && (forall p :: p in s.procs ==> ProcOk(s.raft, p, s.procs[p]))
  }

  // ------------------------------------------------------------ the theorems

  /** The lease of an acknowledged renewal, read off any committed prefix since its lookup. */
  ghost predicate AliveSince(r: Raft, id: nat, seen: nat) {
    forall n :: seen <= n <= |r.committed| ==> id in Replay(r.committed[..n]).leases
  }

  /** Every acknowledged renewal keeps its lease, on every replica, for one TTL after it was recorded. */
  ghost predicate RenewalsHonoured(s: Sys) {
    forall p, k :: p in s.procs && k in s.procs[p].acked && s.raft.now < k.at + k.lease.ttl ==>
      AliveSince(s.raft, k.lease.leaseID, k.seen)
  }

  /** An expiry committed after an acknowledged renewal's lookup was proposed at least one TTL after the renewal. */
  lemma ExpiryIsLate(r: Raft, p: nat, x: Proc, k: Renewal, i: nat)
    requires RaftOk(r) && ProcOk(r, p, x) && k in x.acked
    requires k.seen <= i < |r.committed| && Expires(r.committed[i], k.lease.leaseID)
    ensures k.at + k.lease.ttl <= r.now
  {
    var e := r.committed[i];
    assert SeenOk(r, p, k.term, k.lease, k.seen);
    assert Ordered(r, r.committed) && EntryOk(r, e);
    assert k.term <= r.committed[k.seen - 1].term <= e.term;
    if k.term < e.term {
      SameRecord(r.committed, k.seen, e.seen, k.lease.leaseID);
    } else {
      assert e in r.logs[e.term];
    }
  }

  lemma AckedStaysAlive(r: Raft, p: nat, x: Proc, k: Renewal)
    requires RaftOk(r) && ProcOk(r, p, x) && k in x.acked
    requires r.now < k.at + k.lease.ttl
    ensures AliveSince(r, k.lease.leaseID, k.seen)
  {
    assert SeenOk(r, p, k.term, k.lease, k.seen);
    forall i | k.seen <= i < |r.committed| ensures !Expires(r.committed[i], k.lease.leaseID) {
      if Expires(r.committed[i], k.lease.leaseID) {
        ExpiryIsLate(r, p, x, k, i);
      }
    }
    forall n | k.seen <= n <= |r.committed| ensures k.lease.leaseID in Replay(r.committed[..n]).leases {
      LeaseStays(r.committed, k.seen, n, k.lease.leaseID);
    }
  }

  lemma InvHonoursRenewals(s: Sys)
    requires Inv(s)
    ensures RenewalsHonoured(s)
  {
    forall p, k | p in s.procs && k in s.procs[p].acked && s.raft.now < k.at + k.lease.ttl
      ensures AliveSince(s.raft, k.lease.leaseID, k.seen)
    {
      AckedStaysAlive(s.raft, p, s.procs[p], k);
    }
  }

  /** The lease an accepted create at index `i` issues, and the real time its leader read for it. */
  ghost predicate Creates(r: Raft, i: nat, id: nat, lease: Lease, readAt: int) {
    && i < |r.committed| && IsCreate(r.committed[i])
    && r.committed[i].term in r.leader && r.leader[r.committed[i].term] in r.offset
    && readAt == r.committed[i].data.cmd.createdAt - r.offset[r.leader[r.committed[i].term]]
    && id == Replay(r.committed[..i]).nextLeaseID
    && id in Replay(r.committed[..i + 1]).leases && lease == Replay(r.committed[..i + 1]).leases[id]
  }

  /** Every created lease stays, on every replica, for one TTL after the clock reading it was created with. */
  ghost predicate CreationsHonoured(s: Sys) {
    forall i: nat, id: nat, lease: Lease, readAt ::
      Creates(s.raft, i, id, lease, readAt) && s.raft.now < readAt + lease.ttl ==> AliveSince(s.raft, id, i + 1)
  }

  lemma CreatedRecord(s: State, cmd: Command)
    requires cmd.CreateLease? && Sound(s) && s.nextLeaseID in Step(s, cmd).0.leases
    ensures Step(s, cmd).0.leases[s.nextLeaseID].expiresAt == cmd.createdAt + cmd.ttlNanos
    ensures Step(s, cmd).0.leases[s.nextLeaseID].ttl == cmd.ttlNanos
  {
  }

  lemma CreationExpiryIsLate(r: Raft, i: nat, id: nat, lease: Lease, readAt: int, j: nat)
    requires RaftOk(r) && Creates(r, i, id, lease, readAt)
    requires i < j < |r.committed| && Expires(r.committed[j], id)
    ensures readAt + lease.ttl <= r.now
  {
    var create, e := r.committed[i], r.committed[j];
    assert Ordered(r, r.committed) && EntryOk(r, e) && EntryOk(r, create);
    SameRecord(r.committed, i + 1, e.seen, id);
    ReplayNext(r.committed, i);
    ReplaySound(r.committed[..i]);
    CreatedRecord(Replay(r.committed[..i]), create.data.cmd);
  }

  lemma CreatedStaysAlive(r: Raft, i: nat, id: nat, lease: Lease, readAt: int)
    requires RaftOk(r) && Creates(r, i, id, lease, readAt)
    requires r.now < readAt + lease.ttl
    ensures AliveSince(r, id, i + 1)
  {
    hide RaftOk;
    forall j | i + 1 <= j < |r.committed| ensures !Expires(r.committed[j], id) {
      if Expires(r.committed[j], id) {
        CreationExpiryIsLate(r, i, id, lease, readAt, j);
      }
    }
    forall n | i + 1 <= n <= |r.committed| ensures id in Replay(r.committed[..n]).leases {
      LeaseStays(r.committed, i + 1, n, id);
    }
  }

  lemma InvHonoursCreations(s: Sys)
    requires Inv(s)
    ensures CreationsHonoured(s)
  {
    hide RaftOk, ProcOk, Creates, AliveSince;
    forall i: nat, id: nat, lease: Lease, readAt |
      Creates(s.raft, i, id, lease, readAt) && s.raft.now < readAt + lease.ttl
      ensures AliveSince(s.raft, id, i + 1)
    {
      CreatedStaysAlive(s.raft, i, id, lease, readAt);
    }
  }
}
