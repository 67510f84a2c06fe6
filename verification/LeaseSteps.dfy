/** Every event of the lease protocol keeps the invariant, so every run satisfies the theorems. */
module LeaseSteps {
  import opened Domain
  import opened Fsm
  import opened RaftLog
  import opened LeaseTracker
  import opened LeaseProtocol
  import opened LeaseSafety

  // ------------------------------------------------- what every Raft event keeps

  /** Raft only gains: time, processes, terms won and committed entries; a term once led is never led again. */
  ghost predicate Extends(r: Raft, r': Raft) {
    && r.now <= r'.now
    && (forall p :: p in r.offset ==> p in r'.offset && r'.offset[p] == r.offset[p])
    && (forall t :: t in r.leader ==> t in r'.leader && r'.leader[t] == r.leader[t])
    && (forall t :: t in r.wonAt ==> t in r'.wonAt && r'.wonAt[t] == r.wonAt[t])
    && (forall t :: t in r'.active && t in r.leader ==> t in r.active)
    && r.committed <= r'.committed
  }

  lemma PrefixKept(r: Raft, r': Raft, n: nat)
    requires Extends(r, r') && n <= |r.committed|
    ensures r'.committed[..n] == r.committed[..n]
  {
  }

  lemma InStateKept(r: Raft, r': Raft, lease: Lease, seen: nat)
    requires Extends(r, r') && InState(r, lease, seen)
    ensures InState(r', lease, seen)
  {
    PrefixKept(r, r', seen);
  }

  lemma EntryKept(r: Raft, r': Raft, e: Entry)
    requires Extends(r, r') && EntryOk(r, e)
    ensures EntryOk(r', e)
  {
    if IsExpiry(e) {
      PrefixKept(r, r', e.seen);
    }
  }

  lemma OrderKept(r: Raft, r': Raft, log: seq<Entry>)
    requires Extends(r, r') && EntriesOk(r, log) && Ordered(r, log)
    ensures EntriesOk(r', log) && Ordered(r', log)
  {
    forall i | 0 <= i < |log| ensures EntryOk(r', log[i]) {
      EntryKept(r, r', log[i]);
    }
  }

  lemma RenewalsKept(r: Raft, r': Raft, p: nat, x: Proc)
    requires Extends(r, r') && RenewalsOk(r, p, x)
    ensures RenewalsOk(r', p, x)
  {
    forall k | k in x.lookups ensures SeenOk(r', p, k.term, k.lease, k.seen) {
      assert SeenOk(r, p, k.term, k.lease, k.seen);
      InStateKept(r, r', k.lease, k.seen);
    }
    forall k | k in x.readings ensures SeenOk(r', p, k.term, k.lease, k.seen) {
      assert SeenOk(r, p, k.term, k.lease, k.seen);
      InStateKept(r, r', k.lease, k.seen);
    }
  }

  lemma ClaimsKept(r: Raft, r': Raft, p: nat, x: Proc)
    requires Extends(r, r') && PendingOk(r, p, x) && FinishedOk(r, p, x)
    ensures PendingOk(r', p, x) && FinishedOk(r', p, x)
  {
    forall c | c in x.pending + x.finished ensures ClaimOk(r', p, x, c) {
      assert ClaimOk(r, p, x, c);
      InStateKept(r, r', c.lease, c.seen);
    }
    forall c | c in x.finished ensures ClaimOk(r', p, x, c) {
      assert c in x.pending + x.finished;
    }
  }

  /** The parts of a process's invariant that no Raft event can break. */
  lemma ProcKept(r: Raft, r': Raft, p: nat, x: Proc)
    requires Extends(r, r') && KeysOk(r) && ProcOk(r, p, x)
    ensures TrackerOk(r', p, x) && RenewalsOk(r', p, x) && RecordedOk(r', p, x)
    ensures PendingOk(r', p, x) && PendingLapsed(r', x) && FinishedOk(r', p, x)
  {
    hide AppliedOk, RenewalsOk, PendingOk, FinishedOk, OwnExpiriesOk, AckedOk;
    RenewalsKept(r, r', p, x);
    RenewalTerms(r, p, x);
    ClaimsKept(r, r', p, x);
    ClaimTerms(r, p, x);
  }

  lemma RenewalTerms(r: Raft, p: nat, x: Proc)
    requires RenewalsOk(r, p, x)
    ensures forall k :: k in x.readings ==> Leads(r, p, k.term) && k.at <= r.now
    ensures forall k :: k in x.recorded ==> Leads(r, p, k.term) && k.at <= r.now
    ensures forall k :: k in x.acked ==> Leads(r, p, k.term) && k.at <= r.now
  {
    forall k | k in x.readings ensures Leads(r, p, k.term) {
      assert SeenOk(r, p, k.term, k.lease, k.seen);
    }
  }

  lemma ClaimTerms(r: Raft, p: nat, x: Proc)
    requires PendingOk(r, p, x)
    ensures forall c :: c in x.pending ==> Leads(r, p, c.term)
  {
    forall c | c in x.pending ensures Leads(r, p, c.term) {
      assert ClaimOk(r, p, x, c);
    }
  }

  // ------------------------------------------------------------- Raft events

  /** An event that leaves the logs alone. */
  ghost predicate Quiet(r: Raft, r': Raft) {
    && Extends(r, r') && r'.logs == r.logs && r'.committed == r.committed
    && r'.leader == r.leader && r'.wonAt == r.wonAt && r'.active <= r.active
  }

  lemma QuietKeepsRaft(r: Raft, r': Raft)
    requires RaftOk(r) && Quiet(r, r')
    ensures RaftOk(r')
  {
    forall t | t in r'.logs ensures LogOk(r', r'.logs[t]) && OwnLog(r', t, r'.logs[t]) {
      assert LogOk(r, r.logs[t]) && OwnLog(r, t, r.logs[t]);
      OrderKept(r, r', r.logs[t]);
    }
    OrderKept(r, r', r.committed);
  }

  lemma SameLogsKept(r: Raft, r': Raft, p: nat, x: Proc)
    requires r'.logs == r.logs && r'.leader == r.leader && r'.wonAt == r.wonAt && r'.active <= r.active
    requires OwnExpiriesOk(r, p, x) && AckedOk(r, x)
    ensures OwnExpiriesOk(r', p, x) && AckedOk(r', x)
  {
  }

  lemma QuietKeepsProc(r: Raft, r': Raft, p: nat, x: Proc)
    requires RaftOk(r) && Quiet(r, r') && ProcOk(r, p, x)
    ensures ProcOk(r', p, x)
  {
    hide LogOk, OwnLog;
    ProcKept(r, r', p, x);
    SameLogsKept(r, r', p, x);
  }

  lemma CommitKeepsRaft(r: Raft, term: nat, len: nat)
    requires RaftOk(r) && term in r.logs && |r.committed| <= len <= |r.logs[term]| && r.committed <= r.logs[term]
    ensures RaftOk(r.(committed := r.logs[term][..len]))
    ensures Extends(r, r.(committed := r.logs[term][..len]))
  {
    var r' := r.(committed := r.logs[term][..len]);
    forall t | t in r'.logs ensures LogOk(r', r'.logs[t]) && OwnLog(r', t, r'.logs[t]) {
      assert LogOk(r, r.logs[t]) && OwnLog(r, t, r.logs[t]);
      OrderKept(r, r', r.logs[t]);
    }
    PrefixLogOk(r', r'.logs[term], len);
  }

  lemma CommitKeepsProc(r: Raft, term: nat, len: nat, p: nat, x: Proc)
    requires RaftOk(r) && term in r.logs && |r.committed| <= len <= |r.logs[term]| && r.committed <= r.logs[term]
    requires ProcOk(r, p, x)
    ensures ProcOk(r.(committed := r.logs[term][..len]), p, x)
  {
    hide LogOk, OwnLog;
    var r' := r.(committed := r.logs[term][..len]);
    ProcKept(r, r', p, x);
    SameLogsKept(r, r', p, x);
    CommitKeepsApplied(r, r', p, x);
  }

  lemma CommitKeepsApplied(r: Raft, r': Raft, p: nat, x: Proc)
    requires Extends(r, r') && r'.logs == r.logs && r'.leader == r.leader && r'.active == r.active
    requires AppliedOk(r, p, x)
    ensures AppliedOk(r', p, x)
  {
    PrefixKept(r, r', x.applied);
  }

  lemma PrefixLogOk(r: Raft, log: seq<Entry>, len: nat)
    requires LogOk(r, log) && len <= |log|
    ensures LogOk(r, log[..len])
  {
    var short := log[..len];
    forall i | 0 <= i < len && IsExpiry(short[i]) ensures short[i].data.cmd.leaseID < Replay(short[..i]).nextLeaseID {
      assert short[..i] == log[..i];
    }
  }

  /** Appending one entry to the log of an active term. */
  lemma AppendKeepsRaft(r: Raft, term: nat, e: Entry)
    requires RaftOk(r) && term in r.active && term in r.logs
    requires e.term == term && e.at == r.now && EntryOk(r, e)
    requires IsExpiry(e) ==> e.data.cmd.leaseID < Replay(r.logs[term]).nextLeaseID
    ensures RaftOk(Append(r, term, e))
    ensures Extends(r, Append(r, term, e))
  {
    var r' := Append(r, term, e);
    forall t | t in r'.logs ensures LogOk(r', r'.logs[t]) && OwnLog(r', t, r'.logs[t]) {
      assert LogOk(r, r.logs[t]) && OwnLog(r, t, r.logs[t]);
      OrderKept(r, r', r.logs[t]);
      assert Traceable(r', r.logs[t]) by { TraceableKept(r, term, e, r.logs[t]); }
      if t == term {
        SnocLogOk(r', r.logs[t], e);
      }
    }
    OrderKept(r, r', r.committed);
    TraceableKept(r, term, e, r.committed);
  }

  lemma TraceableKept(r: Raft, term: nat, e: Entry, log: seq<Entry>)
    requires term in r.logs && Traceable(r, log)
    ensures Traceable(Append(r, term, e), log)
  {
  }

  lemma SnocLogOk(r: Raft, log: seq<Entry>, e: Entry)
    requires LogOk(r, log) && OwnLog(r, e.term, log) && EntryOk(r, e)
    requires e.term in r.logs && e in r.logs[e.term]
    requires IsExpiry(e) ==> e.data.cmd.leaseID < Replay(log).nextLeaseID
    ensures LogOk(r, log + [e]) && OwnLog(r, e.term, log + [e])
  {
    var long := log + [e];
    forall i | 0 <= i < |long| && IsExpiry(long[i]) ensures long[i].data.cmd.leaseID < Replay(long[..i]).nextLeaseID {
      assert long[..i] == log[..i];
      assert log[..|log|] == log;
    }
  }

  lemma AppendKeepsApplied(r: Raft, term: nat, e: Entry, p: nat, x: Proc)
    requires term in r.logs && AppliedOk(r, p, x)
    ensures AppliedOk(Append(r, term, e), p, x)
  {
    var r' := Append(r, term, e);
    forall t | t in r'.active && t in r'.logs && Leads(r', p, t) ensures r'.committed[..x.applied] <= r'.logs[t] {
      assert r.committed[..x.applied] <= r.logs[t];
    }
  }

  lemma AppendKeepsOwnExpiries(r: Raft, term: nat, e: Entry, p: nat, x: Proc)
    requires term in r.logs && OwnExpiriesOk(r, p, x) && (IsExpiry(e) ==> !Leads(r, p, term))
    ensures OwnExpiriesOk(Append(r, term, e), p, x)
  {
    var r' := Append(r, term, e);
    forall t, f | t in r'.active && t in r'.logs && Leads(r', p, t) && f in r'.logs[t] && f.term == t && IsExpiry(f)
      ensures Accounted(x, t, f.data.cmd.leaseID) && RanOutBy(x.recorded, t, f)
    {
      assert f in r.logs[t];
    }
  }

  lemma AppendKeepsAcked(r: Raft, term: nat, e: Entry, p: nat, x: Proc)
    requires term in r.logs && AckedOk(r, x) && (IsExpiry(e) ==> !Leads(r, p, term))
    requires forall k :: k in x.acked ==> Leads(r, p, k.term)
    ensures AckedOk(Append(r, term, e), x)
  {
    var r' := Append(r, term, e);
    forall k, f |
      k in x.acked && k.term in r'.logs && f in r'.logs[k.term] && f.term == k.term && Expires(f, k.lease.leaseID)
      ensures k.at + k.lease.ttl <= f.at
    {
      assert f in r.logs[k.term];
    }
  }

  /** An append that is no expiry of this process's own. */
  lemma AppendKeepsProc(r: Raft, term: nat, e: Entry, p: nat, x: Proc)
    requires RaftOk(r) && term in r.logs && ProcOk(r, p, x)
    requires IsExpiry(e) ==> !Leads(r, p, term)
    ensures ProcOk(Append(r, term, e), p, x)
  {
    hide LogOk, OwnLog;
    ProcKept(r, Append(r, term, e), p, x);
    RenewalTerms(r, p, x);
    AppendKeepsApplied(r, term, e, p, x);
    AppendKeepsOwnExpiries(r, term, e, p, x);
    AppendKeepsAcked(r, term, e, p, x);
  }

  lemma WinOwnLog(r: Raft, source: nat, len: nat, term: nat)
    requires RaftOk(r) && (source in r.logs ==> source < term)
    ensures LogOk(r, Inherited(r, source, len))
    ensures forall i :: 0 <= i < |Inherited(r, source, len)| ==>
              Inherited(r, source, len)[i].term < term && Inherited(r, source, len)[i].at <= r.now
  {
    if source in r.logs && len <= |r.logs[source]| {
      var log := r.logs[source];
      assert LogOk(r, log) && OwnLog(r, source, log);
      PrefixLogOk(r, log, len);
      forall i | 0 <= i < len ensures log[i].term < term && log[i].at <= r.now {
        assert EntryOk(r, log[i]);
      }
    }
  }

  lemma WinExtends(r: Raft, e: Event)
    requires KeysOk(r) && e.Win? && e.term !in r.leader
    ensures Extends(r, ExecRaft(r, e))
  {
  }

  lemma WinKeepsKeys(r: Raft, e: Event)
    requires KeysOk(r) && e.Win? && 0 < e.term && e.term !in r.leader && e.p in r.offset
    requires forall t :: t in r.leader && r.leader[t] == e.p ==> t < e.term
    ensures KeysOk(ExecRaft(r, e))
  {
  }

  lemma WinKeepsLog(r: Raft, e: Event, log: seq<Entry>)
    requires KeysOk(r) && LogOk(r, log) && e.Win? && e.term !in r.leader
    ensures LogOk(ExecRaft(r, e), log)
  {
    var r' := ExecRaft(r, e);
    WinExtends(r, e);
    OrderKept(r, r', log);
    forall i | 0 <= i < |log| ensures log[i].term in r'.logs && log[i] in r'.logs[log[i].term] {
      assert log[i].term in r.logs;
    }
  }

  lemma WinKeepsRaft(r: Raft, procs: map<nat, Proc>, e: Event)
    requires RaftOk(r) && e.Win? && EnabledRaft(r, procs, e) && e.p in r.offset
    ensures RaftOk(ExecRaft(r, e))
  {
    var r' := ExecRaft(r, e);
    WinKeepsKeys(r, e);
    WinOwnLog(r, e.source, e.len, e.term);
    forall t | t in r'.logs ensures LogOk(r', r'.logs[t]) && OwnLog(r', t, r'.logs[t]) {
      var log := if t == e.term then Inherited(r, e.source, e.len) else r.logs[t];
      assert LogOk(r, log);
      WinKeepsLog(r, e, log);
      assert t != e.term ==> OwnLog(r, t, log);
    }
    WinKeepsLog(r, e, r.committed);
  }

  lemma WinKeepsOwnExpiries(r: Raft, e: Event, p: nat, x: Proc)
    requires KeysOk(r) && e.Win? && e.term !in r.leader && OwnExpiriesOk(r, p, x)
    requires forall f :: f in Inherited(r, e.source, e.len) ==> f.term < e.term
    ensures OwnExpiriesOk(ExecRaft(r, e), p, x)
  {
    var r' := ExecRaft(r, e);
    forall t, f | t in r'.active && t in r'.logs && Leads(r', p, t) && f in r'.logs[t] && f.term == t && IsExpiry(f)
      ensures Accounted(x, t, f.data.cmd.leaseID) && RanOutBy(x.recorded, t, f)
    {
      assert t != e.term;
      assert f in r.logs[t];
    }
  }

  lemma WinKeepsAcked(r: Raft, e: Event, p: nat, x: Proc)
    requires KeysOk(r) && e.Win? && e.term !in r.leader && AckedOk(r, x)
    requires forall k :: k in x.acked ==> Leads(r, p, k.term) && k.at <= r.now
    ensures AckedOk(ExecRaft(r, e), x)
  {
  }

  lemma WinKeepsProc(r: Raft, procs: map<nat, Proc>, e: Event, p: nat, x: Proc)
    requires RaftOk(r) && e.Win? && EnabledRaft(r, procs, e)
    requires p in procs && procs[p] == x && ProcOk(r, p, x)
    ensures ProcOk(ExecRaft(r, e), p, x)
  {
    hide LogOk, OwnLog;
    var r' := ExecRaft(r, e);
    WinExtends(r, e);
    ProcKept(r, r', p, x);
    WinOwnLog(r, e.source, e.len, e.term);
    RenewalTerms(r, p, x);
    WinKeepsOwnExpiries(r, e, p, x);
    WinKeepsAcked(r, e, p, x);
    assert AppliedOk(r', p, x);
  }

  // ---------------------------------------------------------- process events

  /** An event that touches neither the tracker nor the claims nor the recorded renewals. */
  ghost predicate SameTracking(x: Proc, x': Proc) {
    && x'.tracker == x.tracker && x'.pending == x.pending && x'.finished == x.finished
    && x'.recorded == x.recorded && x.applied <= x'.applied
  }

  lemma TrackingKept(r: Raft, p: nat, x: Proc, x': Proc)
    requires SameTracking(x, x') && ProcOk(r, p, x)
    ensures TrackerOk(r, p, x') && RecordedOk(r, p, x') && PendingLapsed(r, x') && OwnExpiriesOk(r, p, x')
    ensures PendingOk(r, p, x') && FinishedOk(r, p, x')
  {
    forall c | c in x.pending || c in x.finished ensures ClaimOk(r, p, x', c) {
      assert ClaimOk(r, p, x, c);
    }
    forall t, e | t in r.active && t in r.logs && Leads(r, p, t) && e in r.logs[t] && e.term == t && IsExpiry(e)
      ensures Accounted(x', t, e.data.cmd.leaseID)
    {
      assert Accounted(x, t, e.data.cmd.leaseID);
    }
  }

  lemma ApplyKeeps(r: Raft, p: nat, x: Proc, upTo: nat)
    requires RaftOk(r) && ProcOk(r, p, x) && EnabledProc(r, p, x, ApplyTo(p, upTo))
    ensures ProcOk(r, p, x.(applied := upTo))
  {
    hide OwnLog, EntriesOk, IssuedFirst, Traceable;
    TrackingKept(r, p, x, x.(applied := upTo));
    ApplyKeepsApplied(r, p, x, upTo);
  }

  lemma ApplyKeepsApplied(r: Raft, p: nat, x: Proc, upTo: nat)
    requires Ordered(r, r.committed) && AppliedOk(r, p, x) && EnabledProc(r, p, x, ApplyTo(p, upTo))
    ensures AppliedOk(r, p, x.(applied := upTo))
  {
    if 0 < x.applied < upTo {
      assert r.committed[x.applied - 1].term <= r.committed[upTo - 1].term;
    }
  }

  lemma BarrierKeeps(r: Raft, p: nat, x: Proc, term: nat)
    requires RaftOk(r) && ProcOk(r, p, x) && EnabledProc(r, p, x, AwaitTermApplied(p, term))
    ensures ProcOk(r, p, x.(barriers := x.barriers + {term}))
  {
    hide LogOk, OwnLog;
    TrackingKept(r, p, x, x.(barriers := x.barriers + {term}));
  }

  lemma LookUpKeeps(r: Raft, p: nat, x: Proc, term: nat, id: nat)
    requires RaftOk(r) && ProcOk(r, p, x) && EnabledProc(r, p, x, LookUp(p, term, id))
    ensures ProcOk(r, p, ExecProc(r, p, x, LookUp(p, term, id)))
  {
    hide LogOk, OwnLog;
    TrackingKept(r, p, x, ExecProc(r, p, x, LookUp(p, term, id)));
    ReplaySound(r.committed[..x.applied]);
    assert SeenOk(r, p, term, Replay(r.committed[..x.applied]).leases[id], x.applied);
  }

  lemma ReadClockKeeps(r: Raft, p: nat, x: Proc, k: Lookup)
    requires RaftOk(r) && ProcOk(r, p, x) && k in x.lookups
    ensures ProcOk(r, p, x.(readings := x.readings + {Renewal(k.term, k.lease, k.seen, r.now)}))
  {
    hide LogOk, OwnLog;
    TrackingKept(r, p, x, x.(readings := x.readings + {Renewal(k.term, k.lease, k.seen, r.now)}));
    assert SeenOk(r, p, k.term, k.lease, k.seen);
  }

  lemma VerifyKeeps(r: Raft, p: nat, x: Proc, k: Renewal)
    requires RaftOk(r) && ProcOk(r, p, x) && EnabledProc(r, p, x, VerifyLeader(p, k))
    ensures ProcOk(r, p, x.(acked := x.acked + {k}))
  {
    hide LogOk, OwnLog;
    TrackingKept(r, p, x, x.(acked := x.acked + {k}));
    VerifyKeepsAcked(r, p, x, k);
  }

  lemma VerifyKeepsAcked(r: Raft, p: nat, x: Proc, k: Renewal)
    requires KeysOk(r) && AckedOk(r, x) && OwnExpiriesOk(r, p, x)
    requires k in x.recorded && Active(r, p, k.term) && (forall t :: t in r.leader ==> t <= k.term)
    ensures AckedOk(r, x.(acked := x.acked + {k}))
  {
    forall e | e in r.logs[k.term] && e.term == k.term && Expires(e, k.lease.leaseID)
      ensures k.at + k.lease.ttl <= e.at
    {
      assert RanOutBy(x.recorded, k.term, e);
    }
  }

  lemma SyncKeeps(r: Raft, p: nat, x: Proc, term: nat, at: int)
    requires RaftOk(r) && ProcOk(r, p, x) && MayCall(r, p, x, term, at)
    ensures ProcOk(r, p, x.(tracker := Synced(x.tracker, term, at + r.offset[p])))
    ensures Synced(x.tracker, term, at + r.offset[p]).term == term
  {
    hide LogOk, OwnLog;
    var x' := x.(tracker := Synced(x.tracker, term, at + r.offset[p]));
    assert TrackerOk(r, p, x');
    assert RecordedOk(r, p, x');
    assert PendingOk(r, p, x');
    assert FinishedOk(r, p, x');
  }

  // ----------------------------------------------------------------- renewal

  /** A reading that is recorded meets no claim of its lease in its term, pending or committed. */
  lemma RenewableHasNoClaim(r: Raft, p: nat, x: Proc, k: Renewal, c: Claim)
    requires p in r.offset && PendingOk(r, p, x) && FinishedOk(r, p, x) && InState(r, k.lease, k.seen)
    requires InOrder(r, p, x, k) && x.tracker.term == k.term && Renewable(x.tracker, k.at + r.offset[p], k.lease)
    requires c in x.pending || c in x.finished
    ensures c.term != k.term || c.lease.leaseID != k.lease.leaseID
  {
    if c.term == k.term && c.lease.leaseID == k.lease.leaseID && c in x.finished {
      assert ClaimOk(r, p, x, c);
      SameRecord(r.committed, c.seen, k.seen, k.lease.leaseID);
    }
  }

  /** Recording one renewal in a tracker already in its term. */
  function Record(r: Raft, p: nat, x: Proc, k: Renewal): Proc
    requires p in r.offset
  {
    x.(tracker := x.tracker.(renewedAt := x.tracker.renewedAt[k.lease.leaseID := k.at + r.offset[p]]),
       recorded := x.recorded + {k})
  }

  lemma RecordKeepsClaims(r: Raft, p: nat, x: Proc, k: Renewal)
    requires p in r.offset && PendingOk(r, p, x) && FinishedOk(r, p, x)
    requires forall c :: c in x.pending || c in x.finished ==> c.term != k.term || c.lease.leaseID != k.lease.leaseID
    requires x.tracker.term == k.term
    ensures PendingOk(r, p, Record(r, p, x, k)) && FinishedOk(r, p, Record(r, p, x, k))
  {
    var x' := Record(r, p, x, k);
    forall c | c in x.pending || c in x.finished ensures ClaimOk(r, p, x', c) {
      assert ClaimOk(r, p, x, c);
    }
  }

  lemma RecordKeepsRecorded(r: Raft, p: nat, x: Proc, k: Renewal)
    requires p in r.offset && RecordedOk(r, p, x) && InOrder(r, p, x, k) && x.tracker.term == k.term
    ensures RecordedOk(r, p, Record(r, p, x, k))
  {
  }

  lemma RecordKeepsOwnExpiries(r: Raft, p: nat, x: Proc, k: Renewal)
    requires p in r.offset && OwnExpiriesOk(r, p, x)
    requires forall c :: c in x.pending || c in x.finished ==> c.term != k.term || c.lease.leaseID != k.lease.leaseID
    ensures OwnExpiriesOk(r, p, Record(r, p, x, k))
  {
    var x' := Record(r, p, x, k);
    forall t, e | t in r.active && t in r.logs && Leads(r, p, t) && e in r.logs[t] && e.term == t && IsExpiry(e)
      ensures Accounted(x', t, e.data.cmd.leaseID) && RanOutBy(x'.recorded, t, e)
    {
      assert Accounted(x, t, e.data.cmd.leaseID) && RanOutBy(x.recorded, t, e);
    }
  }

  lemma RecordKeeps(r: Raft, p: nat, x: Proc, k: Renewal)
    requires p in r.offset && ProcOk(r, p, x) && k in x.readings && InOrder(r, p, x, k)
    requires x.tracker.term == k.term && 0 < k.term && Renewable(x.tracker, k.at + r.offset[p], k.lease)
    ensures ProcOk(r, p, Record(r, p, x, k))
  {
    var x' := Record(r, p, x, k);
    assert SeenOk(r, p, k.term, k.lease, k.seen);
    forall c | c in x.pending || c in x.finished ensures c.term != k.term || c.lease.leaseID != k.lease.leaseID {
      RenewableHasNoClaim(r, p, x, k, c);
    }
    RecordKeepsClaims(r, p, x, k);
    RecordKeepsRecorded(r, p, x, k);
    RecordKeepsOwnExpiries(r, p, x, k);
    assert PendingLapsed(r, x');
    assert RenewalsOk(r, p, x');
    assert TrackerOk(r, p, x');
  }

  lemma RenewKeeps(r: Raft, p: nat, x: Proc, k: Renewal)
    requires RaftOk(r) && ProcOk(r, p, x) && EnabledProc(r, p, x, RecordRenewal(p, k))
    ensures ProcOk(r, p, ExecProc(r, p, x, RecordRenewal(p, k)))
  {
    hide LogOk, OwnLog, ProcOk;
    var synced := x.(tracker := Synced(x.tracker, k.term, k.at + r.offset[p]));
    SyncKeeps(r, p, x, k.term, k.at);
    if Renewable(synced.tracker, k.at + r.offset[p], k.lease) {
      assert InOrder(r, p, synced, k);
      RecordKeeps(r, p, synced, k);
      assert ExecProc(r, p, x, RecordRenewal(p, k)) == Record(r, p, synced, k);
    } else {
      assert ExecProc(r, p, x, RecordRenewal(p, k)) == synced;
    }
  }

  // ------------------------------------------------------------------ expiry

  /** An expiry pass by a tracker already in its term. */
  function Claiming(r: Raft, p: nat, x: Proc, at: int, leases: seq<Lease>, seen: nat): Proc
    requires p in r.offset
  {
    var ids := Claimed(x.tracker, at + r.offset[p], leases);
    x.(tracker := x.tracker.(expiring := x.tracker.expiring + set id | id in ids),
       pending := set l | l in leases && l.leaseID in ids :: Claim(x.tracker.term, l, seen, at, false))
  }

  /** A claimed lease is past its deadline, by creation, takeover and every recorded renewal. */
  lemma ClaimedIsLate(r: Raft, p: nat, x: Proc, at: int, leases: seq<Lease>, seen: nat, l: Lease)
    requires p in r.offset && TrackerOk(r, p, x) && 0 < x.tracker.term
    requires forall i :: 0 <= i < |leases| ==> InState(r, leases[i], seen)
    requires l in leases && l.leaseID in Claimed(x.tracker, at + r.offset[p], leases)
    ensures DeadlineOf(x.tracker, l) <= at + r.offset[p]
    ensures r.wonAt[x.tracker.term] + l.ttl <= at
    ensures l.expiresAt <= at + r.offset[p]
  {
    ClaimedExactly(x.tracker, at + r.offset[p], leases);
    var i :| 0 <= i < |leases| && leases[i].leaseID == l.leaseID && Claimable(x.tracker, at + r.offset[p], leases[i]);
    assert InState(r, leases[i], seen) && InState(r, l, seen);
  }

  lemma ClaimingKeepsPending(r: Raft, p: nat, x: Proc, at: int, leases: seq<Lease>, seen: nat)
    requires p in r.offset && TrackerOk(r, p, x) && 0 < x.tracker.term && at <= r.now && seen <= x.applied
    requires forall i :: 0 <= i < |leases| ==> InState(r, leases[i], seen)
    ensures PendingOk(r, p, Claiming(r, p, x, at, leases, seen))
  {
    var x' := Claiming(r, p, x, at, leases, seen);
    forall c | c in x'.pending
      ensures && ClaimOk(r, p, x', c) && c.seen <= x'.applied && c.at <= r.now
              && r.wonAt[c.term] + c.lease.ttl <= c.at && c.lease.expiresAt <= c.at + r.offset[p]
              && c.lease.leaseID in x'.tracker.expiring
    {
      ClaimedIsLate(r, p, x, at, leases, seen, c.lease);
      assert InState(r, c.lease, seen);
      assert DeadlineOf(x'.tracker, c.lease) == DeadlineOf(x.tracker, c.lease);
    }
  }

  lemma ClaimingKeepsLapsed(r: Raft, p: nat, x: Proc, at: int, leases: seq<Lease>, seen: nat)
    requires p in r.offset && TrackerOk(r, p, x) && 0 < x.tracker.term && at <= r.now
    requires RecordedOk(r, p, x) && RenewalsOk(r, p, x)
    requires forall i :: 0 <= i < |leases| ==> InState(r, leases[i], seen)
    ensures PendingLapsed(r, Claiming(r, p, x, at, leases, seen))
    ensures OnePass(Claiming(r, p, x, at, leases, seen))
  {
    var x' := Claiming(r, p, x, at, leases, seen);
    forall c, d | c in x'.pending && d in x'.pending && c.lease.leaseID == d.lease.leaseID ensures c == d {
      assert InState(r, c.lease, seen) && InState(r, d.lease, seen);
    }
    forall c, k | c in x'.pending && k in x'.recorded && c.term in r.active && k.term == c.term
                  && k.lease.leaseID == c.lease.leaseID
      ensures Lapsed(r, k)
    {
      ClaimedIsLate(r, p, x, at, leases, seen, c.lease);
      assert k in x.readings && SeenOk(r, p, k.term, k.lease, k.seen);
      SameRecord(r.committed, seen, k.seen, k.lease.leaseID);
    }
  }

  lemma ClaimingKeepsRest(r: Raft, p: nat, x: Proc, at: int, leases: seq<Lease>, seen: nat)
    requires p in r.offset && FinishedOk(r, p, x) && OwnExpiriesOk(r, p, x) && x.pending == {}
    ensures FinishedOk(r, p, Claiming(r, p, x, at, leases, seen))
    ensures OwnExpiriesOk(r, p, Claiming(r, p, x, at, leases, seen))
  {
    var x' := Claiming(r, p, x, at, leases, seen);
    forall c | c in x.finished ensures ClaimOk(r, p, x', c) {
      assert ClaimOk(r, p, x, c);
      assert DeadlineOf(x'.tracker, c.lease) == DeadlineOf(x.tracker, c.lease);
    }
    forall t, e | t in r.active && t in r.logs && Leads(r, p, t) && e in r.logs[t] && e.term == t && IsExpiry(e)
      ensures Accounted(x', t, e.data.cmd.leaseID)
    {
      assert Accounted(x, t, e.data.cmd.leaseID);
    }
  }

  lemma ClaimingFrame(r: Raft, p: nat, x: Proc, at: int, leases: seq<Lease>, seen: nat)
    requires TrackerOk(r, p, x) && AppliedOk(r, p, x) && RenewalsOk(r, p, x) && RecordedOk(r, p, x) && AckedOk(r, x)
    requires 0 < x.tracker.term
    ensures var x' := Claiming(r, p, x, at, leases, seen);
            TrackerOk(r, p, x') && AppliedOk(r, p, x') && RenewalsOk(r, p, x') && RecordedOk(r, p, x') && AckedOk(r, x')
  {
  }

  lemma ClaimKeeps(r: Raft, p: nat, x: Proc, e: Event)
    requires RaftOk(r) && ProcOk(r, p, x) && e.ClaimExpired? && EnabledProc(r, p, x, e)
    ensures ProcOk(r, p, ExecProc(r, p, x, e))
  {
    hide LogOk, OwnLog, TrackerOk, AppliedOk, RenewalsOk, RecordedOk;
    hide PendingOk, OnePass, PendingLapsed, FinishedOk, OwnExpiriesOk, AckedOk;
    var synced := x.(tracker := Synced(x.tracker, e.term, e.at + r.offset[p]));
    var x' := Claiming(r, p, synced, e.at, e.leases, e.seen);
    SyncKeeps(r, p, x, e.term, e.at);
    assert ExecProc(r, p, x, e) == x';
    ClaimingKeepsPending(r, p, synced, e.at, e.leases, e.seen);
    ClaimingKeepsLapsed(r, p, synced, e.at, e.leases, e.seen);
    ClaimingKeepsRest(r, p, synced, e.at, e.leases, e.seen);
    ClaimingFrame(r, p, synced, e.at, e.leases, e.seen);
  }

  /** An expiry of an earlier term that committed leaves no renewal of a later term behind. */
  lemma NoLaterRenewal(r: Raft, p: nat, x: Proc, c: Claim, k: Renewal)
    requires LogOk(r, r.committed) && RenewalsOk(r, p, x) && CommittedExpiry(r, x, c)
    requires k in x.recorded && c.term < k.term
    ensures k.lease.leaseID != c.lease.leaseID
  {
    assert k in x.readings && SeenOk(r, p, k.term, k.lease, k.seen);
    var i :| 0 <= i < x.applied && i < |r.committed| &&
             r.committed[i].term == c.term && Expires(r.committed[i], c.lease.leaseID);
    if k.lease.leaseID == c.lease.leaseID {
      assert Ordered(r, r.committed);
      ExpiredStaysOut(r.committed, i, k.seen, k.lease.leaseID);
    }
  }

  lemma FinishKeepsRecorded(r: Raft, p: nat, x: Proc, c: Claim, ok: bool)
    requires p in r.offset && LogOk(r, r.committed) && ProcOk(r, p, x) && EnabledProc(r, p, x, FinishExpiry(p, c, ok))
    ensures RecordedOk(r, p, ExecProc(r, p, x, FinishExpiry(p, c, ok)))
  {
    forall k |
      k in x.recorded && ok && k.lease.leaseID == c.lease.leaseID && k.term == x.tracker.term && k.term in r.active
      ensures Lapsed(r, k)
    {
      if c.term < k.term {
        NoLaterRenewal(r, p, x, c, k);
      }
    }
  }

  lemma FinishKeepsClaims(r: Raft, p: nat, x: Proc, c: Claim, ok: bool)
    requires p in r.offset && PendingOk(r, p, x) && FinishedOk(r, p, x) && c in x.pending
    requires OnePass(x)
    ensures PendingOk(r, p, ExecProc(r, p, x, FinishExpiry(p, c, ok)))
    ensures FinishedOk(r, p, ExecProc(r, p, x, FinishExpiry(p, c, ok)))
  {
    var x' := ExecProc(r, p, x, FinishExpiry(p, c, ok));
    forall d | d in x.pending || d in x.finished ensures ClaimOk(r, p, x', d) {
      assert ClaimOk(r, p, x, d);
      assert DeadlineOf(x'.tracker, d.lease) <= DeadlineOf(x.tracker, d.lease);
    }
  }

  lemma FinishKeepsOwnExpiries(r: Raft, p: nat, x: Proc, c: Claim, ok: bool)
    requires p in r.offset && OwnExpiriesOk(r, p, x) && EnabledProc(r, p, x, FinishExpiry(p, c, ok))
    ensures OwnExpiriesOk(r, p, ExecProc(r, p, x, FinishExpiry(p, c, ok)))
  {
    var x' := ExecProc(r, p, x, FinishExpiry(p, c, ok));
    forall t, e | t in r.active && t in r.logs && Leads(r, p, t) && e in r.logs[t] && e.term == t && IsExpiry(e)
      ensures Accounted(x', t, e.data.cmd.leaseID)
    {
      var id := e.data.cmd.leaseID;
      assert Accounted(x, t, id);
      if d :| d in x.finished && d.term == t && d.lease.leaseID == id {
        assert d in x'.finished;
      } else {
        var d :| d in x.pending && d.appended && d.term == t && d.lease.leaseID == id;
        assert d in x'.pending || d in x'.finished;
      }
    }
  }

  lemma FinishKeeps(r: Raft, p: nat, x: Proc, c: Claim, ok: bool)
    requires RaftOk(r) && ProcOk(r, p, x) && EnabledProc(r, p, x, FinishExpiry(p, c, ok))
    ensures ProcOk(r, p, ExecProc(r, p, x, FinishExpiry(p, c, ok)))
  {
    hide LogOk, OwnLog;
    FinishKeepsRecorded(r, p, x, c, ok);
    FinishKeepsClaims(r, p, x, c, ok);
    FinishKeepsOwnExpiries(r, p, x, c, ok);
    assert ClaimOk(r, p, x, c);
  }

  // --------------------------------------------------------- proposing an expiry

  function ExpiryEntry(r: Raft, c: Claim): Entry {
    Entry(c.term, Do(ExpireLease(c.lease.leaseID)), r.now, c.seen)
  }

  function Proposed(x: Proc, c: Claim): Proc {
    x.(pending := x.pending - {c} + {c.(appended := true)})
  }

  /** The lease was issued before this point of the leader's own log. */
  lemma ClaimIssued(r: Raft, p: nat, x: Proc, c: Claim)
    requires AppliedOk(r, p, x) && PendingOk(r, p, x) && c in x.pending && c.term in r.logs && Active(r, p, c.term)
    ensures c.lease.leaseID < Replay(r.logs[c.term]).nextLeaseID
  {
    var log := r.logs[c.term];
    assert ClaimOk(r, p, x, c);
    ReplaySound(r.committed[..c.seen]);
    NextIDGrows(r.committed, c.seen, x.applied);
    assert r.committed[..x.applied] == log[..x.applied];
    NextIDGrows(log, x.applied, |log|);
    assert log[..|log|] == log;
  }

  lemma ExpiryKeepsRaft(r: Raft, p: nat, x: Proc, c: Claim)
    requires RaftOk(r) && ProcOk(r, p, x) && c in x.pending && c.term in r.logs && Active(r, p, c.term)
    ensures RaftOk(Append(r, c.term, ExpiryEntry(r, c)))
  {
    var e := ExpiryEntry(r, c);
    ClaimIssued(r, p, x, c);
    assert ClaimOk(r, p, x, c);
    assert EntryOk(r, e);
    AppendKeepsRaft(r, c.term, e);
  }

  lemma ProposedKeepsClaims(r: Raft, p: nat, x: Proc, c: Claim)
    requires PendingOk(r, p, x) && OnePass(x) && PendingLapsed(r, x) && FinishedOk(r, p, x) && c in x.pending
    ensures PendingOk(r, p, Proposed(x, c)) && OnePass(Proposed(x, c)) && PendingLapsed(r, Proposed(x, c))
    ensures FinishedOk(r, p, Proposed(x, c))
  {
    var x' := Proposed(x, c);
    assert ClaimOk(r, p, x, c);
    forall d | d in x'.pending || d in x'.finished ensures ClaimOk(r, p, x', d) {
      assert d in x.pending || d in x.finished ==> ClaimOk(r, p, x, d);
    }
  }

  lemma ProposedKeepsOwnExpiries(r: Raft, p: nat, x: Proc, c: Claim)
    requires OwnExpiriesOk(r, p, x) && PendingLapsed(r, x)
    requires c in x.pending && c.term in r.logs && Active(r, p, c.term)
    ensures OwnExpiriesOk(Append(r, c.term, ExpiryEntry(r, c)), p, Proposed(x, c))
  {
    var r', x' := Append(r, c.term, ExpiryEntry(r, c)), Proposed(x, c);
    assert c.(appended := true) in x'.pending;
    forall t, e | t in r'.active && t in r'.logs && Leads(r', p, t) && e in r'.logs[t] && e.term == t && IsExpiry(e)
      ensures Accounted(x', t, e.data.cmd.leaseID) && RanOutBy(x'.recorded, t, e)
    {
      if t == c.term && e == ExpiryEntry(r, c) {
        assert RanOutBy(x.recorded, t, e);
      } else {
        assert e in r.logs[t] && Accounted(x, t, e.data.cmd.leaseID);
        if d :| d in x.pending && d.appended && d.term == t && d.lease.leaseID == e.data.cmd.leaseID {
          assert d in x'.pending;
        }
      }
    }
  }

  lemma ProposedKeepsAcked(r: Raft, p: nat, x: Proc, c: Claim)
    requires AckedOk(r, x) && PendingLapsed(r, x) && x.acked <= x.recorded
    requires c in x.pending && c.term in r.logs && Active(r, p, c.term)
    ensures AckedOk(Append(r, c.term, ExpiryEntry(r, c)), Proposed(x, c))
  {
    var r', x' := Append(r, c.term, ExpiryEntry(r, c)), Proposed(x, c);
    forall k, e |
      k in x'.acked && k.term in r'.logs && e in r'.logs[k.term] && e.term == k.term && Expires(e, k.lease.leaseID)
      ensures k.at + k.lease.ttl <= e.at
    {
      if e !in r.logs[k.term] {
        assert e == ExpiryEntry(r, c) && Lapsed(r, k);
      }
    }
  }

  lemma ProposeExpiryKeeps(r: Raft, p: nat, x: Proc, c: Claim)
    requires RaftOk(r) && ProcOk(r, p, x) && c in x.pending && c.term in r.logs && Active(r, p, c.term)
    ensures ProcOk(Append(r, c.term, ExpiryEntry(r, c)), p, Proposed(x, c))
  {
    hide LogOk, OwnLog, PendingOk, FinishedOk, OwnExpiriesOk, AckedOk;
    var r' := Append(r, c.term, ExpiryEntry(r, c));
    ProposedKeepsClaims(r, p, x, c);
    ProposedKeepsOwnExpiries(r, p, x, c);
    ProposedKeepsAcked(r, p, x, c);
    AppendKeepsApplied(r, c.term, ExpiryEntry(r, c), p, x);
    RenewalsKept(r, r', p, x);
    ClaimsKept(r, r', p, Proposed(x, c));
  }

  // ---------------------------------------------------------------- every run

  lemma NewProcOk(r: Raft, p: nat)
    requires p in r.offset && (forall t :: t in r.leader ==> r.leader[t] != p)
    ensures ProcOk(r, p, NEW_PROC)
  {
  }

  lemma FreshHasNoTerm(r: Raft, p: nat)
    requires RaftOk(r) && p !in r.offset
    ensures forall t :: t in r.leader ==> r.leader[t] != p
  {
  }

  lemma BootKeeps(s: Sys, p: nat, offset: int)
    requires Inv(s) && p !in s.procs
    ensures Inv(Exec(s, Boot(p, offset)))
  {
    hide RaftOk, ProcOk;
    var r, r' := s.raft, Exec(s, Boot(p, offset)).raft;
    QuietKeepsRaft(r, r');
    forall q | q in s.procs ensures ProcOk(r', q, s.procs[q]) {
      QuietKeepsProc(r, r', q, s.procs[q]);
    }
    FreshHasNoTerm(r, p);
    NewProcOk(r', p);
  }

  lemma ProposalOk(r: Raft, term: nat, data: Data)
    requires RaftOk(r) && EnabledRaft(r, map[], Propose(term, data))
    ensures EntryOk(r, Entry(term, data, r.now, 0))
  {
    hide LogOk, OwnLog;
  }

  lemma RaftEventKeeps(s: Sys, e: Event)
    requires Inv(s) && Enabled(s, e) && (e.Tick? || e.Win? || e.StepDown? || e.Propose? || e.Commit?)
    ensures Inv(Exec(s, e))
  {
    hide RaftOk, ProcOk;
    var r, r' := s.raft, ExecRaft(s.raft, e);
    match e {
      case Win(_, _, _, _) => WinKeepsRaft(r, s.procs, e);
      case Propose(term, data) =>
        ProposalOk(r, term, data);
        AppendKeepsRaft(r, term, Entry(term, data, r.now, 0));
      case Commit(term, len) => CommitKeepsRaft(r, term, len);
      case _ => QuietKeepsRaft(r, r');
    }
    forall p | p in s.procs ensures ProcOk(r', p, s.procs[p]) {
      var x := s.procs[p];
      match e {
        case Win(_, _, _, _) => WinKeepsProc(r, s.procs, e, p, x);
        case Propose(term, data) => AppendKeepsProc(r, term, Entry(term, data, r.now, 0), p, x);
        case Commit(term, len) => CommitKeepsProc(r, term, len, p, x);
        case _ => QuietKeepsProc(r, r', p, x);
      }
    }
  }

  lemma ProcEventKeeps(r: Raft, p: nat, x: Proc, e: Event)
    requires e.ApplyTo? || e.AwaitTermApplied? || e.LookUp? || e.ReadClock? || e.RecordRenewal? || e.VerifyLeader?
             || e.CheckAlive? || e.ClaimExpired? || e.FinishExpiry?
    requires RaftOk(r) && ProcOk(r, p, x) && e.p == p && EnabledProc(r, p, x, e)
    ensures ProcOk(r, p, ExecProc(r, p, x, e))
  {
    hide RaftOk, ProcOk;
    match e {
      case ApplyTo(_, upTo) => ApplyKeeps(r, p, x, upTo);
      case AwaitTermApplied(_, term) => BarrierKeeps(r, p, x, term);
      case LookUp(_, term, id) => LookUpKeeps(r, p, x, term, id);
      case ReadClock(_, lookup) => ReadClockKeeps(r, p, x, lookup);
      case RecordRenewal(_, reading) => RenewKeeps(r, p, x, reading);
      case VerifyLeader(_, renewal) => VerifyKeeps(r, p, x, renewal);
      case CheckAlive(_, term, at) => SyncKeeps(r, p, x, term, at);
      case ClaimExpired(_, _, _, _, _) => ClaimKeeps(r, p, x, e);
      case FinishExpiry(_, claim, ok) => FinishKeeps(r, p, x, claim, ok);
    }
  }

  lemma EventKeeps(s: Sys, e: Event)
    requires Inv(s) && Enabled(s, e)
    ensures Inv(Exec(s, e))
  {
    hide RaftOk, ProcOk;
    if e.Boot? {
      BootKeeps(s, e.p, e.offset);
    } else if e.Tick? || e.Win? || e.StepDown? || e.Propose? || e.Commit? {
      RaftEventKeeps(s, e);
    } else if e.ProposeExpiry? {
      var r, p, c := s.raft, e.p, e.claim;
      ExpiryKeepsRaft(r, p, s.procs[p], c);
      ProposeExpiryKeeps(r, p, s.procs[p], c);
      forall q | q in s.procs && q != p ensures ProcOk(Append(r, c.term, ExpiryEntry(r, c)), q, s.procs[q]) {
        AppendKeepsProc(r, c.term, ExpiryEntry(r, c), q, s.procs[q]);
      }
    } else {
      ProcEventKeeps(s.raft, e.p, s.procs[e.p], e);
    }
  }

  lemma {:induction false} RunKeeps(now: int, run: seq<Event>)
    requires Valid(Start(now), run)
    ensures Inv(After(Start(now), run))
  {
    if run != [] {
      RunKeeps(now, run[..|run| - 1]);
      EventKeeps(After(Start(now), run[..|run| - 1]), run[|run| - 1]);
    }
  }

  /**
   In every run, and hence at every instant of every run: a lease whose renewal
   was acknowledged is still in the replicated state for one TTL after the
   renewal was recorded, whichever leaders, terms and clock offsets follow.
   */
  lemma NoAckedRenewalCutShort(now: int, run: seq<Event>)
    requires Valid(Start(now), run)
    ensures RenewalsHonoured(After(Start(now), run))
  {
    RunKeeps(now, run);
    InvHonoursRenewals(After(Start(now), run));
  }

  /** The same for the TTL a lease is created with, counted from the creating leader's clock reading. */
  lemma NoCreationCutShort(now: int, run: seq<Event>)
    requires Valid(Start(now), run)
    ensures CreationsHonoured(After(Start(now), run))
  {
    RunKeeps(now, run);
    InvHonoursCreations(After(Start(now), run));
  }
}
