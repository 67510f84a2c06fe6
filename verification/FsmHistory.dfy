/**
 What a client may conclude from answers and logs alone: when each command
 succeeds and how it fails, where the leases, locks and endpoints of a state come
 from, and which TTL an acquire answers.
 */
module FsmHistory {
  import opened Domain
  import opened Fsm
  import opened FsmLog

  // -------------------------------------------------------------------- answers

  /** When an acquire succeeds, and which of the three errors it answers otherwise. */
  lemma AcquireAnswers(s: State, name: string, ownerID: string, id: nat)
    ensures var owned := id in s.leases && s.leases[id].ownerID == ownerID;
            var free := name !in s.locks || s.locks[name].leaseID == id;
            var answer := Step(s, AcquireLock(name, ownerID, id)).1;
            && (answer.LockAcquired? <==> owned && free)
            && (answer == Failed(ErrLockAlreadyHeld) <==> owned && !free)
            && (answer == Failed(ErrNotLockOwner) <==> id in s.leases && !owned)
            && (answer == Failed(ErrLeaseNotFound) <==> id !in s.leases)
            && (answer.LockAcquired? ==> answer.leaseTTL == s.leases[id].ttl)
            && (answer.LockAcquired? && name in s.locks ==> answer.fencingToken == s.locks[name].fencingToken)
  {
  }

  /** When a release succeeds, and which of the two errors it answers otherwise. */
  lemma ReleaseAnswers(s: State, name: string, id: nat)
    ensures var answer := Step(s, ReleaseLock(name, id)).1;
            && (answer == Done <==> name in s.locks && s.locks[name].leaseID == id)
            && (answer == Failed(ErrNotLockOwner) <==> name in s.locks && s.locks[name].leaseID != id)
            && (answer == Failed(ErrLockNotFound) <==> name !in s.locks)
  {
  }

  /** When a lease is created, what it is, and which of the two errors is answered otherwise. */
  lemma CreateAnswers(s: State, ownerID: string, ttl: int64, createdAt: int64)
    ensures var (s', answer) := Step(s, CreateLease(ownerID, ttl, createdAt));
            && (answer.LeaseCreated? <==> 0 < ttl && 0 < createdAt && createdAt + ttl <= MAX_INT64)
            && (answer == Failed(ErrInvalidTimestamp) <==> 0 < ttl && createdAt <= 0)
            && (answer == Failed(ErrInvalidLeaseTTL) <==> ttl <= 0 || (0 < createdAt && MAX_INT64 < createdAt + ttl))
            && (answer.LeaseCreated? ==>
                  && answer == LeaseCreated(s.nextLeaseID, createdAt + ttl, ttl)
                  && s.nextLeaseID in s'.leases
                  && s'.leases[s.nextLeaseID] == Lease(s.nextLeaseID, ownerID, createdAt + ttl, ttl))
  {
  }

  /** An expiry always succeeds; it counts the locks that are gone, and afterwards the lease is. */
  lemma ExpireAnswers(s: State, id: nat)
    requires Sound(s)
    ensures var (s', answer) := Step(s, ExpireLease(id));
            && answer == LeaseRemoved(|s.locks| - |s'.locks|)
            && id !in s'.leases
            && (forall name :: name in s'.locks ==> s'.locks[name].leaseID != id)
  {
    var s' := Step(s, ExpireLease(id)).0;
    if id in s.leases {
      var held := HeldBy(s.locks, id);
      assert s'.locks.Keys == s.locks.Keys - held && held <= s.locks.Keys;
      assert |s.locks.Keys - held| == |s.locks.Keys| - |held|;
      assert |s.locks| == |s.locks.Keys| && |s'.locks| == |s'.locks.Keys|;
    }
  }

  /** A command that is refused, a repeated acquire and an old renewal entry change nothing. */
  lemma RefusedChangesNothing(s: State, cmd: Command)
    requires Step(s, cmd).1.Failed? || cmd.RenewLease?
    ensures Step(s, cmd).0 == s
    ensures cmd.RenewLease? ==> Step(s, cmd).1 == Done
  {
  }

  /** Endpoint commands fail only for a missing name or address, a command of no known type always. */
  lemma OtherAnswers(s: State, cmd: Command)
    ensures cmd.UpsertEndpoint? ==>
              Step(s, cmd).1 ==
              if cmd.nodeID != "" && cmd.grpcAddress != "" then Done else Failed(ErrInvalidClusterNode)
    ensures cmd.RemoveEndpoint? ==>
              Step(s, cmd).1 == if cmd.nodeID != "" then Done else Failed(ErrInvalidClusterNode)
    ensures cmd.Unspecified? <==> Step(s, cmd).1 == Failed(ErrUnknownCommand)
  {
  }

  // --------------------------------------------------------------------- leases

  /** The `i`-th command issued this very lease. */
  ghost predicate Issued(log: seq<Command>, i: int, lease: Lease) {
    && 0 <= i < |log| && log[i].CreateLease?
    && Answer(log, i) == LeaseCreated(lease.leaseID, lease.expiresAt, lease.ttl)
    && lease.ownerID == log[i].ownerID && lease.ttl == log[i].ttlNanos
    && lease.expiresAt == log[i].createdAt + log[i].ttlNanos
  }

  ghost predicate NotExpiredAfter(log: seq<Command>, i: int, id: nat) {
    forall k :: 0 <= k < |log| && i < k ==> log[k] != ExpireLease(id)
  }

  lemma AnswerOfPrefix(log: seq<Command>, i: nat)
    requires i < |log| - 1
    ensures Answer(log[..|log| - 1], i) == Answer(log, i)
  {
    assert log[..|log| - 1][..i] == log[..i];
  }

  lemma IssuedInPrefix(log: seq<Command>, i: nat, lease: Lease)
    requires i < |log| - 1
    ensures Issued(log[..|log| - 1], i, lease) <==> Issued(log, i, lease)
  {
    AnswerOfPrefix(log, i);
  }

  /** A lease is in the state after a log exactly if the log issued it and has not expired it since. */
  lemma {:induction false} LeasesExactly(log: seq<Command>, lease: Lease)
    ensures lease.leaseID in Run(log).leases && Run(log).leases[lease.leaseID] == lease <==>
            exists i :: Issued(log, i, lease) && NotExpiredAfter(log, i, lease.leaseID)
  {
    if log != [] {
      var n := |log| - 1;
      var before, cmd := log[..n], log[n];
      LeasesExactly(before, lease);
      ReachableSound(before);
      if lease.leaseID in Run(log).leases && Run(log).leases[lease.leaseID] == lease {
        LeaseWasIssued(log, lease);
      }
      if i :| Issued(log, i, lease) && NotExpiredAfter(log, i, lease.leaseID) {
        IssuedIsThere(log, i, lease);
      }
    }
  }

  lemma LeaseWasIssued(log: seq<Command>, lease: Lease)
    requires log != [] && lease.leaseID in Run(log).leases && Run(log).leases[lease.leaseID] == lease
    requires var before := log[..|log| - 1];
             lease.leaseID in Run(before).leases && Run(before).leases[lease.leaseID] == lease ==>
               exists i :: Issued(before, i, lease) && NotExpiredAfter(before, i, lease.leaseID)
    ensures exists i :: Issued(log, i, lease) && NotExpiredAfter(log, i, lease.leaseID)
  {
    var n := |log| - 1;
    var before, cmd := log[..n], log[n];
    ReachableSound(before);
    if lease.leaseID in Run(before).leases {
      assert cmd != ExpireLease(lease.leaseID);
      StepKeepsLease(Run(before), cmd, lease.leaseID);
      var i :| Issued(before, i, lease) && NotExpiredAfter(before, i, lease.leaseID);
      IssuedInPrefix(log, i, lease);
      assert NotExpiredAfter(log, i, lease.leaseID);
    } else {
      assert cmd.CreateLease?;
      assert Issued(log, n, lease) && NotExpiredAfter(log, n, lease.leaseID);
    }
  }

  lemma {:induction false} IssuedIsThere(log: seq<Command>, i: nat, lease: Lease)
    requires Issued(log, i, lease) && NotExpiredAfter(log, i, lease.leaseID)
    ensures lease.leaseID in Run(log).leases && Run(log).leases[lease.leaseID] == lease
    decreases |log|
  {
    var n := |log| - 1;
    var before := log[..n];
    ReachableSound(before);
    if i < n {
      IssuedInPrefix(log, i, lease);
      assert NotExpiredAfter(before, i, lease.leaseID) by {
        assert forall k :: 0 <= k < n ==> before[k] == log[k];
      }
      IssuedIsThere(before, i, lease);
      StepKeepsLease(Run(before), log[n], lease.leaseID);
    }
  }

  /** Every acquire that succeeds answers the TTL and belongs to the owner its lease was created with. */
  lemma AcquireAnswersCreatedTTL(log: seq<Command>, j: nat)
    requires j < |log| && Answer(log, j).LockAcquired?
    ensures log[j].AcquireLock?
    ensures exists i :: 0 <= i < j && log[i].CreateLease? && Answer(log, i).LeaseCreated?
                        && Answer(log, i).leaseID == log[j].leaseID
                        && log[i].ttlNanos == Answer(log, j).leaseTTL && log[i].ownerID == log[j].ownerID
  {
    var before := log[..j];
    var s, cmd := Run(before), log[j];
    AcquireAnswers(s, cmd.lockName, cmd.ownerID, cmd.leaseID);
    var lease := s.leases[cmd.leaseID];
    ReachableSound(before);
    LeasesExactly(before, lease);
    var i :| Issued(before, i, lease) && NotExpiredAfter(before, i, lease.leaseID);
    assert before[..i] == log[..i];
    assert Answer(before, i) == Answer(log, i);
  }

  // ---------------------------------------------------------------------- locks

  /** The `i`-th command gave the lock to the lease, or repeated that it has it. */
  ghost predicate Grants(log: seq<Command>, i: int, name: string, id: nat) {
    && 0 <= i < |log| && log[i].AcquireLock? && log[i].lockName == name && log[i].leaseID == id
    && Answer(log, i).LockAcquired?
  }

  ghost predicate NotFreedAfter(log: seq<Command>, i: int, name: string, id: nat) {
    forall k :: 0 <= k < |log| && i < k ==> log[k] != ReleaseLock(name, id) && log[k] != ExpireLease(id)
  }

  ghost predicate Held(log: seq<Command>, name: string, id: nat) {
    name in Run(log).locks && Run(log).locks[name].leaseID == id
  }

  lemma GrantsInPrefix(log: seq<Command>, i: nat, name: string, id: nat)
    requires i < |log| - 1
    ensures Grants(log[..|log| - 1], i, name, id) <==> Grants(log, i, name, id)
  {
    AnswerOfPrefix(log, i);
  }

  /** A lease holds a lock after a log exactly if the log granted it and neither release nor expiry came since. */
  lemma {:induction false} LocksExactly(log: seq<Command>, name: string, id: nat)
    ensures Held(log, name, id) <==> exists i :: Grants(log, i, name, id) && NotFreedAfter(log, i, name, id)
  {
    if log != [] {
      var before := log[..|log| - 1];
      LocksExactly(before, name, id);
      if Held(log, name, id) {
        HeldWasGranted(log, name, id);
      }
      if i :| Grants(log, i, name, id) && NotFreedAfter(log, i, name, id) {
        GrantedIsHeld(log, i, name, id);
      }
    }
  }

  /** A lock held after a command was held before it, or the command acquired it. */
  lemma HeldSince(s: State, cmd: Command, name: string, id: nat)
    requires Sound(s) && name in Step(s, cmd).0.locks && Step(s, cmd).0.locks[name].leaseID == id
    ensures || (name in s.locks && s.locks[name].leaseID == id
                && cmd != ReleaseLock(name, id) && cmd != ExpireLease(id))
            || (cmd.AcquireLock? && cmd.lockName == name && cmd.leaseID == id && Step(s, cmd).1.LockAcquired?)
  {
  }

  lemma HeldWasGranted(log: seq<Command>, name: string, id: nat)
    requires log != [] && Held(log, name, id)
    requires var before := log[..|log| - 1];
             Held(before, name, id) ==> exists i :: Grants(before, i, name, id) && NotFreedAfter(before, i, name, id)
    ensures exists i :: Grants(log, i, name, id) && NotFreedAfter(log, i, name, id)
  {
    var n := |log| - 1;
    var before, cmd := log[..n], log[n];
    ReachableSound(before);
    HeldSince(Run(before), cmd, name, id);
    hide Step, Sound;
    if Held(before, name, id) && cmd != ReleaseLock(name, id) && cmd != ExpireLease(id) {
      var i :| Grants(before, i, name, id) && NotFreedAfter(before, i, name, id);
      GrantsInPrefix(log, i, name, id);
      assert NotFreedAfter(log, i, name, id);
    } else {
      assert Grants(log, n, name, id) && NotFreedAfter(log, n, name, id);
    }
  }

  lemma {:induction false} GrantedIsHeld(log: seq<Command>, i: nat, name: string, id: nat)
    requires Grants(log, i, name, id) && NotFreedAfter(log, i, name, id)
    ensures Held(log, name, id)
    decreases |log|
  {
    var n := |log| - 1;
    var before := log[..n];
    if i < n {
      GrantsInPrefix(log, i, name, id);
      assert NotFreedAfter(before, i, name, id) by {
        assert forall k :: 0 <= k < n ==> before[k] == log[k];
      }
      GrantedIsHeld(before, i, name, id);
      StepKeepsLock(Run(before), log[n], name);
    }
  }

  // ------------------------------------------------------------------ endpoints

  /** An accepted command on the endpoint of `node`. */
  predicate Touches(cmd: Command, node: string) {
    && node != ""
    && ((cmd.UpsertEndpoint? && cmd.nodeID == node && cmd.grpcAddress != "") || cmd == RemoveEndpoint(node))
  }

  ghost predicate LastSets(log: seq<Command>, i: int, node: string, addr: string) {
    && 0 <= i < |log| && log[i] == UpsertEndpoint(node, addr) && Touches(log[i], node)
    && (forall k :: i < k < |log| ==> !Touches(log[k], node))
  }

  /** A node's endpoint after a log is what the last accepted command on it set. */
  lemma {:induction false} EndpointsExactly(log: seq<Command>, node: string, addr: string)
    ensures node in Run(log).endpoints && Run(log).endpoints[node] == addr <==> exists i :: LastSets(log, i, node, addr)
  {
    if log != [] {
      var n := |log| - 1;
      var before, cmd := log[..n], log[n];
      EndpointsExactly(before, node, addr);
      if Touches(cmd, node) {
        assert cmd == UpsertEndpoint(node, addr) ==> LastSets(log, n, node, addr);
      } else {
        if i :| LastSets(before, i, node, addr) {
          assert LastSets(log, i, node, addr);
        }
        if i :| LastSets(log, i, node, addr) {
          assert LastSets(before, i, node, addr);
        }
      }
    }
  }
}
