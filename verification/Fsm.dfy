/**
 The replicated state machine: leases, locks, endpoint metadata and the global
 fencing counter. `Step` is the transition function every log entry goes
 through; class `FSM` is the in-place implementation proved against it.
 */
module Fsm {
  import opened Domain

  datatype Command =
    | CreateLease(ownerID: string, ttlNanos: int64, createdAt: int64)
    | RenewLease(leaseID: nat)
    | AcquireLock(lockName: string, ownerID: string, leaseID: nat)
    | ReleaseLock(lockName: string, leaseID: nat)
    | ExpireLease(leaseID: nat)
    | UpsertEndpoint(nodeID: string, grpcAddress: string)
    | RemoveEndpoint(nodeID: string)
    | Unspecified

  datatype Response =
    | LeaseCreated(leaseID: nat, expiresAt: int64, ttl: int64)
    | LockAcquired(fencingToken: nat, leaseTTL: int64)
    | LeaseRemoved(locksReleased: nat)
    | Done
    | Failed(error: Error)

  datatype State = State(
    locks: map<string, Lock>,
    leases: map<nat, Lease>,
    endpoints: map<string, string>,
    fencingCounter: nat,
    nextLeaseID: nat)

  const INIT := State(map[], map[], map[], 0, 1)

  function CommandTime(unixNano: int64): (r: Option<int64>) {
    if unixNano <= 0 then None else Some(unixNano)
  }

  /** Expiry of a lease that starts at `start`; None when it would overflow int64 nanoseconds. */
  function LeaseExpiryAt(start: int64, ttl: int64): (r: Option<int64>)
    requires start > 0
    ensures r.Some? <==> 0 < ttl && start + ttl <= MAX_INT64
    ensures r.Some? ==> r.value == start + ttl
  {
    var maxExpiryNanos: int64 := MAX_INT64 - start;
    if ttl <= 0 || maxExpiryNanos <= 0 || ttl > maxExpiryNanos then None else Some(start + ttl)
  }

  function StepCreateLease(s: State, ownerID: string, ttl: int64, createdAt: int64): (State, Response) {
    if ttl <= 0 then (s, Failed(ErrInvalidLeaseTTL)) else
    var start := CommandTime(createdAt);
    if start.None? then (s, Failed(ErrInvalidTimestamp)) else
    var expiresAt := LeaseExpiryAt(start.value, ttl);
    if expiresAt.None? then (s, Failed(ErrInvalidLeaseTTL)) else
    var id := s.nextLeaseID;
    var lease := Lease(id, ownerID, expiresAt.value, ttl);
    (s.(leases := s.leases[id := lease], nextLeaseID := id + 1),
     LeaseCreated(id, expiresAt.value, ttl))
  }

  function StepAcquireLock(s: State, lockName: string, ownerID: string, leaseID: nat): (State, Response) {
    if leaseID !in s.leases then (s, Failed(ErrLeaseNotFound)) else
    var lease := s.leases[leaseID];
    if lease.ownerID != ownerID then (s, Failed(ErrNotLockOwner)) else
    if lockName in s.locks then
      if s.locks[lockName].leaseID == leaseID
      then (s, LockAcquired(s.locks[lockName].fencingToken, lease.ttl))
      else (s, Failed(ErrLockAlreadyHeld))
    else
      var token := s.fencingCounter + 1;
      var lock := Lock(lockName, ownerID, token, leaseID);
      (s.(locks := s.locks[lockName := lock], fencingCounter := token), LockAcquired(token, lease.ttl))
  }

  function StepReleaseLock(s: State, lockName: string, leaseID: nat): (State, Response) {
    if lockName !in s.locks then (s, Failed(ErrLockNotFound))
    else if s.locks[lockName].leaseID != leaseID then (s, Failed(ErrNotLockOwner))
    else (s.(locks := s.locks - {lockName}), Done)
  }

  /** The names of the locks a lease holds. */
  function HeldBy(locks: map<string, Lock>, leaseID: nat): set<string> {
    set name | name in locks && locks[name].leaseID == leaseID
  }

  function StepExpireLease(s: State, leaseID: nat): (State, Response) {
    if leaseID !in s.leases then (s, LeaseRemoved(0)) else
    var held := HeldBy(s.locks, leaseID);
    (s.(locks := s.locks - held, leases := s.leases - {leaseID}), LeaseRemoved(|held|))
  }

  function StepUpsertEndpoint(s: State, nodeID: string, grpcAddress: string): (State, Response) {
    if nodeID == "" || grpcAddress == "" then (s, Failed(ErrInvalidClusterNode))
    else (s.(endpoints := s.endpoints[nodeID := grpcAddress]), Done)
  }

  function StepRemoveEndpoint(s: State, nodeID: string): (State, Response) {
    if nodeID == "" then (s, Failed(ErrInvalidClusterNode))
    else (s.(endpoints := s.endpoints - {nodeID}), Done)
  }

  /** One committed command: the new state and the answer to its proposer. */
  function Step(s: State, cmd: Command): (State, Response) {
    match cmd
    case CreateLease(ownerID, ttl, createdAt) => StepCreateLease(s, ownerID, ttl, createdAt)
    case RenewLease(_) => (s, Done)
    case AcquireLock(lockName, ownerID, leaseID) => StepAcquireLock(s, lockName, ownerID, leaseID)
    case ReleaseLock(lockName, leaseID) => StepReleaseLock(s, lockName, leaseID)
    case ExpireLease(leaseID) => StepExpireLease(s, leaseID)
    case UpsertEndpoint(nodeID, grpcAddress) => StepUpsertEndpoint(s, nodeID, grpcAddress)
    case RemoveEndpoint(nodeID) => StepRemoveEndpoint(s, nodeID)
    case Unspecified => (s, Failed(ErrUnknownCommand))
  }

  /** Locks that were held before the command and are free after it. */
  function Freed(s: State, cmd: Command): set<string> {
    s.locks.Keys - Step(s, cmd).0.locks.Keys
  }

  /** One step of the expiry cascade: visiting `name` removes it exactly when the lease holds it. */
  lemma CascadeVisit(locks: map<string, Lock>, held: set<string>, unvisited: set<string>,
                     calls: multiset<string>, name: string)
    requires held <= locks.Keys && unvisited <= locks.Keys && name in unvisited
    ensures name !in held ==> held - (unvisited - {name}) == held - unvisited
    ensures name in held ==>
              && |held - (unvisited - {name})| == |held - unvisited| + 1
              && locks - (held - (unvisited - {name})) == locks - (held - unvisited) - {name}
              && calls + multiset(held - (unvisited - {name})) == calls + multiset(held - unvisited) + multiset{name}
  {
    if name in held {
      assert held - (unvisited - {name}) == (held - unvisited) + {name};
    } else {
      assert held - (unvisited - {name}) == held - unvisited;
    }
  }

  /** Only a release by the holding lease, or the expiry of an existing lease, frees locks. */
  lemma FreedIs(s: State, cmd: Command)
    ensures cmd.ExpireLease? && cmd.leaseID in s.leases ==> Freed(s, cmd) == HeldBy(s.locks, cmd.leaseID)
    ensures cmd.ReleaseLock? && cmd.lockName in s.locks && s.locks[cmd.lockName].leaseID == cmd.leaseID
            ==> Freed(s, cmd) == {cmd.lockName}
    ensures Freed(s, cmd) != {} ==>
              || (cmd.ExpireLease? && cmd.leaseID in s.leases)
              || (cmd.ReleaseLock? && cmd.lockName in s.locks && s.locks[cmd.lockName].leaseID == cmd.leaseID)
  {
    if cmd.ExpireLease? && cmd.leaseID in s.leases {
      var held := HeldBy(s.locks, cmd.leaseID);
      assert Step(s, cmd).0.locks.Keys == s.locks.Keys - held;
    }
  }

  /**
   The state machine as the Raft apply loop drives it: fields updated in place,
   and the lock-freed hook called once per freed lock. `hookCalls` counts the
   hook's calls per lock name; the cascade's call order is the map's own.
   */
  class FSM {
    var locks: map<string, Lock>
    var leases: map<nat, Lease>
    var endpoints: map<string, string>
    var fencingCounter: nat
    var nextLeaseID: nat
    var hookCalls: multiset<string>

    function Value(): State
      reads this
    {
      State(locks, leases, endpoints, fencingCounter, nextLeaseID)
    }

    constructor ()
      ensures Value() == INIT && hookCalls == multiset{}
    {
      locks, leases, endpoints := map[], map[], map[];
      fencingCounter, nextLeaseID := 0, 1;
      hookCalls := multiset{};
    }

    method LockFreed(lockName: string)
      modifies this`hookCalls
      ensures hookCalls == old(hookCalls) + multiset{lockName}
    {
      hookCalls := hookCalls + multiset{lockName};
    }

    method Apply(cmd: Command) returns (resp: Response)
      modifies this
      ensures (Value(), resp) == Step(old(Value()), cmd)
      ensures hookCalls == old(hookCalls) + multiset(Freed(old(Value()), cmd))
    {
      FreedIs(Value(), cmd);
      match cmd {
        case CreateLease(ownerID, ttl, createdAt) => resp := ApplyCreateLease(ownerID, ttl, createdAt);
        case RenewLease(_) => resp := Done;
        case AcquireLock(lockName, ownerID, leaseID) => resp := ApplyAcquireLock(lockName, ownerID, leaseID);
        case ReleaseLock(lockName, leaseID) => resp := ApplyReleaseLock(lockName, leaseID);
        case ExpireLease(leaseID) => resp := ApplyExpireLease(leaseID);
        case UpsertEndpoint(nodeID, grpcAddress) => resp := ApplyUpsertEndpoint(nodeID, grpcAddress);
        case RemoveEndpoint(nodeID) => resp := ApplyRemoveEndpoint(nodeID);
        case Unspecified => resp := Failed(ErrUnknownCommand);
      }
    }

    method ApplyCreateLease(ownerID: string, ttl: int64, createdAt: int64) returns (resp: Response)
      modifies this`leases, this`nextLeaseID
      ensures (Value(), resp) == StepCreateLease(old(Value()), ownerID, ttl, createdAt)
    {
      if ttl <= 0 {
        return Failed(ErrInvalidLeaseTTL);
      }
      var start := CommandTime(createdAt);
      if start.None? {
        return Failed(ErrInvalidTimestamp);
      }
      var expiresAt := LeaseExpiryAt(start.value, ttl);
      if expiresAt.None? {
        return Failed(ErrInvalidLeaseTTL);
      }
      var leaseID := nextLeaseID;
      nextLeaseID := nextLeaseID + 1;
      leases := leases[leaseID := Lease(leaseID, ownerID, expiresAt.value, ttl)];
      resp := LeaseCreated(leaseID, expiresAt.value, ttl);
    }

    method ApplyAcquireLock(lockName: string, ownerID: string, leaseID: nat) returns (resp: Response)
      modifies this`locks, this`fencingCounter
      ensures (Value(), resp) == StepAcquireLock(old(Value()), lockName, ownerID, leaseID)
    {
      if leaseID !in leases {
        return Failed(ErrLeaseNotFound);
      }
      var lease := leases[leaseID];
      if lease.ownerID != ownerID {
        return Failed(ErrNotLockOwner);
      }
      if lockName in locks {
        if locks[lockName].leaseID == leaseID {
          return LockAcquired(locks[lockName].fencingToken, lease.ttl);
        }
        return Failed(ErrLockAlreadyHeld);
      }
      fencingCounter := fencingCounter + 1;
      locks := locks[lockName := Lock(lockName, ownerID, fencingCounter, leaseID)];
      resp := LockAcquired(fencingCounter, lease.ttl);
    }

    method ApplyReleaseLock(lockName: string, leaseID: nat) returns (resp: Response)
      modifies this`locks, this`hookCalls
      ensures (Value(), resp) == StepReleaseLock(old(Value()), lockName, leaseID)
      ensures hookCalls == old(hookCalls) + multiset(Freed(old(Value()), ReleaseLock(lockName, leaseID)))
    {
      FreedIs(Value(), ReleaseLock(lockName, leaseID));
      if lockName !in locks {
        return Failed(ErrLockNotFound);
      }
      if locks[lockName].leaseID != leaseID {
        return Failed(ErrNotLockOwner);
      }
      locks := locks - {lockName};
      LockFreed(lockName);
      resp := Done;
    }

    method ApplyExpireLease(leaseID: nat) returns (resp: Response)
      modifies this`locks, this`leases, this`hookCalls
      ensures (Value(), resp) == StepExpireLease(old(Value()), leaseID)
      ensures hookCalls == old(hookCalls) + multiset(Freed(old(Value()), ExpireLease(leaseID)))
    {
      FreedIs(Value(), ExpireLease(leaseID));
      if leaseID !in leases {
        return LeaseRemoved(0);
      }
      var locksReleased := ReleaseAll(leaseID);
      leases := leases - {leaseID};
      resp := LeaseRemoved(locksReleased);
    }

    /** The cascade visits the locks in whatever order the map yields them, deleting as it goes. */
    method ReleaseAll(leaseID: nat) returns (locksReleased: nat)
      modifies this`locks, this`hookCalls
      ensures locks == old(locks) - HeldBy(old(locks), leaseID)
      ensures locksReleased == |HeldBy(old(locks), leaseID)|
      ensures hookCalls == old(hookCalls) + multiset(HeldBy(old(locks), leaseID))
    {
      locksReleased := 0;
      var unvisited := locks.Keys;
      ghost var was, calls := locks, hookCalls;
      ghost var held := HeldBy(was, leaseID);
      while unvisited != {}
        invariant unvisited <= was.Keys
        invariant locks == was - (held - unvisited)
        invariant hookCalls == calls + multiset(held - unvisited)
        invariant locksReleased == |held - unvisited|
        decreases unvisited
      {
        var lockName :| lockName in unvisited;
        CascadeVisit(was, held, unvisited, calls, lockName);
        unvisited := unvisited - {lockName};
        if locks[lockName].leaseID == leaseID {
          ReleaseOne(lockName);
          locksReleased := locksReleased + 1;
        }
      }
      assert held - unvisited == held;
    }

    method ReleaseOne(lockName: string)
      modifies this`locks, this`hookCalls
      ensures locks == old(locks) - {lockName}
      ensures hookCalls == old(hookCalls) + multiset{lockName}
    {
      locks := locks - {lockName};
      LockFreed(lockName);
    }

    method ApplyUpsertEndpoint(nodeID: string, grpcAddress: string) returns (resp: Response)
      modifies this`endpoints
      ensures (Value(), resp) == StepUpsertEndpoint(old(Value()), nodeID, grpcAddress)
    {
      if nodeID == "" || grpcAddress == "" {
        return Failed(ErrInvalidClusterNode);
      }
      endpoints := endpoints[nodeID := grpcAddress];
      resp := Done;
    }

    method ApplyRemoveEndpoint(nodeID: string) returns (resp: Response)
      modifies this`endpoints
      ensures (Value(), resp) == StepRemoveEndpoint(old(Value()), nodeID)
    {
      if nodeID == "" {
        return Failed(ErrInvalidClusterNode);
      }
      endpoints := endpoints - {nodeID};
      resp := Done;
    }

    /** A copy of every lease, in map order. */
    method Leases() returns (all: seq<Lease>)
      ensures forall l :: l in all <==> l in leases.Values
      ensures |all| == |leases|
    {
      all := [];
      var unvisited := leases.Keys;
      while unvisited != {}
        invariant unvisited <= leases.Keys
        invariant forall l :: l in all <==> exists id :: id in leases.Keys - unvisited && leases[id] == l
        invariant |all| + |unvisited| == |leases|
        decreases unvisited
      {
        var id :| id in unvisited;
        ghost var was := all;
        all := all + [leases[id]];
        unvisited := unvisited - {id};
        assert id in leases.Keys - unvisited;
        assert forall l :: l in all ==> l in was || l == leases[id];
      }
    }
  }
}
