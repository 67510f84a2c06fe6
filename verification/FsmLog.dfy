/**
 Facts about whole command logs: the ownership invariant, fencing tokens and
 lease IDs over every log, and what retried commands do.
 */
module FsmLog {
  import opened Fsm

  /** The state after a log, from the empty state machine. */
  function Run(log: seq<Command>): State {
    if log == [] then INIT else Step(Run(log[..|log| - 1]), log[|log| - 1]).0
  }

  /** The answer to the i-th command of a log. */
  function Answer(log: seq<Command>, i: nat): Response
    requires i < |log|
  {
    Step(Run(log[..i]), log[i]).1
  }

  lemma RunNext(log: seq<Command>, i: nat)
    requires i < |log|
    ensures Run(log[..i + 1]) == Step(Run(log[..i]), log[i]).0
  {
    assert log[..i + 1][..i] == log[..i];
  }

  // ---------------------------------------------------------------- ownership

  ghost predicate LocksOwned(s: State) {
    forall n :: n in s.locks ==>
      && s.locks[n].name == n
      && s.locks[n].leaseID in s.leases
      && s.leases[s.locks[n].leaseID].ownerID == s.locks[n].ownerID
      && 1 <= s.locks[n].fencingToken <= s.fencingCounter
  }

  ghost predicate TokensDistinct(s: State) {
    forall m, n :: m in s.locks && n in s.locks && m != n ==> s.locks[m].fencingToken != s.locks[n].fencingToken
  }

  ghost predicate LeasesSound(s: State) {
    && 1 <= s.nextLeaseID
    && forall id :: id in s.leases ==>
         && s.leases[id].leaseID == id
         && 1 <= id < s.nextLeaseID
         && 0 < s.leases[id].ttl
         && 0 < s.leases[id].expiresAt
  }

  ghost predicate EndpointsSound(s: State) {
    forall n :: n in s.endpoints ==> n != "" && s.endpoints[n] != ""
  }

  ghost predicate Sound(s: State) {
    LocksOwned(s) && TokensDistinct(s) && LeasesSound(s) && EndpointsSound(s)
  }

  lemma StepKeepsLocksOwned(s: State, cmd: Command)
    requires LocksOwned(s) && LeasesSound(s)
    ensures LocksOwned(Step(s, cmd).0)
  {
  }

  lemma StepKeepsTokens(s: State, cmd: Command)
    requires LocksOwned(s) && TokensDistinct(s)
    ensures TokensDistinct(Step(s, cmd).0)
  {
  }

  lemma StepKeepsSound(s: State, cmd: Command)
    requires Sound(s)
    ensures Sound(Step(s, cmd).0)
  {
    hide LocksOwned, TokensDistinct;
    StepKeepsLocksOwned(s, cmd);
    StepKeepsTokens(s, cmd);
  }

  /** Every reachable state satisfies the ownership invariant. */
  lemma {:induction false} ReachableSound(log: seq<Command>)
    ensures Sound(Run(log))
  {
    if log != [] {
      ReachableSound(log[..|log| - 1]);
      StepKeepsSound(Run(log[..|log| - 1]), log[|log| - 1]);
    }
  }

  /** Neither counter can pass the log's length, so uint64 counters do not wrap on shorter logs. */
  lemma {:induction false} CountersBounded(log: seq<Command>)
    ensures Run(log).fencingCounter <= |log| && Run(log).nextLeaseID <= |log| + 1
  {
    if log != [] {
      CountersBounded(log[..|log| - 1]);
    }
  }

  // ------------------------------------------------------------ fencing tokens

  /** Tokens seen in a log's answers, in order of first appearance. */
  function FreshTokens(log: seq<Command>): seq<nat> {
    if log == [] then [] else
    var earlier := FreshTokens(log[..|log| - 1]);
    var answer := Answer(log, |log| - 1);
    if answer.LockAcquired? && answer.fencingToken !in earlier then earlier + [answer.fencingToken] else earlier
  }

  /** The fresh tokens of any log are exactly 1, 2, ..., counter, in log order. */
  lemma {:induction false} FreshTokensCount(log: seq<Command>)
    ensures |FreshTokens(log)| == Run(log).fencingCounter
    ensures forall i :: 0 <= i < |FreshTokens(log)| ==> FreshTokens(log)[i] == i + 1
  {
    if log != [] {
      var before := log[..|log| - 1];
      FreshTokensCount(before);
      ReachableSound(before);
      var answer := Answer(log, |log| - 1);
      if answer.LockAcquired? && answer.fencingToken <= Run(before).fencingCounter {
        assert FreshTokens(before)[answer.fencingToken - 1] == answer.fencingToken;
      }
    }
  }

  /** Records which acquire command minted a token, at the token's first appearance. */
  function Mint(earlier: map<nat, Command>, answer: Response, cmd: Command): map<nat, Command> {
    if answer.LockAcquired? && answer.fencingToken !in earlier then earlier[answer.fencingToken := cmd] else earlier
  }

  /** The acquire command that minted each token of a log. */
  function Minted(log: seq<Command>): map<nat, Command> {
    if log == [] then map[] else Mint(Minted(log[..|log| - 1]), Answer(log, |log| - 1), log[|log| - 1])
  }

  /** Every held lock is held under the command that minted its token. */
  ghost predicate MintedMatches(s: State, minted: map<nat, Command>) {
    && (forall t :: t in minted <==> 1 <= t <= s.fencingCounter)
    && (forall n :: n in s.locks && s.locks[n].fencingToken in minted ==>
          minted[s.locks[n].fencingToken] == AcquireLock(n, s.locks[n].ownerID, s.locks[n].leaseID))
  }

  lemma MintStep(s: State, minted: map<nat, Command>, cmd: Command)
    requires Sound(s) && MintedMatches(s, minted)
    ensures MintedMatches(Step(s, cmd).0, Mint(minted, Step(s, cmd).1, cmd))
    ensures Step(s, cmd).1.LockAcquired? ==>
              && Step(s, cmd).1.fencingToken in Mint(minted, Step(s, cmd).1, cmd)
              && Mint(minted, Step(s, cmd).1, cmd)[Step(s, cmd).1.fencingToken] == cmd
  {
  }

  lemma {:induction false} MintedSound(log: seq<Command>)
    ensures MintedMatches(Run(log), Minted(log))
  {
    if log != [] {
      var before := log[..|log| - 1];
      MintedSound(before);
      ReachableSound(before);
      MintStep(Run(before), Minted(before), log[|log| - 1]);
    }
  }

  /**
   Every answer that carries a token, first or repeated, goes to the very
   command (lock, owner and lease) that minted it.
   */
  lemma {:induction false} TokenBoundForever(log: seq<Command>, i: nat)
    requires i < |log| && Answer(log, i).LockAcquired?
    ensures Answer(log, i).fencingToken in Minted(log)
    ensures Minted(log)[Answer(log, i).fencingToken] == log[i]
  {
    var before := log[..|log| - 1];
    MintedSound(before);
    ReachableSound(before);
    MintStep(Run(before), Minted(before), log[|log| - 1]);
    if i < |log| - 1 {
      assert before[..i] == log[..i];
      TokenBoundForever(before, i);
    }
  }

  /** Two answers with one token belong to one lock, one owner and one lease. */
  lemma TokensNeverShared(log: seq<Command>, i: nat, j: nat)
    requires i < |log| && j < |log|
    requires Answer(log, i).LockAcquired? && Answer(log, j).LockAcquired?
    requires Answer(log, i).fencingToken == Answer(log, j).fencingToken
    ensures log[i] == log[j]
  {
    TokenBoundForever(log, i);
    TokenBoundForever(log, j);
  }

  // ------------------------------------------------------------------ lease IDs

  lemma StepGrowsID(s: State, cmd: Command)
    ensures s.nextLeaseID <= Step(s, cmd).0.nextLeaseID
  {
  }

  lemma {:induction false} NextLeaseIDGrows(log: seq<Command>, i: nat, j: nat)
    requires i <= j <= |log|
    ensures Run(log[..i]).nextLeaseID <= Run(log[..j]).nextLeaseID
    decreases j
  {
    hide Run, Step;
    if i < j {
      NextLeaseIDGrows(log, i, j - 1);
      RunNext(log, j - 1);
      StepGrowsID(Run(log[..j - 1]), log[j - 1]);
    }
  }

  /** Lease IDs are issued in strictly increasing order, so none is ever reused. */
  lemma LeaseIDsNeverReused(log: seq<Command>, i: nat, j: nat)
    requires i < j < |log| && Answer(log, i).LeaseCreated? && Answer(log, j).LeaseCreated?
    ensures Answer(log, i).leaseID < Answer(log, j).leaseID
  {
    RunNext(log, i);
    NextLeaseIDGrows(log, i + 1, j);
  }

  // --------------------------------------------------------------- single steps

  /** Only its own expiry removes a lease, and nothing rewrites it. */
  lemma StepKeepsLease(s: State, cmd: Command, id: nat)
    requires Sound(s) && id in s.leases && cmd != ExpireLease(id)
    ensures id in Step(s, cmd).0.leases && Step(s, cmd).0.leases[id] == s.leases[id]
  {
  }

  /** Only a release by its lease, or that lease's expiry, takes a lock away. */
  lemma StepKeepsLock(s: State, cmd: Command, name: string)
    requires name in s.locks
    requires cmd != ReleaseLock(name, s.locks[name].leaseID) && cmd != ExpireLease(s.locks[name].leaseID)
    ensures name in Step(s, cmd).0.locks && Step(s, cmd).0.locks[name] == s.locks[name]
  {
  }

  // --------------------------------------------------------------- retry safety

  lemma {:induction false} HeldThrough(log: seq<Command>, i: nat, j: nat, name: string, id: nat)
    requires i <= j <= |log|
    requires name in Run(log[..i]).locks && Run(log[..i]).locks[name].leaseID == id
    requires forall k :: i <= k < j ==> log[k] != ReleaseLock(name, id) && log[k] != ExpireLease(id)
    ensures name in Run(log[..j]).locks && Run(log[..j]).locks[name] == Run(log[..i]).locks[name]
    ensures id in Run(log[..i]).leases && id in Run(log[..j]).leases
    ensures Run(log[..j]).leases[id] == Run(log[..i]).leases[id]
    decreases j
  {
    ReachableSound(log[..i]);
    if i < j {
      HeldThrough(log, i, j - 1, name, id);
      RunNext(log, j - 1);
      ReachableSound(log[..j - 1]);
      StepKeepsLease(Run(log[..j - 1]), log[j - 1], id);
      StepKeepsLock(Run(log[..j - 1]), log[j - 1], name);
    }
  }

  /**
   A repeated acquire that already succeeded changes nothing and repeats its
   answer, whatever other commands ran in between, as long as none of them
   releases the lock by this lease or expires the lease.
   */
  lemma AcquireRetrySafe(log: seq<Command>, i: nat, j: nat)
    requires i < j < |log| && log[i].AcquireLock? && log[j] == log[i]
    requires Answer(log, i).LockAcquired?
    requires forall k :: i < k < j ==>
               log[k] != ReleaseLock(log[i].lockName, log[i].leaseID) && log[k] != ExpireLease(log[i].leaseID)
    ensures Run(log[..j + 1]) == Run(log[..j])
    ensures Answer(log, j) == Answer(log, i)
  {
    RunNext(log, i);
    RunNext(log, j);
    ReachableSound(log[..i]);
    HeldThrough(log, i + 1, j, log[i].lockName, log[i].leaseID);
  }

  /** Only an acquire by the lease itself gives it a lock. */
  lemma StepGivesNoLock(s: State, cmd: Command, name: string, id: nat)
    requires name in s.locks ==> s.locks[name].leaseID != id
    requires !(cmd.AcquireLock? && cmd.lockName == name && cmd.leaseID == id)
    ensures var s' := Step(s, cmd).0; name in s'.locks ==> s'.locks[name].leaseID != id
  {
  }

  lemma {:induction false} NotHeldThrough(log: seq<Command>, i: nat, j: nat, name: string, id: nat)
    requires i <= j <= |log|
    requires name in Run(log[..i]).locks ==> Run(log[..i]).locks[name].leaseID != id
    requires forall k :: i <= k < j ==> !(log[k].AcquireLock? && log[k].lockName == name && log[k].leaseID == id)
    ensures name in Run(log[..j]).locks ==> Run(log[..j]).locks[name].leaseID != id
    decreases j
  {
    hide Run, Step;
    if i < j {
      NotHeldThrough(log, i, j - 1, name, id);
      RunNext(log, j - 1);
      StepGivesNoLock(Run(log[..j - 1]), log[j - 1], name, id);
    }
  }

  /** A second copy of a release that succeeded changes nothing, unless its lease re-acquired in between. */
  lemma ReleaseRetrySafe(log: seq<Command>, i: nat, j: nat)
    requires i < j < |log| && log[i].ReleaseLock? && log[j] == log[i]
    requires Answer(log, i) == Done
    requires forall k :: i < k < j ==>
               !(log[k].AcquireLock? && log[k].lockName == log[i].lockName && log[k].leaseID == log[i].leaseID)
    ensures Run(log[..j + 1]) == Run(log[..j])
    ensures Answer(log, j).Failed?
  {
    RunNext(log, i);
    RunNext(log, j);
    NotHeldThrough(log, i + 1, j, log[i].lockName, log[i].leaseID);
  }
}
