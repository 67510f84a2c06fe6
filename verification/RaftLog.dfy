/** The replicated log as the lock service sees it, and the state it replays to. */
module RaftLog {
  import opened Fsm
  import opened FsmLog

  /** Raft's own no-op and barrier entries never reach the state machine. */
  datatype Data = Noop | Do(cmd: Command)

  /**
   `at` and `seen` are history: the instant the entry was appended, and how many
   committed entries its proposer had applied when it read what it proposes on.
   No step of the service reads either.
   */
  datatype Entry = Entry(term: nat, data: Data, at: int, seen: nat)

  predicate Expires(e: Entry, id: nat) {
    e.data == Do(ExpireLease(id))
  }

  predicate IsExpiry(e: Entry) {
    e.data.Do? && e.data.cmd.ExpireLease?
  }

  predicate IsCreate(e: Entry) {
    e.data.Do? && e.data.cmd.CreateLease?
  }

  function ApplyEntry(s: State, e: Entry): State {
    match e.data
    case Noop => s
    case Do(cmd) => Step(s, cmd).0
  }

  /** The commands of a log, without Raft's own entries. */
  function Commands(log: seq<Entry>): seq<Command> {
    if log == [] then [] else
    var e := log[|log| - 1];
    Commands(log[..|log| - 1]) + match e.data case Noop => [] case Do(cmd) => [cmd]
  }

  function Replay(log: seq<Entry>): State {
    Run(Commands(log))
  }

  lemma ReplayNext(log: seq<Entry>, i: nat)
    requires i < |log|
    ensures Replay(log[..i + 1]) == ApplyEntry(Replay(log[..i]), log[i])
  {
    var before, after := Commands(log[..i]), Commands(log[..i + 1]);
    assert log[..i + 1][..i] == log[..i];
    match log[i].data {
      case Noop => assert after == before;
      case Do(cmd) =>
        assert after == before + [cmd];
        RunNext(after, |before|);
        assert after[..|before|] == before && after[..|after|] == after;
    }
  }

  lemma ReplaySound(log: seq<Entry>)
    ensures Sound(Replay(log))
  {
    ReachableSound(Commands(log));
  }

  lemma {:induction false} CommandsPrefix(log: seq<Entry>, i: nat, j: nat)
    requires i <= j <= |log|
    ensures Commands(log[..i]) <= Commands(log[..j])
    decreases j
  {
    if i < j {
      CommandsPrefix(log, i, j - 1);
      assert log[..j][..j - 1] == log[..j - 1];
    }
  }

  lemma EntryKeepsLease(s: State, e: Entry, id: nat)
    requires Sound(s)
    ensures s.nextLeaseID <= ApplyEntry(s, e).nextLeaseID
    ensures id in s.leases && !Expires(e, id) ==>
              id in ApplyEntry(s, e).leases && ApplyEntry(s, e).leases[id] == s.leases[id]
    ensures id !in s.leases && id < s.nextLeaseID ==> id !in ApplyEntry(s, e).leases
    ensures Expires(e, id) ==> id !in ApplyEntry(s, e).leases
  {
  }

  lemma NextIDGrows(log: seq<Entry>, i: nat, j: nat)
    requires i <= j <= |log|
    ensures Replay(log[..i]).nextLeaseID <= Replay(log[..j]).nextLeaseID
  {
    var a, b := Commands(log[..i]), Commands(log[..j]);
    CommandsPrefix(log, i, j);
    NextLeaseIDGrows(b, |a|, |b|);
    assert b[..|a|] == a && b[..|b|] == b;
  }

  /** A lease stays, unchanged, until an entry expires it. */
  lemma {:induction false} LeaseStays(log: seq<Entry>, i: nat, j: nat, id: nat)
    requires i <= j <= |log| && id in Replay(log[..i]).leases
    requires forall k :: i <= k < j ==> !Expires(log[k], id)
    ensures id in Replay(log[..j]).leases && Replay(log[..j]).leases[id] == Replay(log[..i]).leases[id]
    decreases j
  {
    hide Replay, ApplyEntry;
    if i < j {
      LeaseStays(log, i, j - 1, id);
      ReplayNext(log, j - 1);
      ReplaySound(log[..j - 1]);
      EntryKeepsLease(Replay(log[..j - 1]), log[j - 1], id);
    }
  }

  /** An issued lease ID that is gone never comes back. */
  lemma {:induction false} GoneForever(log: seq<Entry>, i: nat, j: nat, id: nat)
    requires i <= j <= |log|
    requires id < Replay(log[..i]).nextLeaseID && id !in Replay(log[..i]).leases
    ensures id < Replay(log[..j]).nextLeaseID && id !in Replay(log[..j]).leases
    decreases j
  {
    hide Replay, ApplyEntry;
    if i < j {
      GoneForever(log, i, j - 1, id);
      ReplayNext(log, j - 1);
      ReplaySound(log[..j - 1]);
      EntryKeepsLease(Replay(log[..j - 1]), log[j - 1], id);
    }
  }

  /** Any two prefixes that hold a lease hold the same record of it. */
  lemma {:induction false} OneRecord(log: seq<Entry>, i: nat, j: nat, id: nat)
    requires i <= j <= |log| && id in Replay(log[..i]).leases && id in Replay(log[..j]).leases
    ensures Replay(log[..i]).leases[id] == Replay(log[..j]).leases[id]
    decreases j
  {
    hide Replay, ApplyEntry, LocksOwned, TokensDistinct, EndpointsSound;
    if i < j {
      ReplayNext(log, j - 1);
      ReplaySound(log[..j - 1]);
      ReplaySound(log[..i]);
      NextIDGrows(log, i, j - 1);
      EntryKeepsLease(Replay(log[..j - 1]), log[j - 1], id);
      OneRecord(log, i, j - 1, id);
    }
  }

  lemma SameRecord(log: seq<Entry>, i: nat, j: nat, id: nat)
    requires i <= |log| && j <= |log| && id in Replay(log[..i]).leases && id in Replay(log[..j]).leases
    ensures Replay(log[..i]).leases[id] == Replay(log[..j]).leases[id]
  {
    if i <= j { OneRecord(log, i, j, id); } else { OneRecord(log, j, i, id); }
  }

  /** A lease expired at `i`, after it was issued, is in no later state. */
  lemma ExpiredStaysOut(log: seq<Entry>, i: nat, j: nat, id: nat)
    requires i < j <= |log| && Expires(log[i], id) && id < Replay(log[..i]).nextLeaseID
    ensures id !in Replay(log[..j]).leases
  {
    hide Replay, ApplyEntry;
    ReplayNext(log, i);
    ReplaySound(log[..i]);
    EntryKeepsLease(Replay(log[..i]), log[i], id);
    NextIDGrows(log, i, i + 1);
    GoneForever(log, i + 1, j, id);
  }

  // --------------------------------------------------------------------- locks

  ghost predicate HeldAt(log: seq<Entry>, n: nat, name: string, id: nat)
    requires n <= |log|
  {
    name in Replay(log[..n]).locks && Replay(log[..n]).locks[name].leaseID == id
  }

  /** A lock stays with its lease until that lease releases it or expires. */
  lemma {:induction false} LockStays(log: seq<Entry>, i: nat, j: nat, name: string, id: nat)
    requires i <= j <= |log| && HeldAt(log, i, name, id)
    requires forall k :: i <= k < j ==> !Expires(log[k], id) && log[k].data != Do(ReleaseLock(name, id))
    ensures HeldAt(log, j, name, id)
    decreases j
  {
    if i < j {
      LockStays(log, i, j - 1, name, id);
      ReplayNext(log, j - 1);
      if log[j - 1].data.Do? {
        StepKeepsLock(Replay(log[..j - 1]), log[j - 1].data.cmd, name);
      }
    }
  }

  /** A lease that is still there was not expired since it was seen last. */
  lemma NotExpiredSince(log: seq<Entry>, i: nat, id: nat)
    requires i <= |log| && id in Replay(log[..i]).leases && id in Replay(log).leases
    ensures forall k :: i <= k < |log| ==> !Expires(log[k], id)
  {
    assert log[..|log|] == log;
    ReplaySound(log[..i]);
    forall k | i <= k < |log| ensures !Expires(log[k], id) {
      NextIDGrows(log, i, k);
      if Expires(log[k], id) {
        ExpiredStaysOut(log, k, |log|, id);
      }
    }
  }
}
