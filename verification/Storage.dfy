/**
 Opening a data directory, with the migration of a legacy BoltDB store to a
 write-ahead log. An operation on the directory is atomic and durable; between
 any two of them, and inside a recursive removal or a copy, the process may stop,
 by a crash or by an error it returns.
 */
module Storage {
  import opened Domain

  /** A Raft store: its log, and the three keys Raft keeps in its stable store. */
  datatype Store = Store(
    log: seq<string>,
    currentTerm: Option<nat>,
    lastVoteTerm: Option<nat>,
    lastVoteCand: Option<string>)

  const EMPTY := Store([], None, None, None)

  /** The directory: `raft.db`, `wal`, `wal.migrating` and `raft.db.migrated`. */
  class DataDir {
    var bolt: Option<Store>
    var wal: Option<Store>
    var scratch: Option<Store>
    var migrated: Option<Store>

    constructor (legacy: Option<Store>)
      ensures bolt == legacy && wal == None && scratch == None && migrated == None
    {
      bolt, wal, scratch, migrated := legacy, None, None, None;
    }

    /**
     Whether the directory holds Raft state in either format; None when looking
     fails, as it may for either entry. The WAL is looked for first.
     */
    method HasRaftData(walFails: bool, boltFails: bool) returns (found: Option<bool>)
      ensures found == Some(true) ==> wal.Some? || bolt.Some?
      ensures found == Some(false) ==> wal.None? && bolt.None?
      ensures found.None? <==> walFails || (boltFails && wal.None?)
    {
      var entries, fails := [wal, bolt], [walFails, boltFails];
      for i := 0 to |entries|
        invariant forall j :: 0 <= j < i ==> entries[j].None? && !fails[j]
      {
        if fails[i] {
          return None;
        }
        if entries[i].Some? {
          assert i == 1 ==> entries[0].None? && !fails[0];
          return Some(true);
        }
      }
      assert entries[0].None? && entries[1].None? && !fails[0] && !fails[1];
      found := Some(false);
    }

    /** Copies the log entry by entry; `budget` operations happen before the process stops. */
    method CopyLogs(src: Store, budget: nat) returns (left: nat, done: bool)
      requires scratch == Some(EMPTY)
      modifies this`scratch
      ensures scratch.Some?
      ensures done ==> scratch == Some(EMPTY.(log := src.log))
      ensures |src.log| <= budget ==> done && left == budget - |src.log|
    {
      left, done := budget, false;
      for i := 0 to |src.log|
        invariant scratch == Some(EMPTY.(log := src.log[..i]))
        invariant left == budget - i
      {
        if left == 0 {
          return;
        }
        left := left - 1;
        assert src.log[..i + 1] == src.log[..i] + [src.log[i]];
        scratch := Some(scratch.value.(log := scratch.value.log + [src.log[i]]));
      }
      assert src.log[..|src.log|] == src.log;
      done := true;
    }

    /** Copies the stable keys that are present, one at a time. */
    method CopyStable(src: Store, budget: nat) returns (left: nat, done: bool)
      requires scratch == Some(EMPTY.(log := src.log))
      modifies this`scratch
      ensures scratch.Some?
      ensures done ==> scratch == Some(src)
      ensures 3 <= budget ==> done && budget - 3 <= left
    {
      left, done := budget, false;
      if src.currentTerm.Some? {
        if left == 0 {
          return;
        }
        left := left - 1;
        scratch := Some(scratch.value.(currentTerm := src.currentTerm));
      }
      if src.lastVoteTerm.Some? {
        if left == 0 {
          return;
        }
        left := left - 1;
        scratch := Some(scratch.value.(lastVoteTerm := src.lastVoteTerm));
      }
      if src.lastVoteCand.Some? {
        if left == 0 {
          return;
        }
        left := left - 1;
        scratch := Some(scratch.value.(lastVoteCand := src.lastVoteCand));
      }
      done := true;
    }

    /** Builds the WAL in the scratch directory and renames it into place once complete. */
    method CopyBoltToWAL(budget: nat, debris: Option<Store>) returns (left: nat, done: bool)
      requires bolt.Some? && wal.None?
      modifies this`scratch, this`wal
      ensures done ==> wal == bolt
      ensures !done ==> wal.None?
      ensures |bolt.value.log| + 6 <= budget ==> done && budget - |bolt.value.log| - 6 <= left
    {
      left, done := budget, false;
      if left == 0 {
        scratch := debris; // a removal cut short leaves part of the old scratch directory
        return;
      }
      left := left - 1;
      scratch := None;
      if left == 0 {
        return;
      }
      left := left - 1;
      if scratch.None? { // a store that is already there would be opened as it is
        scratch := Some(EMPTY);
      }
      left, done := CopyLogs(bolt.value, left);
      if !done {
        return;
      }
      left, done := CopyStable(bolt.value, left);
      if !done {
        return;
      }
      if left == 0 {
        done := false;
        return;
      }
      left := left - 1;
      wal, scratch := scratch, None;
    }

    method MigrateFromBolt(budget: nat, debris: Option<Store>) returns (left: nat, done: bool)
      modifies this
      ensures old(wal).Some? ==> wal == old(wal)
      ensures old(wal).None? ==> wal.None? || wal == old(bolt)
      ensures done ==> bolt.None? && (old(bolt).Some? ==> wal.Some? && migrated == old(bolt))
      ensures !done ==> bolt == old(bolt) && bolt.Some?
      ensures old(bolt).None? ==> done && left == budget && wal == old(wal) && migrated == old(migrated)
      ensures old(bolt).Some? && |old(bolt).value.log| + 8 <= budget ==> done && 0 < left
    {
      left, done := budget, true;
      if bolt.None? {
        return;
      }
      if wal.None? {
        left, done := CopyBoltToWAL(left, debris);
        if !done {
          return;
        }
      }
      if left == 0 {
        done := false;
        return;
      }
      left := left - 1;
      migrated, bolt := bolt, None;
    }

    /**
     Opens the stores, migrating first. It stops on the way only for lack of
     `budget`: one operation per log entry and eight more always suffice.
     */
    method NewStorage(budget: nat, debris: Option<Store>) returns (isOpen: bool)
      modifies this
      ensures old(wal).Some? ==> wal == old(wal)
      ensures old(wal).None? && old(bolt).Some? ==> wal.None? || wal == old(bolt)
      ensures old(wal).None? && old(bolt).None? ==> wal.None? || wal == Some(EMPTY)
      ensures isOpen ==> wal.Some? && bolt.None?
      ensures bolt == old(bolt) || (bolt.None? && migrated == old(bolt) && wal.Some?)
      ensures old(bolt).None? ==> migrated == old(migrated)
      ensures (old(bolt).None? && 0 < budget) || (old(bolt).Some? && |old(bolt).value.log| + 8 <= budget) ==> isOpen
    {
      var left, done := MigrateFromBolt(budget, debris);
      isOpen := false;
      if !done || left == 0 {
        return;
      }
      if wal.None? {
        wal := Some(EMPTY);
      }
      isOpen := true;
    }

    /**
     Nothing of the original is lost: until a complete WAL is in place the legacy
     store is untouched, and from then on the WAL holds `expected`.
     */
    ghost predicate Intact(original: Store, expected: Store)
      reads this
    {
      || (wal.None? && bolt == Some(original) && expected == original)
      || (wal == Some(expected) && (bolt == Some(original) || (bolt.None? && migrated == Some(original))))
    }
  }

  /** One start of the process: how far it gets, and what Raft leaves in the WAL if it opens. */
  datatype Launch = Launch(budget: nat, debris: Option<Store>, written: Store)

  /**
   Any number of starts of a directory that held only a legacy store, stopped
   anywhere. `openings` are the starts that opened, in order. The first finds the
   original log and stable keys, each later one what the opening before it left;
   the backup is the original; and the directory holds Raft state at every stop.
   */
  method Launches(dir: DataDir, original: Store, starts: seq<Launch>)
    returns (openings: seq<nat>, found: seq<Store>, expected: Store)
    requires dir.bolt == Some(original) && dir.wal == None
    modifies dir
    ensures dir.Intact(original, expected)
    ensures dir.wal.Some? || dir.bolt.Some?
    ensures |openings| == |found| && forall i :: 0 <= i < |openings| ==> openings[i] < |starts|
    ensures forall i, j :: 0 <= i < j < |openings| ==> openings[i] < openings[j]
    ensures forall k :: 0 <= k < |starts| && |original.log| + 8 <= starts[k].budget ==> k in openings
    ensures found != [] ==> found[0] == original
    ensures forall i :: 0 < i < |found| ==> found[i] == starts[openings[i - 1]].written
    ensures expected == if found == [] then original else starts[openings[|found| - 1]].written
    ensures found != [] ==> dir.migrated == Some(original) && dir.bolt.None?
  {
    openings, found, expected := [], [], original;
    for k := 0 to |starts|
      invariant dir.Intact(original, expected)
      invariant |openings| == |found| && forall i :: 0 <= i < |openings| ==> openings[i] < k
      invariant forall i, j :: 0 <= i < j < |openings| ==> openings[i] < openings[j]
      invariant forall j :: 0 <= j < k && |original.log| + 8 <= starts[j].budget ==> j in openings
      invariant expected == if found == [] then original else starts[openings[|found| - 1]].written
      invariant found != [] ==> found[0] == original
      invariant found != [] ==> dir.wal.Some? && dir.migrated == Some(original) && dir.bolt.None?
      invariant forall i :: 0 < i < |found| ==> found[i] == starts[openings[i - 1]].written
    {
      var isOpen := dir.NewStorage(starts[k].budget, starts[k].debris);
      assert dir.Intact(original, expected);
      if isOpen {
        openings, found := openings + [k], found + [dir.wal.value];
        dir.wal, expected := Some(starts[k].written), starts[k].written;
      }
    }
  }
}
