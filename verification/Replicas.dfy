/**
 Snapshots, and agreement between replicas. Each replica applies the same log,
 visits the locks of an expired lease in its own map order, and may take or
 install snapshots at any time.
 */
module Replicas {
  import opened Domain
  import opened Fsm
  import opened FsmLog

  // ------------------------------------------------------------------ snapshots

  /** A decoded snapshot: a map that is absent, or a lease that is null, is None. */
  datatype Snapshot = Snapshot(
    locks: Option<map<string, Lock>>,
    leases: Option<map<nat, Option<Lease>>>,
    endpoints: Option<map<string, string>>,
    fencingCounter: nat,
    nextLeaseID: nat)

  function LeasePointers(leases: map<nat, Lease>): map<nat, Option<Lease>> {
    map id | id in leases :: Some(leases[id])
  }

  function Snap(s: State): Snapshot {
    Snapshot(Some(s.locks), Some(LeasePointers(s.leases)), Some(s.endpoints),
             s.fencingCounter, s.nextLeaseID)
  }

  predicate LeaseAccepted(lease: Option<Lease>) {
    lease.Some? && 0 < lease.value.expiresAt && 0 < lease.value.ttl
  }

  /** Snapshots written before endpoints existed restore with none. */
  function EndpointsOf(snap: Snapshot): map<string, string> {
    if snap.endpoints.Some? then snap.endpoints.value else map[]
  }

  ghost predicate Accepted(snap: Snapshot) {
    && snap.locks.Some?
    && snap.leases.Some?
    && (forall id :: id in snap.leases.value ==> LeaseAccepted(snap.leases.value[id]))
    && (forall n :: n in EndpointsOf(snap) ==> n != "" && EndpointsOf(snap)[n] != "")
  }

  function Restored(snap: Snapshot): State
    requires snap.locks.Some? && snap.leases.Some?
    requires forall id :: id in snap.leases.value ==> snap.leases.value[id].Some?
  {
    State(snap.locks.value, map id | id in snap.leases.value :: snap.leases.value[id].value,
          EndpointsOf(snap), snap.fencingCounter, snap.nextLeaseID)
  }

  method CopyLeases(leases: map<nat, Lease>) returns (copy: map<nat, Option<Lease>>)
    ensures copy == LeasePointers(leases)
  {
    copy := map[];
    var unvisited := leases.Keys;
    while unvisited != {}
      invariant unvisited <= leases.Keys
      invariant copy == map id | id in leases && id !in unvisited :: Some(leases[id])
      decreases unvisited
    {
      var id :| id in unvisited;
      copy := copy[id := Some(leases[id])];
      unvisited := unvisited - {id};
    }
  }

  method CopyMap<V>(m: map<string, V>) returns (copy: map<string, V>)
    ensures copy == m
  {
    copy := map[];
    var unvisited := m.Keys;
    while unvisited != {}
      invariant unvisited <= m.Keys
      invariant copy == map k | k in m && k !in unvisited :: m[k]
      decreases unvisited
    {
      var k :| k in unvisited;
      copy := copy[k := m[k]];
      unvisited := unvisited - {k};
    }
  }

  method TakeSnapshot(fsm: FSM) returns (snap: Snapshot)
    ensures snap == Snap(fsm.Value())
  {
    var locks := CopyMap(fsm.locks);
    var leases := CopyLeases(fsm.leases);
    var endpoints := CopyMap(fsm.endpoints);
    snap := Snapshot(Some(locks), Some(leases), Some(endpoints), fsm.fencingCounter, fsm.nextLeaseID);
  }

  method ValidateLeases(leases: map<nat, Option<Lease>>) returns (ok: bool)
    ensures ok <==> forall id :: id in leases ==> LeaseAccepted(leases[id])
  {
    var unvisited := leases.Keys;
    while unvisited != {}
      invariant unvisited <= leases.Keys
      invariant forall id :: id in leases && id !in unvisited ==> LeaseAccepted(leases[id])
      decreases unvisited
    {
      var id :| id in unvisited;
      if leases[id].None? || leases[id].value.expiresAt <= 0 || leases[id].value.ttl <= 0 {
        return false;
      }
      unvisited := unvisited - {id};
    }
    ok := true;
  }

  method ValidateEndpoints(endpoints: map<string, string>) returns (ok: bool)
    ensures ok <==> forall n :: n in endpoints ==> n != "" && endpoints[n] != ""
  {
    var unvisited := endpoints.Keys;
    while unvisited != {}
      invariant unvisited <= endpoints.Keys
      invariant forall n :: n in endpoints && n !in unvisited ==> n != "" && endpoints[n] != ""
      decreases unvisited
    {
      var n :| n in unvisited;
      if n == "" || endpoints[n] == "" {
        return false;
      }
      unvisited := unvisited - {n};
    }
    ok := true;
  }

  method ValidateSnapshot(snap: Snapshot) returns (ok: bool)
    ensures ok <==> Accepted(snap)
  {
    if snap.locks.None? || snap.leases.None? {
      return false;
    }
    ok := ValidateLeases(snap.leases.value);
    if ok {
      ok := ValidateEndpoints(EndpointsOf(snap));
    }
  }

  /** A rejected snapshot leaves the state machine as it was. */
  method Restore(fsm: FSM, snap: Snapshot) returns (ok: bool)
    modifies fsm
    ensures ok <==> Accepted(snap)
    ensures ok ==> fsm.Value() == Restored(snap)
    ensures !ok ==> fsm.Value() == old(fsm.Value())
    ensures ok ==> forall id :: id in fsm.leases ==> 0 < fsm.leases[id].expiresAt && 0 < fsm.leases[id].ttl
    ensures ok ==> forall n :: n in fsm.endpoints ==> n != "" && fsm.endpoints[n] != ""
    ensures fsm.hookCalls == old(fsm.hookCalls)
  {
    ok := ValidateSnapshot(snap);
    if ok {
      fsm.locks := snap.locks.value;
      fsm.leases := map id | id in snap.leases.value :: snap.leases.value[id].value;
      fsm.endpoints := EndpointsOf(snap);
      fsm.fencingCounter := snap.fencingCounter;
      fsm.nextLeaseID := snap.nextLeaseID;
    }
  }

  /** A restored state has the snapshot's locks, leases and counters; without endpoints in it, there are none. */
  lemma RestoresWhatIsThere(snap: Snapshot)
    requires Accepted(snap)
    ensures var s := Restored(snap);
            && Some(s.locks) == snap.locks && Some(LeasePointers(s.leases)) == snap.leases
            && s.fencingCounter == snap.fencingCounter && s.nextLeaseID == snap.nextLeaseID
            && (snap.endpoints.Some? ==> s.endpoints == snap.endpoints.value)
            && (snap.endpoints.None? ==> s.endpoints == map[])
  {
    var s := Restored(snap);
    assert LeasePointers(s.leases).Keys == snap.leases.value.Keys;
    forall id | id in snap.leases.value ensures LeasePointers(s.leases)[id] == snap.leases.value[id] {
      assert LeaseAccepted(snap.leases.value[id]);
    }
    assert LeasePointers(s.leases) == snap.leases.value;
  }

  ghost predicate NullLease(leases: map<nat, Option<Lease>>, id: nat) {
    id in leases && leases[id] == None
  }

  ghost predicate DeadLease(leases: map<nat, Option<Lease>>, id: nat) {
    id in leases && leases[id].Some? && (leases[id].value.expiresAt <= 0 || leases[id].value.ttl <= 0)
  }

  ghost predicate EmptyEndpoint(endpoints: map<string, string>, n: string) {
    n in endpoints && (n == "" || endpoints[n] == "")
  }

  /** The five ways a snapshot is refused, and no other. */
  lemma RefusedExactly(snap: Snapshot)
    ensures !Accepted(snap) <==>
            || snap.locks == None
            || snap.leases == None
            || (exists id :: NullLease(snap.leases.value, id))
            || (exists id :: DeadLease(snap.leases.value, id))
            || (snap.endpoints.Some? && exists n :: EmptyEndpoint(snap.endpoints.value, n))
  {
    if snap.locks.Some? && snap.leases.Some? {
      if Accepted(snap) {
        forall id: nat ensures !NullLease(snap.leases.value, id) {
          assert id in snap.leases.value ==> LeaseAccepted(snap.leases.value[id]);
        }
        forall id: nat ensures !DeadLease(snap.leases.value, id) {
          assert id in snap.leases.value ==> LeaseAccepted(snap.leases.value[id]);
        }
        if snap.endpoints.Some? {
          forall n ensures !EmptyEndpoint(snap.endpoints.value, n) {
            assert n in snap.endpoints.value ==> n in EndpointsOf(snap);
          }
        }
      } else if id :| id in snap.leases.value && !LeaseAccepted(snap.leases.value[id]) {
        assert NullLease(snap.leases.value, id) || DeadLease(snap.leases.value, id);
      } else {
        var n :| n in EndpointsOf(snap) && (n == "" || EndpointsOf(snap)[n] == "");
        assert EmptyEndpoint(snap.endpoints.value, n);
      }
    }
  }

  /** A snapshot of any reachable state is accepted and restores exactly that state. */
  lemma SnapshotRoundTrip(log: seq<Command>)
    ensures Accepted(Snap(Run(log)))
    ensures Restored(Snap(Run(log))) == Run(log)
  {
    ReachableSound(log);
    SoundRoundTrip(Run(log));
  }

  lemma SoundRoundTrip(s: State)
    requires Sound(s)
    ensures Accepted(Snap(s)) && Restored(Snap(s)) == s
  {
    assert (map id | id in s.leases :: Snap(s).leases.value[id].value) == s.leases;
  }

  // --------------------------------------------------------------- map order

  /** The expiry cascade over the locks in the order `order` visits them. */
  function Cascade(locks: map<string, Lock>, id: nat, order: seq<string>): (map<string, Lock>, nat) {
    if order == [] then (locks, 0) else
    var (rest, n) := Cascade(locks, id, order[..|order| - 1]);
    var name := order[|order| - 1];
    if name in rest && rest[name].leaseID == id then (rest - {name}, n + 1) else (rest, n)
  }

  lemma {:induction false} CascadeVisits(locks: map<string, Lock>, id: nat, order: seq<string>)
    ensures var visited := set name | name in order;
            && Cascade(locks, id, order).0 == locks - (HeldBy(locks, id) * visited)
            && Cascade(locks, id, order).1 == |HeldBy(locks, id) * visited|
  {
    if order != [] {
      var before, name := order[..|order| - 1], order[|order| - 1];
      CascadeVisits(locks, id, before);
      var held, seen := HeldBy(locks, id), set n | n in before;
      assert (set n | n in order) == seen + {name} by {
        assert order == before + [name];
      }
      CascadeNext(locks, held, seen, name);
    }
  }

  lemma CascadeNext(locks: map<string, Lock>, held: set<string>, visited: set<string>, name: string)
    requires held <= locks.Keys
    ensures name !in held || name in visited ==> held * (visited + {name}) == held * visited
    ensures name in held && name !in visited ==>
              && locks - (held * (visited + {name})) == locks - (held * visited) - {name}
              && |held * (visited + {name})| == |held * visited| + 1
  {
    if name in held && name !in visited {
      assert held * (visited + {name}) == held * visited + {name};
    } else {
      assert held * (visited + {name}) == held * visited;
    }
  }

  /** One command on one replica, its cascade in the replica's own order. */
  function StepInOrder(s: State, cmd: Command, order: seq<string>): (State, Response) {
    if cmd.ExpireLease? && cmd.leaseID in s.leases then
      var (locks, n) := Cascade(s.locks, cmd.leaseID, order);
      (s.(locks := locks, leases := s.leases - {cmd.leaseID}), LeaseRemoved(n))
    else Step(s, cmd)
  }

  /** Whatever order the cascade takes, as long as it visits every lock, the state and the answer are one. */
  lemma OrderIrrelevant(s: State, cmd: Command, order: seq<string>)
    requires forall name :: name in s.locks ==> name in order
    ensures StepInOrder(s, cmd, order) == Step(s, cmd)
  {
    if cmd.ExpireLease? && cmd.leaseID in s.leases {
      CascadeVisits(s.locks, cmd.leaseID, order);
      var visited := set name | name in order;
      assert HeldBy(s.locks, cmd.leaseID) * visited == HeldBy(s.locks, cmd.leaseID);
    }
  }

  // ------------------------------------------------------------------ replicas

  /** `answers` keeps, per log position, what this replica answered there. */
  datatype Replica = Replica(pos: nat, state: State, answers: map<nat, Response>)

  datatype Cluster = Cluster(replicas: map<nat, Replica>, snapshots: set<(nat, Snapshot)>)

  datatype Event =
    | Join(r: nat)
    | ApplyNext(r: nat, order: seq<string>)
    | Take(r: nat)
    | Install(r: nat, pos: nat, snap: Snapshot)

  const NONE := Cluster(map[], {})

  ghost predicate Enabled(log: seq<Command>, c: Cluster, e: Event) {
    match e
    case Join(r) => r !in c.replicas
    case ApplyNext(r, order) =>
      && r in c.replicas && c.replicas[r].pos < |log|
      && (forall name :: name in c.replicas[r].state.locks ==> name in order)
    case Take(r) => r in c.replicas
    case Install(r, pos, snap) => r in c.replicas && (pos, snap) in c.snapshots
  }

  ghost function Exec(log: seq<Command>, c: Cluster, e: Event): Cluster
    requires Enabled(log, c, e)
  {
    match e
    case Join(r) => c.(replicas := c.replicas[r := Replica(0, INIT, map[])])
    case ApplyNext(r, order) =>
      var x := c.replicas[r];
      var (state, answer) := StepInOrder(x.state, log[x.pos], order);
      c.(replicas := c.replicas[r := Replica(x.pos + 1, state, x.answers[x.pos := answer])])
    case Take(r) => c.(snapshots := c.snapshots + {(c.replicas[r].pos, Snap(c.replicas[r].state))})
    case Install(r, pos, snap) =>
      if Accepted(snap) then c.(replicas := c.replicas[r := Replica(pos, Restored(snap), c.replicas[r].answers)]) else c
  }

  ghost predicate Valid(log: seq<Command>, run: seq<Event>)
    decreases |run|, 0
  {
    run == [] || (Valid(log, run[..|run| - 1]) && Enabled(log, After(log, run[..|run| - 1]), run[|run| - 1]))
  }

  ghost function After(log: seq<Command>, run: seq<Event>): Cluster
    requires Valid(log, run)
    decreases |run|, 1
  {
    if run == [] then NONE else Exec(log, After(log, run[..|run| - 1]), run[|run| - 1])
  }

  /** A replica's state is the state of the log up to its position, and its answers are the log's. */
  ghost predicate Faithful(log: seq<Command>, x: Replica) {
    && x.pos <= |log| && x.state == Run(log[..x.pos])
    && (forall i :: i in x.answers ==> i < |log| && x.answers[i] == Answer(log, i))
  }

  ghost predicate Inv(log: seq<Command>, c: Cluster) {
    && (forall r :: r in c.replicas ==> Faithful(log, c.replicas[r]))
    && (forall s :: s in c.snapshots ==> s.0 <= |log| && s.1 == Snap(Run(log[..s.0])))
  }

  lemma EventKeeps(log: seq<Command>, c: Cluster, e: Event)
    requires Inv(log, c) && Enabled(log, c, e)
    ensures Inv(log, Exec(log, c, e))
  {
    hide Run, Step;
    match e {
      case Join(r) => StartsEmpty(log);
      case ApplyNext(r, order) =>
        var x := c.replicas[r];
        assert Faithful(log, x);
        OrderIrrelevant(x.state, log[x.pos], order);
        RunNext(log, x.pos);
      case Take(r) => assert Faithful(log, c.replicas[r]);
      case Install(r, pos, snap) =>
        assert Faithful(log, c.replicas[r]);
        SnapshotRoundTrip(log[..pos]);
    }
  }

  lemma StartsEmpty(log: seq<Command>)
    ensures Run(log[..0]) == INIT
  {
  }

  lemma {:induction false} RunKeeps(log: seq<Command>, run: seq<Event>)
    requires Valid(log, run)
    ensures Inv(log, After(log, run))
  {
    if run != [] {
      RunKeeps(log, run[..|run| - 1]);
      EventKeeps(log, After(log, run[..|run| - 1]), run[|run| - 1]);
    }
  }

  /**
   In every run, two replicas at one log position are in one state, they give
   one answer to every command both applied, and every snapshot taken is
   accepted.
   */
  lemma ReplicasAgree(log: seq<Command>, run: seq<Event>, a: nat, b: nat)
    requires Valid(log, run) && a in After(log, run).replicas && b in After(log, run).replicas
    ensures var x, y := After(log, run).replicas[a], After(log, run).replicas[b];
            && (x.pos == y.pos ==> x.state == y.state)
            && (forall i :: i in x.answers && i in y.answers ==> x.answers[i] == y.answers[i])
    ensures forall s :: s in After(log, run).snapshots ==> Accepted(s.1)
  {
    RunKeeps(log, run);
    var c := After(log, run);
    assert Faithful(log, c.replicas[a]) && Faithful(log, c.replicas[b]);
    forall s | s in c.snapshots ensures Accepted(s.1) {
      SnapshotRoundTrip(log[..s.0]);
    }
  }

  /** In any run, a replica applies the next command by one step, and answers it as the log does. */
  lemma AppliesNext(log: seq<Command>, run: seq<Event>, r: nat, order: seq<string>)
    requires Valid(log, run) && Enabled(log, After(log, run), ApplyNext(r, order))
    ensures var x, y := After(log, run).replicas[r], Exec(log, After(log, run), ApplyNext(r, order)).replicas[r];
            && y.pos == x.pos + 1 && y.state == Run(log[..y.pos])
            && y.answers == x.answers[x.pos := Answer(log, x.pos)]
  {
    hide Run, Step;
    RunKeeps(log, run);
    var x := After(log, run).replicas[r];
    assert Faithful(log, x);
    OrderIrrelevant(x.state, log[x.pos], order);
    RunNext(log, x.pos);
  }

  /** In any run, a replica that installs another's snapshot is where and what that one was. */
  lemma CatchesUp(log: seq<Command>, run: seq<Event>, a: nat, b: nat)
    requires Valid(log, run) && a in After(log, run).replicas && b in After(log, run).replicas
    ensures var x := After(log, run).replicas[a];
            var taken := run + [Take(a)];
            var installed := taken + [Install(b, x.pos, Snap(x.state))];
            && Valid(log, taken) && Valid(log, installed)
            && After(log, installed).replicas[b].pos == x.pos
            && After(log, installed).replicas[b].state == x.state
  {
    hide Run;
    RunKeeps(log, run);
    var x := After(log, run).replicas[a];
    assert Faithful(log, x);
    SnapshotRoundTrip(log[..x.pos]);
    var taken := run + [Take(a)];
    assert taken[..|taken| - 1] == run;
    assert Valid(log, taken);
    var installed := taken + [Install(b, x.pos, Snap(x.state))];
    assert installed[..|installed| - 1] == taken;
  }
}
