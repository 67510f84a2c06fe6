/**
 Waiting acquires on the leader, as interleaved atomic steps: one step per
 section that runs under the queue mutex or the state machine's mutex, and one
 per channel operation. The state machine stays locked from the moment it frees
 locks until the last lock-freed hook has run, so no check of a lock and no other
 command falls in between.
 */
module Waiting {
  import opened Domain
  import opened Fsm
  import opened FsmLog
  import opened LockQueue

  /** Where a caller is in the waiting loop. */
  datatype Pc =
    | Checking    // top of the loop, before IsHead
    | SawHead     // IsHead answered true, heldByOther comes next
    | Proposing   // the acquire command is in flight
    | Refused     // the command answered ErrLockAlreadyHeld; the select comes next
    | Parked      // in the select
    | Leaving     // returning; the deferred Leave comes next
    | Gone

  datatype Waiter = Waiter(lockName: string, ownerID: string, leaseID: nat, pc: Pc, ready: bool)

  /** Waiters are named by their join tickets, 0, 1, 2, ... */
  datatype Node = Node(
    fsm: State,
    hooks: set<string>,               // locks freed whose hook has not run yet
    queues: Queues<nat>,
    waiters: map<nat, Waiter>,
    nextTicket: nat,
    proposals: map<string, seq<nat>>) // history: tickets that proposed, per lock, in order

  datatype Event =
    | Join(lockName: string, ownerID: string, leaseID: nat)
    | CheckHead(w: nat)
    | CheckHeld(w: nat)
    | Commit(cmd: Command)            // any other client's command
    | CommitFor(w: nat)               // the command this waiter proposed
    | ProposalFails(w: nat)           // dead lease, lost leadership, timeout
    | RunHook(lockName: string)
    | Park(w: nat)
    | Ready(w: nat)
    | Recheck(w: nat)                 // the leadership recheck ticks, and the node still leads
    | GiveUp(w: nat)                  // timeout, context done or no longer leader
    | Leave(w: nat)

  const EMPTY := Node(INIT, {}, map[], map[], 0, map[])

  predicate At(n: Node, w: nat, pc: Pc) {
    w in n.waiters && n.waiters[w].pc == pc
  }

  function HeldByOther(s: State, lockName: string, leaseID: nat): bool {
    lockName in s.locks && s.locks[lockName].leaseID != leaseID
  }

  function Proposal(x: Waiter): Command {
    AcquireLock(x.lockName, x.ownerID, x.leaseID)
  }

  predicate Enabled(n: Node, e: Event) {
    match e
    case Join(_, _, _) => true
    case CheckHead(w) => At(n, w, Checking)
    case CheckHeld(w) => At(n, w, SawHead) && n.hooks == {}
    case Commit(_) => n.hooks == {}
    case CommitFor(w) => At(n, w, Proposing) && n.hooks == {}
    case ProposalFails(w) => At(n, w, Proposing)
    case RunHook(lockName) => lockName in n.hooks
    case Park(w) => At(n, w, Refused)
    case Ready(w) => At(n, w, Parked) && n.waiters[w].ready
    case Recheck(w) => At(n, w, Parked)
    case GiveUp(w) => At(n, w, Parked)
    case Leave(w) => At(n, w, Leaving)
  }

  function Goto(n: Node, w: nat, pc: Pc): Node
    requires w in n.waiters
  {
    n.(waiters := n.waiters[w := n.waiters[w].(pc := pc)])
  }

  /** Signals each waiter in `ws`. */
  function Signal(waiters: map<nat, Waiter>, ws: seq<nat>): map<nat, Waiter> {
    map w | w in waiters :: if w in ws then waiters[w].(ready := true) else waiters[w]
  }

  function HeadOf(qs: Queues<nat>, name: string): seq<nat> {
    if Queue(qs, name) == [] then [] else [Queue(qs, name)[0]]
  }

  function History(n: Node, name: string): seq<nat> {
    if name in n.proposals then n.proposals[name] else []
  }

  function Exec(n: Node, e: Event): Node
    requires Enabled(n, e)
  {
    match e
    case Join(lockName, ownerID, leaseID) =>
      n.(queues := Joined(n.queues, lockName, n.nextTicket),
         waiters := n.waiters[n.nextTicket := Waiter(lockName, ownerID, leaseID, Checking, false)],
         nextTicket := n.nextTicket + 1)
    case CheckHead(w) =>
      Goto(n, w, if IsHead(n.queues, n.waiters[w].lockName, w) then SawHead else Parked)
    case CheckHeld(w) =>
      var x := n.waiters[w];
      if HeldByOther(n.fsm, x.lockName, x.leaseID) then Goto(n, w, Parked)
      else Goto(n, w, Proposing).(proposals := n.proposals[x.lockName := History(n, x.lockName) + [w]])
    case Commit(cmd) => n.(fsm := Step(n.fsm, cmd).0, hooks := Freed(n.fsm, cmd))
    case CommitFor(w) =>
      var cmd := Proposal(n.waiters[w]);
      var refused := Step(n.fsm, cmd).1 == Failed(ErrLockAlreadyHeld);
      Goto(n, w, if refused then Refused else Leaving).(fsm := Step(n.fsm, cmd).0, hooks := Freed(n.fsm, cmd))
    case ProposalFails(w) => Goto(n, w, Leaving)
    case RunHook(lockName) =>
      n.(hooks := n.hooks - {lockName}, waiters := Signal(n.waiters, HeadOf(n.queues, lockName)))
    case Park(w) => Goto(n, w, Parked)
    case Ready(w) => n.(waiters := n.waiters[w := n.waiters[w].(pc := Checking, ready := false)])
    case Recheck(w) => Goto(n, w, Checking)
    case GiveUp(w) => Goto(n, w, Leaving)
    case Leave(w) =>
      var name := n.waiters[w].lockName;
      Goto(n, w, Gone).(
        queues := LeftBy(n.queues, name, w),
        waiters := Signal(Goto(n, w, Gone).waiters, Promoted(n.queues, name, w)))
  }

  ghost predicate Valid(run: seq<Event>)
    decreases |run|, 0
  {
    run == [] || (Valid(run[..|run| - 1]) && Enabled(After(run[..|run| - 1]), run[|run| - 1]))
  }

  /** The node after a run from its start. */
  ghost function After(run: seq<Event>): Node
    requires Valid(run)
    decreases |run|, 1
  {
    if run == [] then EMPTY else Exec(After(run[..|run| - 1]), run[|run| - 1])
  }

  // ------------------------------------------------------------------ invariant

  predicate Queued(qs: Queues<nat>, name: string, w: nat) {
    w in Queue(qs, name)
  }

  /** Every queue lists, in join order, exactly the callers of its lock that have not left. */
  ghost predicate QueuesOk(n: Node) {
    && (forall name, w: nat :: Queued(n.queues, name, w) ==>
          w in n.waiters && n.waiters[w].lockName == name && n.waiters[w].pc != Gone)
    && (forall w :: w in n.waiters && n.waiters[w].pc != Gone ==> Queued(n.queues, n.waiters[w].lockName, w))
    && (forall w :: w in n.waiters ==> w < n.nextTicket)
  }

  ghost predicate Increasing(q: seq<nat>) {
    forall i, j :: 0 <= i < j < |q| ==> q[i] < q[j]
  }

  ghost predicate NonDecreasing(q: seq<nat>) {
    forall i, j :: 0 <= i < j < |q| ==> q[i] <= q[j]
  }

  ghost predicate InJoinOrder(n: Node) {
    forall name :: Increasing(Queue(n.queues, name))
  }

  predicate Trying(pc: Pc) {
    pc == SawHead || pc == Proposing || pc == Refused
  }

  /** Only the head of a queue gets past the head check. */
  ghost predicate OnlyHeadsTry(n: Node) {
    forall w :: w in n.waiters && Trying(n.waiters[w].pc) ==> IsHead(n.queues, n.waiters[w].lockName, w)
  }

  /** In the select, or on the way to it, with no signal waiting. */
  predicate Asleep(x: Waiter) {
    (x.pc == Parked || x.pc == Refused) && !x.ready
  }

  /** A head about to sleep without a signal sleeps on a held lock, or its hook is still to run. */
  ghost predicate WakeupsKept(n: Node) {
    forall w :: w in n.waiters && IsHead(n.queues, n.waiters[w].lockName, w) && Asleep(n.waiters[w]) ==>
      n.waiters[w].lockName in n.fsm.locks || n.waiters[w].lockName in n.hooks
  }

  /** Proposals so far came in join order, none from a caller behind one still queued. */
  ghost predicate ServedInOrder(n: Node) {
    && (forall name :: NonDecreasing(History(n, name)))
    && (forall name, t :: t in History(n, name) ==> t < n.nextTicket)
    && (forall name, t, w: nat :: t in History(n, name) && Queued(n.queues, name, w) ==> t <= w)
  }

  ghost predicate Inv(n: Node) {
    QueuesOk(n) && InJoinOrder(n) && OnlyHeadsTry(n) && WakeupsKept(n) && ServedInOrder(n)
  }

  // ------------------------------------------------------------- steps keep it

  /** A step that changes waiters, but neither the queues, nor who is in them, nor the history. */
  ghost predicate SameQueues(n: Node, n': Node) {
    && n'.queues == n.queues && n'.proposals == n.proposals && n'.nextTicket == n.nextTicket
    && n'.waiters.Keys == n.waiters.Keys
    && (forall w :: w in n.waiters ==>
          n'.waiters[w].lockName == n.waiters[w].lockName && (n'.waiters[w].pc == Gone <==> n.waiters[w].pc == Gone))
  }

  lemma SameQueuesKeep(n: Node, n': Node)
    requires SameQueues(n, n') && QueuesOk(n) && InJoinOrder(n) && ServedInOrder(n)
    ensures QueuesOk(n') && InJoinOrder(n') && ServedInOrder(n')
  {
    assert forall name :: History(n', name) == History(n, name);
  }

  /** A step that only moves one waiter's program counter. */
  lemma GotoKeeps(n: Node, w: nat, pc: Pc)
    requires Inv(n) && w in n.waiters && n.waiters[w].pc != Gone && pc != Gone
    requires Trying(pc) ==> IsHead(n.queues, n.waiters[w].lockName, w)
    requires (pc == Parked || pc == Refused) && IsHead(n.queues, n.waiters[w].lockName, w) ==>
               || n.waiters[w].ready || n.waiters[w].pc == Parked || n.waiters[w].pc == Refused
               || n.waiters[w].lockName in n.fsm.locks
    ensures Inv(Goto(n, w, pc))
  {
    SameQueuesKeep(n, Goto(n, w, pc));
  }

  /** A waiter that consumes its signal goes back to checking. */
  lemma ReadyKeeps(n: Node, w: nat)
    requires Inv(n) && Enabled(n, Ready(w))
    ensures Inv(Exec(n, Ready(w)))
  {
    SameQueuesKeep(n, Exec(n, Ready(w)));
  }

  lemma QueuedAfterJoin(qs: Queues<nat>, name: string, w: nat)
    ensures forall other, v: nat :: Queued(Joined(qs, name, w), other, v) <==>
                                      Queued(qs, other, v) || (other == name && v == w)
  {
    var q := Queue(qs, name);
    assert forall v :: v in q + [w] <==> v in q || v == w;
  }

  lemma JoinKeepsOrder(n: Node, name: string)
    requires QueuesOk(n) && InJoinOrder(n)
    ensures forall other :: Increasing(Queue(Joined(n.queues, name, n.nextTicket), other))
  {
    var q := Queue(n.queues, name);
    assert Increasing(q);
    forall i | 0 <= i < |q| ensures q[i] < n.nextTicket {
      assert Queued(n.queues, name, q[i]);
    }
    forall other ensures Increasing(Queue(Joined(n.queues, name, n.nextTicket), other)) {
      if other != name {
        assert Increasing(Queue(n.queues, other));
      }
    }
  }

  lemma HeadAfterJoin(n: Node, name: string, v: nat)
    requires QueuesOk(n) && v in n.waiters
    ensures IsHead(Joined(n.queues, name, n.nextTicket), n.waiters[v].lockName, v) ==
            IsHead(n.queues, n.waiters[v].lockName, v)
  {
  }

  lemma JoinKeeps(n: Node, e: Event)
    requires Inv(n) && e.Join?
    ensures Inv(Exec(n, e))
  {
    hide Joined, Queued, IsHead;
    var n', w := Exec(n, e), n.nextTicket;
    QueuedAfterJoin(n.queues, e.lockName, w);
    JoinKeepsOrder(n, e.lockName);
    forall v | v in n.waiters
      ensures IsHead(n'.queues, n.waiters[v].lockName, v) == IsHead(n.queues, n.waiters[v].lockName, v)
    {
      HeadAfterJoin(n, e.lockName, v);
    }
    assert forall other :: History(n', other) == History(n, other);
  }

  /** The state machine moves on; every lock it frees has its hook pending. */
  lemma CommitKeeps(n: Node, cmd: Command)
    requires Inv(n) && n.hooks == {}
    ensures Inv(n.(fsm := Step(n.fsm, cmd).0, hooks := Freed(n.fsm, cmd)))
  {
    hide Step;
    SameQueuesKeep(n, n.(fsm := Step(n.fsm, cmd).0, hooks := Freed(n.fsm, cmd)));
  }

  lemma RefusalMeansHeld(s: State, cmd: Command)
    requires cmd.AcquireLock? && Step(s, cmd).1 == Failed(ErrLockAlreadyHeld)
    ensures cmd.lockName in Step(s, cmd).0.locks
  {
  }

  lemma CommitForKeeps(n: Node, w: nat)
    requires Inv(n) && Enabled(n, CommitFor(w))
    ensures Inv(Exec(n, CommitFor(w)))
  {
    hide Step;
    var cmd := Proposal(n.waiters[w]);
    CommitKeeps(n, cmd);
    var moved := n.(fsm := Step(n.fsm, cmd).0, hooks := Freed(n.fsm, cmd));
    if Step(n.fsm, cmd).1 == Failed(ErrLockAlreadyHeld) {
      RefusalMeansHeld(n.fsm, cmd);
      GotoKeeps(moved, w, Refused);
    } else {
      GotoKeeps(moved, w, Leaving);
    }
  }

  lemma HookKeeps(n: Node, name: string)
    requires Inv(n) && name in n.hooks
    ensures Inv(Exec(n, RunHook(name)))
  {
    var n' := Exec(n, RunHook(name));
    SameQueuesKeep(n, n');
    forall w | w in n'.waiters && IsHead(n'.queues, n'.waiters[w].lockName, w) && Asleep(n'.waiters[w])
      ensures n'.waiters[w].lockName in n'.fsm.locks || n'.waiters[w].lockName in n'.hooks
    {
      assert Asleep(n.waiters[w]);
      assert IsHead(n.queues, name, w) ==> w in HeadOf(n.queues, name);
    }
  }

  lemma QueuedAfterLeave(n: Node, name: string, w: nat)
    requires InJoinOrder(n)
    ensures forall other, v: nat :: Queued(LeftBy(n.queues, name, w), other, v) <==>
                                      Queued(n.queues, other, v) && !(other == name && v == w)
  {
    assert Increasing(Queue(n.queues, name));
    LeaveKeepsOrder(n.queues, name, w);
  }

  lemma LeaveKeepsIncreasing(n: Node, name: string, w: nat)
    requires InJoinOrder(n)
    ensures forall other :: Increasing(Queue(LeftBy(n.queues, name, w), other))
  {
    var q := Queue(n.queues, name);
    assert Increasing(q);
    LeaveKeepsOrder(n.queues, name, w);
    forall other ensures Increasing(Queue(LeftBy(n.queues, name, w), other)) {
      if other != name {
        assert Increasing(Queue(n.queues, other));
      }
    }
  }

  /** After a departure the head is the old one, or the one that was promoted. */
  lemma HeadAfterLeave(qs: Queues<nat>, name: string, w: nat, other: string, v: nat)
    requires Increasing(Queue(qs, name)) && v != w && IsHead(LeftBy(qs, name, w), other, v)
    ensures IsHead(qs, other, v) || (other == name && v in Promoted(qs, name, w))
  {
    if other == name {
      var q := Queue(qs, name);
      if q != [] && q[0] == w {
        assert Without(q, w) == q[1..];
      }
    }
  }

  lemma HeadKeptByLeave(qs: Queues<nat>, name: string, w: nat, other: string, v: nat)
    requires v != w && IsHead(qs, other, v)
    ensures IsHead(LeftBy(qs, name, w), other, v)
  {
    if other == name {
      HeadStays(qs, name, v, w);
    }
  }

  /** Whoever a departure leaves at the front was there before, or is signalled. */
  lemma HeadsAfterLeave(n: Node, w: nat)
    requires Inv(n) && Enabled(n, Leave(w))
    ensures var n' := Exec(n, Leave(w));
            forall v :: v in n.waiters && v != w ==>
              && (IsHead(n.queues, n.waiters[v].lockName, v) ==> IsHead(n'.queues, n.waiters[v].lockName, v))
              && (IsHead(n'.queues, n.waiters[v].lockName, v) ==>
                    IsHead(n.queues, n.waiters[v].lockName, v) || n'.waiters[v].ready)
  {
    hide LeftBy, Queued, IsHead, Promoted, QueuesOk, OnlyHeadsTry, WakeupsKept, ServedInOrder;
    var n', name := Exec(n, Leave(w)), n.waiters[w].lockName;
    assert Increasing(Queue(n.queues, name));
    forall v | v in n.waiters && v != w
      ensures IsHead(n.queues, n.waiters[v].lockName, v) ==> IsHead(n'.queues, n.waiters[v].lockName, v)
      ensures IsHead(n'.queues, n.waiters[v].lockName, v) ==>
                IsHead(n.queues, n.waiters[v].lockName, v) || n'.waiters[v].ready
    {
      if IsHead(n.queues, n.waiters[v].lockName, v) {
        HeadKeptByLeave(n.queues, name, w, n.waiters[v].lockName, v);
      }
      if IsHead(n'.queues, n.waiters[v].lockName, v) {
        HeadAfterLeave(n.queues, name, w, n.waiters[v].lockName, v);
      }
    }
  }

  lemma LeaveKeepsQueues(n: Node, w: nat)
    requires Inv(n) && Enabled(n, Leave(w))
    ensures QueuesOk(Exec(n, Leave(w))) && InJoinOrder(Exec(n, Leave(w))) && ServedInOrder(Exec(n, Leave(w)))
  {
    hide LeftBy, Queued, IsHead, Promoted, OnlyHeadsTry, WakeupsKept;
    var n', name := Exec(n, Leave(w)), n.waiters[w].lockName;
    QueuedAfterLeave(n, name, w);
    LeaveKeepsIncreasing(n, name, w);
    assert forall other :: History(n', other) == History(n, other);
  }

  lemma LeaveKeeps(n: Node, w: nat)
    requires Inv(n) && Enabled(n, Leave(w))
    ensures Inv(Exec(n, Leave(w)))
  {
    hide LeftBy, IsHead, Promoted, QueuesOk, InJoinOrder, ServedInOrder;
    LeaveKeepsQueues(n, w);
    HeadsAfterLeave(n, w);
  }

  lemma CheckHeldKeeps(n: Node, w: nat)
    requires Inv(n) && Enabled(n, CheckHeld(w))
    ensures Inv(Exec(n, CheckHeld(w)))
  {
    var x := n.waiters[w];
    if HeldByOther(n.fsm, x.lockName, x.leaseID) {
      GotoKeeps(n, w, Parked);
    } else {
      GotoKeeps(n, w, Proposing);
      ProposeKeepsOrder(Goto(n, w, Proposing), w);
    }
  }

  lemma ProposeKeepsOrder(n: Node, w: nat)
    requires Inv(n) && w in n.waiters && IsHead(n.queues, n.waiters[w].lockName, w)
    ensures Inv(n.(proposals := n.proposals[n.waiters[w].lockName := History(n, n.waiters[w].lockName) + [w]]))
  {
    var name := n.waiters[w].lockName;
    var n' := n.(proposals := n.proposals[name := History(n, name) + [w]]);
    var q := Queue(n.queues, name);
    assert Queued(n.queues, name, w);
    forall v: nat | Queued(n.queues, name, v) ensures w <= v {
      assert Increasing(q);
    }
    var history := History(n, name);
    forall other ensures NonDecreasing(History(n', other)) {
      assert NonDecreasing(History(n, other));
      forall i | 0 <= i < |history| ensures history[i] <= w {
        assert history[i] in history;
      }
    }
    forall other, t | t in History(n', other)
      ensures t < n.nextTicket && (forall v: nat :: Queued(n.queues, other, v) ==> t <= v)
    {
      assert t in History(n, other) || (other == name && t == w);
    }
    SameButHistory(n, n');
  }

  lemma SameButHistory(n: Node, n': Node)
    requires n' == n.(proposals := n'.proposals) && Inv(n) && ServedInOrder(n')
    ensures Inv(n')
  {
  }

  lemma EventKeeps(n: Node, e: Event)
    requires Inv(n) && Enabled(n, e)
    ensures Inv(Exec(n, e))
  {
    match e {
      case Join(_, _, _) => JoinKeeps(n, e);
      case CheckHead(w) =>
        GotoKeeps(n, w, if IsHead(n.queues, n.waiters[w].lockName, w) then SawHead else Parked);
      case CheckHeld(w) => CheckHeldKeeps(n, w);
      case Commit(cmd) => CommitKeeps(n, cmd);
      case CommitFor(w) => CommitForKeeps(n, w);
      case ProposalFails(w) => GotoKeeps(n, w, Leaving);
      case RunHook(name) => HookKeeps(n, name);
      case Park(w) => GotoKeeps(n, w, Parked);
      case Ready(w) => ReadyKeeps(n, w);
      case Recheck(w) => GotoKeeps(n, w, Checking);
      case GiveUp(w) => GotoKeeps(n, w, Leaving);
      case Leave(w) => LeaveKeeps(n, w);
    }
  }

  lemma {:induction false} RunKeeps(run: seq<Event>)
    requires Valid(run)
    ensures Inv(After(run))
  {
    if run != [] {
      RunKeeps(run[..|run| - 1]);
      EventKeeps(After(run[..|run| - 1]), run[|run| - 1]);
    }
  }

  // ------------------------------------------------------------- the theorems

  /** The head of a queue is not parked, or has a signal waiting. */
  ghost predicate HeadAwake(n: Node, name: string) {
    forall w :: w in n.waiters && n.waiters[w].lockName == name && IsHead(n.queues, name, w) ==>
      n.waiters[w].pc != Parked || n.waiters[w].ready
  }

  /**
   No wake-up is lost: in every interleaving, once the hooks of the last command
   have run, the head of every free lock's queue is awake or signalled, and a
   queue that is not empty has such a head. The periodic recheck plays no part.
   */
  lemma NoLostWakeup(run: seq<Event>, name: string)
    requires Valid(run)
    requires After(run).hooks == {} && name !in After(run).fsm.locks
    ensures HeadAwake(After(run), name)
    ensures Queue(After(run).queues, name) != [] ==>
              exists w :: w in After(run).waiters && IsHead(After(run).queues, name, w)
  {
    RunKeeps(run);
    var n := After(run);
    if Queue(n.queues, name) != [] {
      assert Queued(n.queues, name, Queue(n.queues, name)[0]);
    }
  }

  /** A head stays head until its own departure. */
  lemma HeadUntilLeave(run: seq<Event>, e: Event, name: string, w: nat)
    requires Valid(run) && Enabled(After(run), e) && IsHead(After(run).queues, name, w) && e != Leave(w)
    ensures IsHead(Exec(After(run), e).queues, name, w)
  {
    RunKeeps(run);
    var n := After(run);
    if e.Leave? {
      HeadKeptByLeave(n.queues, n.waiters[e.w].lockName, e.w, name, w);
    } else if e.Join? && e.lockName == name {
      HeadStays(n.queues, name, w, n.nextTicket);
    }
  }

  /** At most one queued caller per lock is proposing. */
  lemma OneProposer(run: seq<Event>, v: nat, w: nat)
    requires Valid(run)
    requires At(After(run), v, Proposing) && At(After(run), w, Proposing)
    requires After(run).waiters[v].lockName == After(run).waiters[w].lockName
    ensures v == w
  {
    RunKeeps(run);
  }

  /** Queued callers propose in join order, whatever joins, timeouts and departures happen. */
  lemma ProposalsInJoinOrder(run: seq<Event>, name: string, i: nat, j: nat)
    requires Valid(run) && i < j < |History(After(run), name)|
    ensures History(After(run), name)[i] <= History(After(run), name)[j]
  {
    RunKeeps(run);
    assert NonDecreasing(History(After(run), name));
  }

  /** No caller proposes ahead of one that joined before it and still waits. */
  lemma NoOvertaking(run: seq<Event>, name: string, t: nat, w: nat)
    requires Valid(run) && t in History(After(run), name) && Queued(After(run).queues, name, w)
    ensures t <= w
  {
    RunKeeps(run);
  }

  /** The commands that were committed in a run, those of the waiting callers among them. */
  ghost function Committed(run: seq<Event>): seq<Command>
    requires Valid(run)
  {
    if run == [] then [] else
    var before := run[..|run| - 1];
    match run[|run| - 1]
    case Commit(cmd) => Committed(before) + [cmd]
    case CommitFor(w) => Committed(before) + [Proposal(After(before).waiters[w])]
    case _ => Committed(before)
  }

  /** The state machine of a node is that of the commands committed on it, and nothing else moves it. */
  lemma {:induction false} StateFollowsLog(run: seq<Event>)
    requires Valid(run)
    ensures After(run).fsm == Run(Committed(run))
  {
    hide Step;
    if run != [] {
      var before := run[..|run| - 1];
      StateFollowsLog(before);
      var log, more := Committed(before), Committed(run);
      if run[|run| - 1].Commit? || run[|run| - 1].CommitFor? {
        assert more[..|more| - 1] == log;
      }
    }
  }

  // ------------------------------------------------- why callers leave, and progress

  /** The `i`-th event ends the wait of `w`: it gives up, its proposal fails, or it is answered for good. */
  ghost predicate EndsWait(run: seq<Event>, i: int, w: nat) {
    && 0 <= i < |run|
    && (|| run[i] == GiveUp(w)
        || run[i] == ProposalFails(w)
        || (run[i] == CommitFor(w) && Valid(run[..i]) && At(After(run[..i]), w, Proposing)
            && Step(After(run[..i]).fsm, Proposal(After(run[..i]).waiters[w])).1 != Failed(ErrLockAlreadyHeld)))
  }

  lemma EndsWaitLater(run: seq<Event>, i: int, w: nat)
    requires run != [] && EndsWait(run[..|run| - 1], i, w)
    ensures EndsWait(run, i, w)
  {
    assert run[..|run| - 1][..i] == run[..i];
  }

  /** No step but those moves a caller to its departure. */
  lemma NoOtherWayOut(n: Node, e: Event, w: nat)
    requires Enabled(n, e) && w in Exec(n, e).waiters
    requires Exec(n, e).waiters[w].pc == Leaving || Exec(n, e).waiters[w].pc == Gone
    ensures || (w in n.waiters && (n.waiters[w].pc == Leaving || n.waiters[w].pc == Gone))
            || e == GiveUp(w) || e == ProposalFails(w)
            || (e == CommitFor(w) && Step(n.fsm, Proposal(n.waiters[w])).1 != Failed(ErrLockAlreadyHeld))
  {
    hide Step;
  }

  /** In every run, whoever is leaving or gone has given up, failed to propose, or got its answer. */
  lemma {:induction false} NobodyLeavesUnserved(run: seq<Event>, w: nat)
    requires Valid(run) && (At(After(run), w, Leaving) || At(After(run), w, Gone))
    ensures exists i :: EndsWait(run, i, w)
  {
    var n := |run| - 1;
    if run != [] {
      var before := run[..n];
      NoOtherWayOut(After(before), run[n], w);
      if At(After(before), w, Leaving) || At(After(before), w, Gone) {
        NobodyLeavesUnserved(before, w);
        var i :| EndsWait(before, i, w);
        EndsWaitLater(run, i, w);
      } else {
        assert EndsWait(run, n, w);
      }
    }
  }

  lemma ValidNext(run: seq<Event>, e: Event)
    requires Valid(run) && Enabled(After(run), e)
    ensures Valid(run + [e]) && After(run + [e]) == Exec(After(run), e)
  {
    assert (run + [e])[..|run|] == run;
  }

  /** A woken head whose lock is free, or held by its own lease, goes round the loop and proposes. */
  lemma WokenHeadProposes(run: seq<Event>, w: nat)
    requires Valid(run) && At(After(run), w, Parked) && After(run).waiters[w].ready && After(run).hooks == {}
    requires var n, x := After(run), After(run).waiters[w];
             IsHead(n.queues, x.lockName, w) && !HeldByOther(n.fsm, x.lockName, x.leaseID)
    ensures var x := After(run).waiters[w];
            var proposing := run + [Ready(w)] + [CheckHead(w)] + [CheckHeld(w)];
            && Valid(proposing) && At(After(proposing), w, Proposing)
            && Proposal(After(proposing).waiters[w]) == Proposal(x)
            && After(proposing).fsm == After(run).fsm && After(proposing).hooks == {}
            && !After(proposing).waiters[w].ready
            && Last(History(After(proposing), x.lockName)) == w
  {
    ValidNext(run, Ready(w));
    var checking := run + [Ready(w)];
    ValidNext(checking, CheckHead(w));
    var head := checking + [CheckHead(w)];
    ValidNext(head, CheckHeld(w));
  }

  /** Its command gives its lease the lock, if that lease exists and is its owner's; then it leaves the queue. */
  lemma ProposalAcquires(run: seq<Event>, w: nat)
    requires Valid(run) && At(After(run), w, Proposing) && After(run).hooks == {}
    requires var n, x := After(run), After(run).waiters[w];
             && !HeldByOther(n.fsm, x.lockName, x.leaseID)
             && x.leaseID in n.fsm.leases && n.fsm.leases[x.leaseID].ownerID == x.ownerID
    ensures var x := After(run).waiters[w];
            var left := run + [CommitFor(w)] + [Leave(w)];
            && Valid(left) && At(After(left), w, Gone) && !Queued(After(left).queues, x.lockName, w)
            && x.lockName in After(left).fsm.locks && After(left).fsm.locks[x.lockName].leaseID == x.leaseID
  {
    hide Step;
    var n := After(run);
    AcquireSucceeds(n.fsm, Proposal(n.waiters[w]));
    ValidNext(run, CommitFor(w));
    var served := run + [CommitFor(w)];
    ValidNext(served, Leave(w));
    RunKeeps(served);
    QueuedAfterLeave(After(served), n.waiters[w].lockName, w);
  }

  /** From the wake-up to the lock: a woken head acquires and leaves. */
  lemma WokenHeadAcquires(run: seq<Event>, w: nat)
    requires Valid(run) && At(After(run), w, Parked) && After(run).waiters[w].ready && After(run).hooks == {}
    requires var n, x := After(run), After(run).waiters[w];
             && IsHead(n.queues, x.lockName, w) && !HeldByOther(n.fsm, x.lockName, x.leaseID)
             && x.leaseID in n.fsm.leases && n.fsm.leases[x.leaseID].ownerID == x.ownerID
    ensures var x := After(run).waiters[w];
            var left := run + [Ready(w)] + [CheckHead(w)] + [CheckHeld(w)] + [CommitFor(w)] + [Leave(w)];
            && Valid(left) && At(After(left), w, Gone) && !Queued(After(left).queues, x.lockName, w)
            && x.lockName in After(left).fsm.locks && After(left).fsm.locks[x.lockName].leaseID == x.leaseID
  {
    hide Valid, After, Step, Queued, IsHead;
    WokenHeadProposes(run, w);
    ProposalAcquires(run + [Ready(w)] + [CheckHead(w)] + [CheckHeld(w)], w);
  }

  function Last(q: seq<nat>): int {
    if q == [] then -1 else q[|q| - 1]
  }

  lemma AcquireSucceeds(s: State, cmd: Command)
    requires cmd.AcquireLock? && cmd.leaseID in s.leases && s.leases[cmd.leaseID].ownerID == cmd.ownerID
    requires cmd.lockName in s.locks ==> s.locks[cmd.lockName].leaseID == cmd.leaseID
    ensures Step(s, cmd).1.LockAcquired?
    ensures cmd.lockName in Step(s, cmd).0.locks && Step(s, cmd).0.locks[cmd.lockName].leaseID == cmd.leaseID
  {
  }

  /**
   What a caller at the top of the loop does: behind another caller, or with the
   lock held by another lease, it parks without proposing; otherwise it proposes.
   */
  lemma ProposesExactlyWhenItMay(run: seq<Event>, w: nat)
    requires Valid(run) && At(After(run), w, Checking) && After(run).hooks == {}
    ensures var n, x := After(run), After(run).waiters[w];
            var checked := run + [CheckHead(w)];
            var held := checked + [CheckHeld(w)];
            && Valid(checked)
            && (!IsHead(n.queues, x.lockName, w) ==> After(checked) == Goto(n, w, Parked))
            && (IsHead(n.queues, x.lockName, w) ==>
                  && Valid(held)
                  && (if x.lockName in n.fsm.locks && n.fsm.locks[x.lockName].leaseID != x.leaseID
                      then After(held) == Goto(n, w, Parked)
                      else At(After(held), w, Proposing)))
  {
    var n, x := After(run), After(run).waiters[w];
    ValidNext(run, CheckHead(w));
    var checked := run + [CheckHead(w)];
    if IsHead(n.queues, x.lockName, w) {
      ValidNext(checked, CheckHeld(w));
      assert Goto(Goto(n, w, SawHead), w, Parked) == Goto(n, w, Parked);
    }
  }

  /** A refused proposal is back in the select, still queued; any other answer sends the caller away. */
  lemma AnswerDecides(run: seq<Event>, w: nat)
    requires Valid(run) && At(After(run), w, Proposing) && After(run).hooks == {}
    ensures var n := After(run);
            var answer := Step(n.fsm, Proposal(n.waiters[w])).1;
            var answered := run + [CommitFor(w)];
            && Valid(answered)
            && (answer != Failed(ErrLockAlreadyHeld) ==> At(After(answered), w, Leaving))
            && (answer == Failed(ErrLockAlreadyHeld) ==>
                  && Valid(answered + [Park(w)]) && At(After(answered + [Park(w)]), w, Parked)
                  && Queued(After(answered + [Park(w)]).queues, n.waiters[w].lockName, w))
  {
    hide Step;
    RunKeeps(run);
    ValidNext(run, CommitFor(w));
    if Step(After(run).fsm, Proposal(After(run).waiters[w])).1 == Failed(ErrLockAlreadyHeld) {
      ValidNext(run + [CommitFor(w)], Park(w));
    }
  }

  /** A caller that gives up, or fails to propose, leaves the queue next, and a head it makes way for is signalled. */
  lemma GivingUpHandsOn(run: seq<Event>, e: Event, w: nat)
    requires Valid(run) && Enabled(After(run), e) && (e == GiveUp(w) || e == ProposalFails(w))
    ensures var n, name := After(run), After(run).waiters[w].lockName;
            var left := run + [e] + [Leave(w)];
            && Valid(left) && At(After(left), w, Gone) && !Queued(After(left).queues, name, w)
            && (IsHead(n.queues, name, w) ==>
                  forall v :: v in After(left).waiters && IsHead(After(left).queues, name, v) ==>
                    After(left).waiters[v].ready)
  {
    RunKeeps(run);
    var n, name := After(run), After(run).waiters[w].lockName;
    ValidNext(run, e);
    var leaving := run + [e];
    ValidNext(leaving, Leave(w));
    RunKeeps(leaving);
    QueuedAfterLeave(After(leaving), name, w);
    var n' := After(leaving + [Leave(w)]);
    forall v | IsHead(n.queues, name, w) && v in n'.waiters && IsHead(n'.queues, name, v)
      ensures n'.waiters[v].ready
    {
      assert Increasing(Queue(n.queues, name));
      assert Queued(n'.queues, name, v);
      HeadAfterLeave(n.queues, name, w, name, v);
    }
  }

  /** A recheck sends the caller back to the top of the loop and changes nothing else. */
  lemma RecheckChecksAgain(run: seq<Event>, w: nat)
    requires Valid(run) && At(After(run), w, Parked)
    ensures Valid(run + [Recheck(w)]) && At(After(run + [Recheck(w)]), w, Checking)
    ensures Goto(After(run + [Recheck(w)]), w, Parked) == After(run)
  {
    ValidNext(run, Recheck(w));
    var n := After(run);
    assert n.waiters[w := n.waiters[w]] == n.waiters;
  }

  /** A freed lock's hook signals the head of its queue and nobody else. */
  lemma HookSignalsHead(run: seq<Event>, name: string)
    requires Valid(run) && name in After(run).hooks
    ensures var n, n' := After(run), Exec(After(run), RunHook(name));
            && n'.hooks == n.hooks - {name} && n'.queues == n.queues && n'.waiters.Keys == n.waiters.Keys
            && (forall v :: v in n.waiters ==>
                  n'.waiters[v] == n.waiters[v].(ready := n.waiters[v].ready || IsHead(n.queues, name, v)))
  {
  }

  /** A departure signals the caller that becomes head by it and nobody else. */
  lemma LeaveSignalsPromoted(run: seq<Event>, w: nat)
    requires Valid(run) && Enabled(After(run), Leave(w))
    ensures var n, n', name := After(run), Exec(After(run), Leave(w)), After(run).waiters[w].lockName;
            forall v :: v in n.waiters && v != w ==>
              n'.waiters[v] == n.waiters[v].(ready := n.waiters[v].ready
                                                      || (IsHead(n'.queues, name, v) && !IsHead(n.queues, name, v)))
  {
    RunKeeps(run);
    var n, n', name := After(run), Exec(After(run), Leave(w)), After(run).waiters[w].lockName;
    assert Increasing(Queue(n.queues, name));
    forall v | v in n.waiters && v != w
      ensures v in Promoted(n.queues, name, w) <==> IsHead(n'.queues, name, v) && !IsHead(n.queues, name, v)
    {
      if IsHead(n'.queues, name, v) {
        HeadAfterLeave(n.queues, name, w, name, v);
      }
    }
  }
}
