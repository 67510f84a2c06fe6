/**
 The leader's waiting queues: for each lock, its waiters in arrival order. The
 functions say what each operation does to the queues of any kind of waiter;
 class `LockQueues` does it in place.
 */
module LockQueue {

  /** Queues by lock name; a name without waiters is absent. */
  type Queues<W> = map<string, seq<W>>

  function Queue<W>(qs: Queues<W>, name: string): seq<W> {
    if name in qs then qs[name] else []
  }

  predicate IsHead<W(==)>(qs: Queues<W>, name: string, w: W) {
    |Queue(qs, name)| > 0 && Queue(qs, name)[0] == w
  }

  function Joined<W>(qs: Queues<W>, name: string, w: W): Queues<W> {
    qs[name := Queue(qs, name) + [w]]
  }

  /** The first position of `w`, or -1. */
  function Index<W(==)>(q: seq<W>, w: W): (i: int)
    ensures -1 <= i < |q|
    ensures i == -1 <==> w !in q
    ensures 0 <= i ==> q[i] == w && w !in q[..i]
  {
    if q == [] then -1
    else if q[0] == w then 0
    else
      var i := Index(q[1..], w);
      if i == -1 then -1 else i + 1
  }

  function Without<W(==)>(q: seq<W>, w: W): seq<W> {
    var i := Index(q, w);
    if i < 0 then q else q[..i] + q[i + 1..]
  }

  function LeftBy<W(==)>(qs: Queues<W>, name: string, w: W): Queues<W> {
    var q := Queue(qs, name);
    if w !in q then qs
    else if |q| == 1 then qs - {name}
    else qs[name := Without(q, w)]
  }

  /** The waiter a departure moves to the front of the queue. */
  function Promoted<W(==)>(qs: Queues<W>, name: string, w: W): (r: seq<W>)
    ensures |r| <= 1
    ensures r != [] ==> IsHead(qs, name, w) && IsHead(LeftBy(qs, name, w), name, r[0])
    ensures IsHead(qs, name, w) && |Queue(qs, name)| > 1 ==> r != []
  {
    if IsHead(qs, name, w) && |Queue(qs, name)| > 1 then [Queue(qs, name)[1]] else []
  }

  /** One caller's place in a queue; `ready` is its one-slot wake-up channel. */
  class LockWaiter {
    const lockName: string
    var ready: bool

    constructor (name: string)
      ensures lockName == name && !ready
    {
      lockName, ready := name, false;
    }

    /** A signal to a full channel is dropped. */
    method Wake()
      modifies this
      ensures ready
    {
      if !ready {
        ready := true;
      }
    }
  }

  ghost predicate Distinct<W>(q: seq<W>) {
    forall i, j :: 0 <= i < j < |q| ==> q[i] != q[j]
  }

  ghost predicate QueueOk(name: string, q: seq<LockWaiter>) {
    q != [] && Distinct(q) && forall i :: 0 <= i < |q| ==> q[i].lockName == name
  }

  /** A queue that loses one of several waiters is in order, and has lost it for good. */
  lemma LeaveKeepsQueue(name: string, q: seq<LockWaiter>, w: LockWaiter)
    requires QueueOk(name, q) && w in q
    ensures w !in Without(q, w)
    ensures |q| > 1 ==> QueueOk(name, Without(q, w))
  {
    hide Index;
  }

  class LockQueues {
    var queues: Queues<LockWaiter>

    /** No queue is empty, and each waiter is queued once, under its own lock. */
    ghost predicate Valid()
      reads this
    {
      forall name :: name in queues ==> QueueOk(name, queues[name])
    }

    constructor ()
      ensures Valid() && queues == map[]
    {
      queues := map[];
    }

    method JoinLockQueue(lockName: string) returns (w: LockWaiter)
      requires Valid()
      modifies this
      ensures Valid() && fresh(w) && w.lockName == lockName && !w.ready
      ensures queues == Joined(old(queues), lockName, w)
    {
      w := new LockWaiter(lockName);
      queues := queues[lockName := (if lockName in queues then queues[lockName] else []) + [w]];
    }

    method LockHasWaiters(lockName: string) returns (waiting: bool)
      ensures waiting <==> Queue(queues, lockName) != []
    {
      waiting := lockName in queues && |queues[lockName]| > 0;
    }

    method WaiterIsHead(w: LockWaiter) returns (head: bool)
      ensures head <==> IsHead(queues, w.lockName, w)
    {
      var queue := if w.lockName in queues then queues[w.lockName] else [];
      head := |queue| > 0 && queue[0] == w;
    }

    lemma OthersElsewhere(w: LockWaiter)
      requires Valid()
      ensures forall name :: name != w.lockName ==> w !in Queue(queues, name)
    {
      forall name | name != w.lockName ensures w !in Queue(queues, name) {
        assert name in queues ==> QueueOk(name, queues[name]);
      }
    }

    /** Leaves the queue and wakes the waiter it promotes, and no other. */
    method Leave(w: LockWaiter)
      requires Valid()
      modifies this, Queue(queues, w.lockName)
      ensures Valid() && queues == LeftBy(old(queues), w.lockName, w)
      ensures forall name :: w !in Queue(queues, name)
      ensures forall v :: v in old(Queue(queues, w.lockName)) ==>
                v.ready == (old(v.ready) || v in Promoted(old(queues), w.lockName, w))
    {
      hide QueueOk;
      var queue := if w.lockName in queues then queues[w.lockName] else [];
      var i := Index(queue, w);
      OthersElsewhere(w);
      if i < 0 {
        return;
      }
      LeaveKeepsQueue(w.lockName, queue, w);
      ghost var was := queue;
      queue := queue[..i] + queue[i + 1..];
      assert queue == Without(was, w);
      if |queue| == 0 {
        queues := queues - {w.lockName};
        assert forall name :: Queue(queues, name) == if name == w.lockName then [] else Queue(old(queues), name);
        return;
      }
      queues := queues[w.lockName := queue];
      assert forall name :: Queue(queues, name) == if name == w.lockName then queue else Queue(old(queues), name);
      if i == 0 {
        queue[0].Wake();
      }
    }

    /** The state machine's lock-freed hook: signals the first waiter, if any. */
    method WakeHead(lockName: string)
      modifies Queue(queues, lockName)
      ensures forall v :: v in Queue(queues, lockName) ==>
                v.ready == (old(v.ready) || IsHead(queues, lockName, v))
    {
      var queue := if lockName in queues then queues[lockName] else [];
      if |queue| > 0 {
        queue[0].Wake();
      }
    }
  }

  // ------------------------------------------------------------ on any queues

  /** `v` comes before `u` in the queue. */
  ghost predicate Before<W>(q: seq<W>, v: W, u: W) {
    exists i, j :: 0 <= i < j < |q| && q[i] == v && q[j] == u
  }

  /** A departure removes its waiter and keeps the others, in order, and all other queues. */
  lemma LeaveKeepsOrder<W>(qs: Queues<W>, name: string, w: W)
    requires Distinct(Queue(qs, name))
    ensures w !in Queue(LeftBy(qs, name, w), name)
    ensures Distinct(Queue(LeftBy(qs, name, w), name))
    ensures forall v, u :: Before(Queue(LeftBy(qs, name, w), name), v, u) <==>
                             Before(Queue(qs, name), v, u) && v != w && u != w
    ensures forall v :: v in Queue(LeftBy(qs, name, w), name) <==> v in Queue(qs, name) && v != w
    ensures forall other :: other != name ==> Queue(LeftBy(qs, name, w), other) == Queue(qs, other)
  {
    var q := Queue(qs, name);
    if w in q {
      var i := Index(q, w);
      assert q == q[..i] + [w] + q[i + 1..];
      assert |q| == 1 ==> q[..i] == [] && q[i + 1..] == [];
      forall v, u ensures Before(Queue(LeftBy(qs, name, w), name), v, u) <==> Before(q, v, u) && v != w && u != w {
        WithoutKeepsOrder(q, w, v, u);
      }
    }
  }

  /** Where the `k`-th waiter of the shorter queue stood, with `n` the place that was vacated. */
  function Formerly(n: int, k: int): int {
    if k < n then k else k + 1
  }

  lemma WithoutAt<W>(q: seq<W>, w: W)
    requires w in q
    ensures |Without(q, w)| == |q| - 1
    ensures forall k :: 0 <= k < |q| - 1 ==> Without(q, w)[k] == q[Formerly(Index(q, w), k)]
  {
    hide Index;
  }

  lemma OrderBefore<W>(q: seq<W>, w: W, v: W, u: W)
    requires Distinct(q) && w in q && Before(Without(q, w), v, u)
    ensures Before(q, v, u) && v != w && u != w
  {
    hide Without, Index;
    WithoutAt(q, w);
    var n, rest := Index(q, w), Without(q, w);
    var i, j :| 0 <= i < j < |rest| && rest[i] == v && rest[j] == u;
    assert q[Formerly(n, i)] == v && q[Formerly(n, j)] == u;
  }

  lemma OrderAfter<W>(q: seq<W>, w: W, v: W, u: W)
    requires w in q && Before(q, v, u) && v != w && u != w
    ensures Before(Without(q, w), v, u)
  {
    hide Without, Index;
    WithoutAt(q, w);
    var n, rest := Index(q, w), Without(q, w);
    var i, j :| 0 <= i < j < |q| && q[i] == v && q[j] == u;
    var i', j' := if i < n then i else i - 1, if j < n then j else j - 1;
    assert Formerly(n, i') == i && Formerly(n, j') == j;
    assert rest[i'] == v && rest[j'] == u;
  }

  lemma WithoutKeepsOrder<W>(q: seq<W>, w: W, v: W, u: W)
    requires Distinct(q) && w in q
    ensures Before(Without(q, w), v, u) <==> Before(q, v, u) && v != w && u != w
  {
    hide Without, Before;
    if Before(Without(q, w), v, u) {
      OrderBefore(q, w, v, u);
    }
    if Before(q, v, u) && v != w && u != w {
      OrderAfter(q, w, v, u);
    }
  }

  /** Whoever is at the front stays there until it leaves itself. */
  lemma HeadStays<W>(qs: Queues<W>, name: string, h: W, w: W)
    requires IsHead(qs, name, h)
    ensures IsHead(Joined(qs, name, w), name, h)
    ensures w != h ==> IsHead(LeftBy(qs, name, w), name, h)
  {
  }
}
