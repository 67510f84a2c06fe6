/**
 The client's failover: which addresses it knows, and one pass over them that
 follows leader redirects.
 */
module Resolver {
  /** What one call to one address comes to. */
  datatype Result =
    | Answered(value: nat)
    | Redirect(leader: string)   // an error that carries a leader hint
    | Unavailable                // no connection, code Unavailable, or no response in time
    | Rejected                   // any other error

  /** The `n`-th call of a pass, whatever address it goes to. */
  type Network = nat -> Result

  /** How often `addr` occurs in `calls`. */
  function Count(calls: seq<string>, addr: string): nat {
    if calls == [] then 0 else Count(calls[..|calls| - 1], addr) + (if calls[|calls| - 1] == addr then 1 else 0)
  }

  /** The list without repetitions, each address where it occurs first. */
  function Unique(addrs: seq<string>): seq<string> {
    if addrs == [] then [] else
    var before := Unique(addrs[..|addrs| - 1]);
    var last := addrs[|addrs| - 1];
    if last in addrs[..|addrs| - 1] then before else before + [last]
  }

  lemma UniqueStart(addr: string)
    ensures Unique([]) == [] && Unique([addr]) == [addr]
  {
    assert [addr][..0] == [];
  }

  lemma UniqueNext(addrs: seq<string>, addr: string)
    ensures Unique(addrs + [addr]) == if addr in addrs then Unique(addrs) else Unique(addrs) + [addr]
  {
    assert (addrs + [addr])[..|addrs|] == addrs;
  }

  class Resolver {
    var seedAddrs: seq<string>
    var currentAddr: string

    constructor (seeds: seq<string>)
      ensures seedAddrs == seeds && currentAddr == if seeds == [] then "" else seeds[0]
    {
      seedAddrs := seeds;
      currentAddr := if seeds == [] then "" else seeds[0];
    }

    /** The current address first, then every seed in order, each once. */
    method CandidateAddrs() returns (addrs: seq<string>)
      ensures forall a :: a in addrs <==> a in seedAddrs || (a == currentAddr && a != "")
      ensures forall i, j :: 0 <= i < j < |addrs| ==> addrs[i] != addrs[j]
      ensures currentAddr != "" ==> addrs != [] && addrs[0] == currentAddr
      ensures addrs == Unique((if currentAddr != "" then [currentAddr] else []) + seedAddrs)
    {
      hide Unique;
      UniqueStart(currentAddr);
      ghost var known := if currentAddr != "" then [currentAddr] else [];
      addrs := [];
      if currentAddr != "" {
        addrs := [currentAddr];
      }
      assert known + seedAddrs[..0] == known;
      for i := 0 to |seedAddrs|
        invariant forall a :: a in addrs <==> a in seedAddrs[..i] || (a == currentAddr && a != "")
        invariant forall k, j :: 0 <= k < j < |addrs| ==> addrs[k] != addrs[j]
        invariant currentAddr != "" ==> addrs != [] && addrs[0] == currentAddr
        invariant addrs == Unique(known + seedAddrs[..i])
      {
        assert seedAddrs[..i + 1] == seedAddrs[..i] + [seedAddrs[i]];
        assert known + seedAddrs[..i + 1] == known + seedAddrs[..i] + [seedAddrs[i]];
        UniqueNext(known + seedAddrs[..i], seedAddrs[i]);
        if seedAddrs[i] !in addrs {
          addrs := addrs + [seedAddrs[i]];
        }
      }
      assert seedAddrs[..|seedAddrs|] == seedAddrs;
    }

    /** Remembers `addr` as the leader, adding it to the seeds once; the empty address is ignored. */
    method RememberAddr(addr: string)
      modifies this
      ensures addr == "" ==> seedAddrs == old(seedAddrs) && currentAddr == old(currentAddr)
      ensures addr != "" ==> currentAddr == addr
      ensures addr != "" ==> seedAddrs == WithSeed(old(seedAddrs), addr)
    {
      if addr == "" {
        return;
      }
      currentAddr := addr;
      for i := 0 to |seedAddrs|
        invariant addr !in seedAddrs[..i]
        invariant seedAddrs == old(seedAddrs) && currentAddr == addr
      {
        if seedAddrs[i] == addr {
          return;
        }
        assert seedAddrs[..i + 1] == seedAddrs[..i] + [seedAddrs[i]];
      }
      assert seedAddrs[..|seedAddrs|] == seedAddrs;
      seedAddrs := seedAddrs + [addr];
    }

    /**
     One pass over the known addresses, current leader first. `cancelled(k)` says
     whether the caller's context is done when `k` queue entries have been taken.
     The pass ends because all addresses ever named, `universe`, are finitely many.
     */
    method TryCandidates(net: Network, cancelled: nat -> bool, ghost universe: set<string>)
      returns (pass: Pass, calls: seq<string>, taken: nat)
      requires currentAddr in universe && (forall a :: a in seedAddrs ==> a in universe)
      requires forall n :: net(n).Redirect? ==> net(n).leader in universe
      modifies this
      ensures forall a :: Count(calls, a) <= 2
      ensures forall k :: 0 <= k < |calls| - 1 ==> Inconclusive(net(k))
      ensures FollowsHints(net, calls)
      ensures pass.Value? <==> calls != [] && net(|calls| - 1).Answered?
      ensures pass.Value? ==> net(|calls| - 1) == Answered(pass.value) && currentAddr == calls[|calls| - 1]
      ensures pass.Error? ==> Learned(net, |calls|, old(currentAddr), old(seedAddrs), currentAddr, seedAddrs)
      ensures |calls| <= taken && forall k :: 0 <= k < taken ==> !cancelled(k)
      ensures pass.Error? && !pass.retry ==> (calls != [] && net(|calls| - 1).Rejected?) || cancelled(taken)
      ensures cancelled(0) && (old(currentAddr) != "" || old(seedAddrs) != []) ==> calls == [] && pass == Error(false)
      ensures (forall n :: !net(n).Redirect?) ==>
                calls <= Named(Unique((if old(currentAddr) != "" then [old(currentAddr)] else []) + old(seedAddrs)))
      ensures pass.Error? && pass.retry ==>
                && (forall k :: 0 <= k < |calls| ==> Inconclusive(net(k)))
                && (forall a :: a in old(seedAddrs) && a != "" ==> a in calls)
                && (old(currentAddr) != "" ==> old(currentAddr) in calls)
    {
      hide Count, FollowsHints, Going, Learned, Named, Unique;
      var queue := CandidateAddrs();
      ghost var initial := queue;
      var attempts: map<string, nat> := map[];
      taken := 0;
      ghost var slots := AllSlots(universe);
      calls := [];
      assert seedAddrs != [] ==> seedAddrs[0] in queue;
      Begins(net, universe, initial);
      LearnNothing(net, currentAddr, seedAddrs);
      while queue != []
        invariant Going(net, universe, initial, slots, attempts, calls, queue)
        invariant |calls| <= taken && forall k :: 0 <= k < taken ==> !cancelled(k)
        invariant taken == 0 ==> queue == initial
        invariant Learned(net, |calls|, old(currentAddr), old(seedAddrs), currentAddr, seedAddrs)
        decreases slots, |queue|
      {
        GoingMeans(net, universe, initial, slots, attempts, calls, queue);
        if cancelled(taken) {
          return Error(false), calls, taken;
        }
        taken := taken + 1;
        var addr := queue[0];
        if addr == "" || Attempted(attempts, addr) >= 2 {
          Skips(net, universe, initial, slots, attempts, calls, queue);
          queue := queue[1..];
          continue;
        }
        var result := net(|calls|);
        Calls(net, universe, initial, slots, attempts, calls, queue);
        LearnNext(net, |calls|, old(currentAddr), old(seedAddrs), currentAddr, seedAddrs);
        queue := queue[1..];
        slots := slots - {(addr, Attempted(attempts, addr))};
        attempts := attempts[addr := Attempted(attempts, addr) + 1];
        calls := calls + [addr];
        if result.Answered? {
          RememberAddr(addr);
          return Value(result.value), calls, taken;
        }
        if result.Redirect? && result.leader != "" {
          RememberAddr(result.leader);
          queue := [result.leader] + queue;
          continue;
        }
        if result.Rejected? {
          return Error(false), calls, taken;
        }
      }
      GoingMeans(net, universe, initial, slots, attempts, calls, queue);
      pass := Error(true);
    }
  }

  /** The addresses that are not empty, in order. */
  function Named(addrs: seq<string>): seq<string> {
    if addrs == [] then [] else (if addrs[0] == "" then [] else [addrs[0]]) + Named(addrs[1..])
  }

  lemma NamedNext(addrs: seq<string>)
    requires addrs != []
    ensures Named(addrs) == (if addrs[0] == "" then [] else [addrs[0]]) + Named(addrs[1..])
  {
  }

  /** A value, or an error and whether a later pass may succeed. */
  datatype Pass = Value(value: nat) | Error(retry: bool)

  /** A result that leaves the pass going. */
  predicate Inconclusive(r: Result) {
    r.Redirect? || r.Unavailable?
  }

  /** The leader the first `n` results name last, or `start` if none names one. */
  function LastHint(net: Network, n: nat, start: string): string {
    if n == 0 then start
    else if net(n - 1).Redirect? && net(n - 1).leader != "" then net(n - 1).leader
    else LastHint(net, n - 1, start)
  }

  /**
   What the resolver knows after `n` results that answered nothing: the leader named
   last is current, and every leader named is a seed beside those it had.
   */
  ghost predicate Learned(net: Network, n: nat, addr: string, seeds: seq<string>, addr': string, seeds': seq<string>) {
    && addr' == LastHint(net, n, addr)
    && seeds <= seeds'
    && (forall a :: a in seeds' <==>
          a in seeds || exists k :: 0 <= k < n && net(k).Redirect? && net(k).leader == a && a != "")
  }

  lemma LearnNothing(net: Network, addr: string, seeds: seq<string>)
    ensures Learned(net, 0, addr, seeds, addr, seeds)
  {
  }

  /** The seeds with one more, unless it is among them. */
  function WithSeed(seeds: seq<string>, addr: string): seq<string> {
    if addr in seeds then seeds else seeds + [addr]
  }

  lemma LearnNext(net: Network, n: nat, addr: string, seeds: seq<string>, addr': string, seeds': seq<string>)
    requires Learned(net, n, addr, seeds, addr', seeds')
    ensures var r := net(n);
            if r.Redirect? && r.leader != "" then Learned(net, n + 1, addr, seeds, r.leader, WithSeed(seeds', r.leader))
            else Learned(net, n + 1, addr, seeds, addr', seeds')
  {
    var r := net(n);
    if r.Redirect? && r.leader != "" {
      var more := WithSeed(seeds', r.leader);
      forall a ensures a in more <==>
        a in seeds || exists k :: 0 <= k < n + 1 && net(k).Redirect? && net(k).leader == a && a != ""
      {
        assert a in more <==> a in seeds' || a == r.leader;
      }
    }
  }

  function Attempted(attempts: map<string, nat>, addr: string): nat {
    if addr in attempts then attempts[addr] else 0
  }

  /** `attempts` counts the calls to each address, none more than two. */
  ghost predicate Bookkeeping(attempts: map<string, nat>, calls: seq<string>) {
    && (forall a :: Count(calls, a) == Attempted(attempts, a) <= 2)
    && "" !in calls
  }

  /** A redirect to an address that may still be called. */
  predicate Directs(r: Result, calls: seq<string>) {
    r.Redirect? && r.leader != "" && Count(calls, r.leader) < 2
  }

  /** A redirect is followed by the very next call, unless its address was already called twice. */
  ghost predicate FollowsHints(net: Network, calls: seq<string>) {
    forall k :: 0 <= k < |calls| - 1 && Directs(net(k), calls[..k + 1]) ==> calls[k + 1] == net(k).leader
  }

  ghost predicate HintPending(net: Network, calls: seq<string>, queue: seq<string>) {
    calls != [] && Directs(net(|calls| - 1), calls) ==> queue != [] && queue[0] == net(|calls| - 1).leader
  }

  lemma NothingCalled(net: Network)
    ensures Bookkeeping(map[], []) && FollowsHints(net, [])
  {
  }

  /** Calling the first address of the queue keeps the books and follows a pending hint. */
  lemma CallKeeps(net: Network, attempts: map<string, nat>, calls: seq<string>, addr: string, rest: seq<string>)
    requires Bookkeeping(attempts, calls) && FollowsHints(net, calls) && HintPending(net, calls, [addr] + rest)
    requires addr != "" && Attempted(attempts, addr) < 2
    ensures Bookkeeping(attempts[addr := Attempted(attempts, addr) + 1], calls + [addr])
    ensures FollowsHints(net, calls + [addr])
    ensures forall a :: Count(calls + [addr], a) <= 2
  {
    var longer := calls + [addr];
    assert longer[..|calls|] == calls;
    forall a ensures Count(longer, a) == Attempted(attempts[addr := Attempted(attempts, addr) + 1], a) <= 2 {
      assert Count(calls, a) == Attempted(attempts, a) <= 2;
    }
    forall k | 0 <= k < |longer| - 1 && Directs(net(k), longer[..k + 1]) ensures longer[k + 1] == net(k).leader {
      assert longer[..k + 1] == calls[..k + 1];
      assert k == |calls| - 1 ==> calls[..k + 1] == calls;
    }
  }

  /** Two calls for every address. */
  ghost function AllSlots(universe: set<string>): set<(string, int)> {
    set a, k | a in universe && k in {0, 1} :: (a, k)
  }

  /** Every initial address is queued or called, and every queued one has its unused calls among `slots`. */
  ghost predicate Reaches(universe: set<string>, initial: seq<string>, slots: set<(string, int)>,
                          attempts: map<string, nat>, calls: seq<string>, queue: seq<string>)
  {
    && (forall a, k: nat :: a in universe && Attempted(attempts, a) <= k < 2 ==> (a, k) in slots)
    && (forall a :: a in queue ==> a in universe)
    && (forall a :: a in initial && a != "" ==> a in queue || a in calls)
  }

  lemma ReachesAfterCall(universe: set<string>, initial: seq<string>, slots: set<(string, int)>,
                         attempts: map<string, nat>, calls: seq<string>, queue: seq<string>)
    requires Reaches(universe, initial, slots, attempts, calls, queue) && queue != []
    requires Attempted(attempts, queue[0]) < 2
    ensures var addr := queue[0];
            && (addr, Attempted(attempts, addr)) in slots
            && Reaches(universe, initial, slots - {(addr, Attempted(attempts, addr))},
                       attempts[addr := Attempted(attempts, addr) + 1], calls + [addr], queue[1..])
  {
    var addr := queue[0];
    assert queue == [addr] + queue[1..];
    assert forall a :: a in calls + [addr] <==> a in calls || a == addr;
  }

  lemma ReachesMore(universe: set<string>, initial: seq<string>, slots: set<(string, int)>,
                    attempts: map<string, nat>, calls: seq<string>, queue: seq<string>, addr: string)
    requires Reaches(universe, initial, slots, attempts, calls, queue) && addr in universe
    ensures Reaches(universe, initial, slots, attempts, calls, [addr] + queue)
  {
    assert forall a :: a in [addr] + queue <==> a in queue || a == addr;
  }

  /** The state of a pass that is still going; `slots` are the calls each address has left. */
  ghost predicate Going(net: Network, universe: set<string>, initial: seq<string>, slots: set<(string, int)>,
                        attempts: map<string, nat>, calls: seq<string>, queue: seq<string>)
  {
    && Bookkeeping(attempts, calls) && FollowsHints(net, calls) && HintPending(net, calls, queue)
    && Reaches(universe, initial, slots, attempts, calls, queue)
    && (forall k :: 0 <= k < |calls| ==> Inconclusive(net(k)))
    && Distinct(initial) && InOrder(net, initial, calls, queue)
  }

  ghost predicate Distinct(addrs: seq<string>) {
    forall i, j :: 0 <= i < j < |addrs| ==> addrs[i] != addrs[j]
  }

  /** Without redirects, the addresses are called in the order of the initial queue. */
  ghost predicate InOrder(net: Network, initial: seq<string>, calls: seq<string>, queue: seq<string>) {
    (forall n :: !net(n).Redirect?) ==> Named(initial) == calls + Named(queue)
  }

  lemma {:induction false} NamedDistinct(addrs: seq<string>)
    requires Distinct(addrs)
    ensures Distinct(Named(addrs)) && forall a :: a in Named(addrs) ==> a in addrs
  {
    if addrs != [] {
      var rest := Named(addrs[1..]);
      NamedDistinct(addrs[1..]);
      forall j | 0 <= j < |rest| ensures rest[j] != addrs[0] {
        assert rest[j] in addrs[1..];
      }
      assert addrs[0] != "" ==> Named(addrs) == [addrs[0]] + rest;
      assert addrs[0] == "" ==> Named(addrs) == rest;
    }
  }

  lemma SkipInOrder(net: Network, initial: seq<string>, calls: seq<string>, queue: seq<string>)
    requires Distinct(initial) && InOrder(net, initial, calls, queue) && queue != []
    requires queue[0] == "" || queue[0] in calls
    ensures InOrder(net, initial, calls, queue[1..])
  {
    NamedNext(queue);
    NamedDistinct(initial);
    hide Named;
    if (forall n :: !net(n).Redirect?) && queue[0] != "" {
      var i :| 0 <= i < |calls| && calls[i] == queue[0];
      assert Named(initial)[i] == Named(initial)[|calls|];
    }
  }

  lemma CallInOrder(net: Network, initial: seq<string>, calls: seq<string>, queue: seq<string>)
    requires InOrder(net, initial, calls, queue) && queue != [] && queue[0] != ""
    ensures InOrder(net, initial, calls + [queue[0]], queue[1..])
  {
    NamedNext(queue);
    hide Named;
    assert calls + ([queue[0]] + Named(queue[1..])) == calls + [queue[0]] + Named(queue[1..]);
  }

  lemma Begins(net: Network, universe: set<string>, initial: seq<string>)
    requires Distinct(initial) && forall a :: a in initial ==> a in universe
    ensures Going(net, universe, initial, AllSlots(universe), map[], [], initial)
  {
    assert [] + Named(initial) == Named(initial);
    NothingCalled(net);
  }

  lemma GoingMeans(net: Network, universe: set<string>, initial: seq<string>, slots: set<(string, int)>,
                   attempts: map<string, nat>, calls: seq<string>, queue: seq<string>)
    requires Going(net, universe, initial, slots, attempts, calls, queue)
    ensures FollowsHints(net, calls) && (forall a :: Count(calls, a) <= 2)
    ensures forall k :: 0 <= k < |calls| ==> Inconclusive(net(k))
    ensures queue == [] ==> forall a :: a in initial && a != "" ==> a in calls
    ensures (forall n :: !net(n).Redirect?) ==> calls <= Named(initial)
  {
    assert forall a :: Count(calls, a) == Attempted(attempts, a);
  }

  /** An empty or exhausted address is dropped without a call. */
  lemma Skips(net: Network, universe: set<string>, initial: seq<string>, slots: set<(string, int)>,
              attempts: map<string, nat>, calls: seq<string>, queue: seq<string>)
    requires Going(net, universe, initial, slots, attempts, calls, queue) && queue != []
    requires queue[0] == "" || Attempted(attempts, queue[0]) >= 2
    ensures Going(net, universe, initial, slots, attempts, calls, queue[1..])
  {
    hide FollowsHints, InOrder;
    var addr := queue[0];
    AttemptedIsCalled(attempts, calls, addr);
    SkipInOrder(net, initial, calls, queue);
    assert queue == [addr] + queue[1..];
    assert Count(calls, addr) == Attempted(attempts, addr);
  }

  /** One call uses a slot of its address; a redirect goes to the front of the queue. */
  lemma Calls(net: Network, universe: set<string>, initial: seq<string>, slots: set<(string, int)>,
              attempts: map<string, nat>, calls: seq<string>, queue: seq<string>)
    requires Going(net, universe, initial, slots, attempts, calls, queue) && queue != []
    requires queue[0] != "" && Attempted(attempts, queue[0]) < 2
    requires forall n :: net(n).Redirect? ==> net(n).leader in universe
    ensures var addr := queue[0];
            var slots' := slots - {(addr, Attempted(attempts, addr))};
            var attempts' := attempts[addr := Attempted(attempts, addr) + 1];
            var calls' := calls + [addr];
            && (addr, Attempted(attempts, addr)) in slots
            && FollowsHints(net, calls') && (forall a :: Count(calls', a) <= 2)
            && ((forall n :: !net(n).Redirect?) ==> calls' <= Named(initial))
            && (var result := net(|calls|);
                && (result.Unavailable? || result == Redirect("") ==>
                      Going(net, universe, initial, slots', attempts', calls', queue[1..]))
                && (result.Redirect? && result.leader != "" ==>
                      Going(net, universe, initial, slots', attempts', calls', [result.leader] + queue[1..])))
  {
    CallInOrder(net, initial, calls, queue);
    hide Count, FollowsHints, Reaches, Bookkeeping, Named;
    var addr := queue[0];
    var slots' := slots - {(addr, Attempted(attempts, addr))};
    var attempts', calls' := attempts[addr := Attempted(attempts, addr) + 1], calls + [addr];
    assert queue == [addr] + queue[1..];
    CallKeeps(net, attempts, calls, addr, queue[1..]);
    ReachesAfterCall(universe, initial, slots, attempts, calls, queue);
    if net(|calls|).Redirect? {
      ReachesMore(universe, initial, slots', attempts', calls', queue[1..], net(|calls|).leader);
    }
  }

  lemma {:induction false} CountIsMember(calls: seq<string>, addr: string)
    ensures 0 < Count(calls, addr) <==> addr in calls
  {
    if calls != [] {
      CountIsMember(calls[..|calls| - 1], addr);
      assert calls == calls[..|calls| - 1] + [calls[|calls| - 1]];
    }
  }

  lemma AttemptedIsCalled(attempts: map<string, nat>, calls: seq<string>, addr: string)
    requires Bookkeeping(attempts, calls)
    ensures 0 < Attempted(attempts, addr) ==> addr in calls
  {
    CountIsMember(calls, addr);
    assert Count(calls, addr) == Attempted(attempts, addr);
  }
}
