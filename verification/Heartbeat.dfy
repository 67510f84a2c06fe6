/**
 The client's heartbeat loop: when a session whose renewals fail is ended, and
 which request a heartbeat's reply answers. Times and durations are nanoseconds
 of the client's own clock.
 */
module Heartbeat {
  import opened Domain

  /**
   What the network does to one renewal attempt: the acknowledgement, good or
   bad, arrives after `took`; and how long after the tick that started it the
   ticker fires next. Both are arbitrary.
   */
  datatype Attempt = Attempt(acknowledged: bool, took: nat, nextTick: nat)

  /** The renewal interval, a third of the TTL. */
  function Interval(ttl: int): int {
    ttl / 3
  }

  /** When the loop gives up, a quarter TTL before the last proof of life runs out. */
  function GiveUpAt(confirmedAt: int, ttl: int): int {
    confirmedAt + (ttl - ttl / 4)
  }

  /** The latest instant a session can be alive on a proof from `confirmedAt`, in steady state. */
  function LatestEnd(confirmedAt: int, ttl: int): int {
    GiveUpAt(confirmedAt, ttl) + MILLISECOND
  }

  /** The same for the first proof, the creation sent at `createSentAt` with the loop started at `loopStart`. */
  function FirstLatestEnd(createSentAt: int, loopStart: int, ttl: int): (end: int)
    ensures LatestEnd(createSentAt, ttl) <= end && loopStart + 2 * Interval(ttl) <= end
  {
    if LatestEnd(createSentAt, ttl) < loopStart + 2 * Interval(ttl)
    then loopStart + 2 * Interval(ttl) else LatestEnd(createSentAt, ttl)
  }

  /** The two bounds in numbers. */
  lemma LatestEndsAre(confirmedAt: int, loopStart: int, ttl: int)
    ensures LatestEnd(confirmedAt, ttl) == confirmedAt + (ttl - ttl / 4) + 1_000_000
    ensures FirstLatestEnd(confirmedAt, loopStart, ttl) ==
            Max(confirmedAt + (ttl - ttl / 4) + 1_000_000, loopStart + 2 * (ttl / 3))
  {
  }

  /** Every session ends strictly before its last proof of life runs out. */
  lemma EndsBeforeProofRunsOut(confirmedAt: int, ttl: int)
    requires SECOND <= ttl
    ensures LatestEnd(confirmedAt, ttl) < confirmedAt + ttl
    ensures forall loopStart :: loopStart < confirmedAt + Interval(ttl) ==>
              FirstLatestEnd(confirmedAt, loopStart, ttl) < confirmedAt + ttl
  {
  }

  function Min(a: int, b: int): int {
    if a < b then a else b
  }

  function Max(a: int, b: int): int {
    if a < b then b else a
  }

  const FIRST_BACKOFF := 50 * MILLISECOND
  const MAX_BACKOFF := 500 * MILLISECOND

  function NextBackoff(backoff: int): int {
    Min(2 * backoff, MAX_BACKOFF)
  }

  /** How long a retry sent at `now` may take. */
  function RetryTimeout(now: int, giveUpAt: int, ttl: int): int {
    Min(Interval(ttl), Max(giveUpAt - now, MILLISECOND))
  }

  // ------------------------------------------------------------ the loop in steps

  /** Where the loop is, and the timer it is waiting on; `nextFire` is when the ticker fires next. */
  datatype Phase =
    | Waiting(nextFire: int)
    | Attempting(sentAt: int, until: int, nextFire: int)
    | BackingOff(until: int, backoff: int, nextFire: int)
    | Retrying(sentAt: int, until: int, backoff: int, nextFire: int)
    | GivenUp

  datatype Loop = Loop(ttl: int, confirmedAt: int, phase: Phase)

  /** What moves the loop on: the ticker, the end of an attempt, the end of a backoff. */
  datatype Beat =
    | TickFires(nextTick: nat)
    | Acked
    | Fails
    | BackoffOver

  function Started(createSentAt: int, loopStart: int, ttl: int): Loop {
    Loop(ttl, createSentAt, Waiting(loopStart + Interval(ttl)))
  }

  predicate MayBeat(l: Loop, now: int, b: Beat) {
    match b
    case TickFires(_) => l.phase.Waiting? && l.phase.nextFire <= now
    case Acked => l.phase.Attempting? || l.phase.Retrying?
    case Fails => l.phase.Attempting? || l.phase.Retrying?
    case BackoffOver => l.phase.BackingOff? && l.phase.until <= now
  }

  /** After a failed attempt: back off, or give up. */
  function Failing(confirmedAt: int, ttl: int, now: int, backoff: int, nextFire: int): Phase {
    var remaining := GiveUpAt(confirmedAt, ttl) - now;
    if remaining <= 0 then GivenUp
    else BackingOff(now + Min(backoff, remaining), NextBackoff(backoff), nextFire)
  }

  function DoBeat(l: Loop, now: int, b: Beat): Loop
    requires MayBeat(l, now, b)
  {
    match b
    case TickFires(nextTick) =>
      l.(phase := Attempting(now, now + Interval(l.ttl), now + Min(nextTick, Interval(l.ttl))))
    case Acked => Loop(l.ttl, l.phase.sentAt, Waiting(l.phase.nextFire))
    case Fails =>
      var backoff := if l.phase.Attempting? then FIRST_BACKOFF else l.phase.backoff;
      l.(phase := Failing(l.confirmedAt, l.ttl, now, backoff, l.phase.nextFire))
    case BackoffOver =>
      var timeout := RetryTimeout(now, GiveUpAt(l.confirmedAt, l.ttl), l.ttl);
      l.(phase := Retrying(now, now + timeout, l.phase.backoff, l.phase.nextFire))
  }

  /** Time may pass up to the pending timer, and no further: an attempt ends by its timeout, a timer is met when due. */
  predicate MayPass(l: Loop, now: int, to: int) {
    && now <= to
    && match l.phase
       case Waiting(nextFire) => to <= Max(now, nextFire)
       case Attempting(_, until, _) => to <= until
       case BackingOff(until, _, _) => to <= until
       case Retrying(_, until, _, _) => to <= until
       case GivenUp => true
  }

  /**
   What holds in every step of a session that has not ended: `lastFire` bounds the
   tick the current proof of life has to be renewed from.
   */
  ghost predicate LoopOk(l: Loop, lastFire: int, now: int) {
    var interval, giveUpAt := Interval(l.ttl), GiveUpAt(l.confirmedAt, l.ttl);
    && SECOND <= l.ttl
    && l.confirmedAt <= now
    && match l.phase
       case Waiting(nextFire) => now <= lastFire && nextFire <= lastFire
       case Attempting(sentAt, until, nextFire) =>
         && l.confirmedAt <= sentAt <= Min(now, lastFire)
         && now <= until == sentAt + interval && nextFire <= sentAt + interval
       case BackingOff(until, backoff, nextFire) =>
         now <= until <= giveUpAt && 0 < backoff && nextFire <= now + interval
       case Retrying(sentAt, until, backoff, nextFire) =>
         && l.confirmedAt <= sentAt <= Min(now, giveUpAt)
         && now <= until <= Min(giveUpAt + MILLISECOND, sentAt + interval)
         && 0 < backoff && nextFire <= sentAt + interval
       case GivenUp => giveUpAt <= now
  }

  /** A new proof of life starts a new bound; every other beat keeps the one it had. */
  function LastFire(l: Loop, lastFire: int, b: Beat): int
    requires b.Acked? ==> l.phase.Attempting? || l.phase.Retrying?
  {
    if b.Acked? then l.phase.sentAt + Interval(l.ttl) else lastFire
  }

  lemma BeatKeepsLoop(l: Loop, lastFire: int, now: int, b: Beat)
    requires LoopOk(l, lastFire, now) && MayBeat(l, now, b)
    ensures LoopOk(DoBeat(l, now, b), LastFire(l, lastFire, b), now)
  {
  }

  lemma PassKeepsLoop(l: Loop, lastFire: int, now: int, to: int)
    requires LoopOk(l, lastFire, now) && MayPass(l, now, to)
    ensures LoopOk(l, lastFire, to)
  {
  }

  lemma StartedLoopOk(createSentAt: int, loopStart: int, ttl: int)
    requires SECOND <= ttl && createSentAt <= loopStart
    ensures LoopOk(Started(createSentAt, loopStart, ttl), loopStart + Interval(ttl), loopStart)
  {
  }

  /** A session that has not ended is within its latest end, on a first proof and on any later one. */
  lemma LoopBounded(l: Loop, lastFire: int, now: int)
    requires LoopOk(l, lastFire, now) && !l.phase.GivenUp?
    ensures now <= l.confirmedAt + (l.ttl - l.ttl / 4) + 1_000_000 || now <= lastFire + l.ttl / 3
    ensures lastFire == l.confirmedAt + l.ttl / 3 ==> now <= l.confirmedAt + (l.ttl - l.ttl / 4) + 1_000_000
  {
  }

  /** Whenever a timer holds time back, a step without any reply lets time pass again. */
  lemma TimerIsMet(l: Loop, lastFire: int, now: int)
    requires LoopOk(l, lastFire, now) && !MayPass(l, now, now + 1)
    ensures exists b :: MayBeat(l, now, b) && !b.Acked? && MayPass(DoBeat(l, now, b), now, now + 1)
  {
    var b := if l.phase.Waiting? then TickFires(0) else if l.phase.BackingOff? then BackoffOver else Fails;
    assert MayBeat(l, now, b) && MayPass(DoBeat(l, now, b), now, now + 1);
  }

  datatype Move = Elapse(to: int) | Take(beat: Beat)

  /** The steps take the loop from `l` at `now` to `l'` at `now'`. */
  ghost predicate Moves(l: Loop, now: int, moves: seq<Move>, l': Loop, now': int) {
    if moves == [] then l' == l && now' == now else
    match moves[|moves| - 1]
    case Elapse(to) => to == now' && exists at :: Moves(l, now, moves[..|moves| - 1], l', at) && MayPass(l', at, to)
    case Take(b) =>
      exists m :: Moves(l, now, moves[..|moves| - 1], m, now') && MayBeat(m, now', b) && DoBeat(m, now', b) == l'
  }

  ghost predicate Reaches(l: Loop, now: int, l': Loop, now': int) {
    exists moves :: Moves(l, now, moves, l', now')
  }

  lemma ReachStart(l: Loop, now: int)
    ensures Reaches(l, now, l, now)
  {
    assert Moves(l, now, [], l, now);
  }

  lemma ReachPass(l0: Loop, now0: int, l: Loop, now: int, to: int)
    requires Reaches(l0, now0, l, now) && MayPass(l, now, to)
    ensures Reaches(l0, now0, l, to)
  {
    var moves :| Moves(l0, now0, moves, l, now);
    var longer := moves + [Elapse(to)];
    assert longer[..|longer| - 1] == moves;
    assert Moves(l0, now0, longer, l, to);
  }

  lemma ReachBeat(l0: Loop, now0: int, l: Loop, now: int, b: Beat)
    requires Reaches(l0, now0, l, now) && MayBeat(l, now, b)
    ensures Reaches(l0, now0, DoBeat(l, now, b), now)
  {
    var moves :| Moves(l0, now0, moves, l, now);
    var longer := moves + [Take(b)];
    assert longer[..|longer| - 1] == moves;
    assert Moves(l0, now0, longer, DoBeat(l, now, b), now);
  }

  // ------------------------------------------------------------------- the code

  /** The acknowledgement comes in time. */
  predicate Succeeds(attempt: Attempt, timeout: int) {
    attempt.acknowledged && attempt.took <= timeout
  }

  /** One renewal attempt: it returns when acknowledged or when its timeout fires, whichever is first. */
  method AttemptWithin(attempt: Attempt, now: int, timeout: int) returns (ok: bool, done: int)
    requires 0 <= timeout
    ensures ok <==> attempt.acknowledged && attempt.took <= timeout
    ensures done == now + if attempt.took < timeout then attempt.took else timeout
  {
    ok := attempt.acknowledged && attempt.took <= timeout;
    done := now + Min(attempt.took, timeout);
  }

  /** One attempt as it went: when it was sent, how long it might take, and when it returned. */
  datatype Try = Try(sentAt: int, timeout: int, done: int)

  /** The wait before the `k`-th retry of a round, counted from 0. */
  function BackoffBefore(k: nat): int {
    if k == 0 then 50_000_000 else if k == 1 then 100_000_000 else if k == 2 then 200_000_000
    else if k == 3 then 400_000_000 else 500_000_000
  }

  /** The `k`-th attempt of a round, a retry, follows the failure before it, which left time until `giveUpAt`. */
  predicate Follows(k: nat, failedAt: int, try: Try, giveUpAt: int, ttl: int)
    requires 0 < k
  {
    && failedAt < giveUpAt
    && try.sentAt == failedAt + Min(BackoffBefore(k - 1), giveUpAt - failedAt)
    && try.timeout == Min(ttl / 3, Max(giveUpAt - try.sentAt, 1_000_000))
  }

  /**
   The attempts of round `t`, on a proof of life from `confirmedAt`: the tick's own
   attempt has a third of the TTL, the retries follow it with growing backoffs, and
   all but the last failed.
   */
  ghost predicate Round(env: (nat, nat) -> Attempt, t: nat, tries: seq<Try>, confirmedAt: int, ttl: int) {
    var giveUpAt := confirmedAt + (ttl - ttl / 4);
    && tries != [] && tries[0].timeout == ttl / 3
    && (forall k :: 0 <= k < |tries| ==> tries[k].done == tries[k].sentAt + Min(env(t, k).took, tries[k].timeout))
    && (forall k :: 0 < k < |tries| ==> Follows(k, tries[k - 1].done, tries[k], giveUpAt, ttl))
    && (forall k :: 0 <= k < |tries| - 1 ==> !Succeeds(env(t, k), tries[k].timeout))
  }

  /** How the last attempt of a round went. */
  ghost predicate Recovered(env: (nat, nat) -> Attempt, t: nat, tries: seq<Try>)
    requires tries != []
  {
    Succeeds(env(t, |tries| - 1), tries[|tries| - 1].timeout)
  }

  lemma RoundNext(env: (nat, nat) -> Attempt, t: nat, tries: seq<Try>, confirmedAt: int, ttl: int, try: Try)
    requires Round(env, t, tries, confirmedAt, ttl) && !Recovered(env, t, tries)
    requires Follows(|tries|, tries[|tries| - 1].done, try, confirmedAt + (ttl - ttl / 4), ttl)
    requires try.done == try.sentAt + Min(env(t, |tries|).took, try.timeout)
    ensures Round(env, t, tries + [try], confirmedAt, ttl)
    ensures Recovered(env, t, tries + [try]) <==> Succeeds(env(t, |tries|), try.timeout)
  {
    var longer := tries + [try];
    assert forall k :: 0 <= k < |tries| ==> longer[k] == tries[k];
  }

  /**
   The retry loop entered after the attempt of round `t` failed, with the ticker
   due at `nextFire`. It always terminates: every attempt moves time on, and they
   stop once `GiveUpAt` is reached. It recovers with a renewal sent before then,
   or gives up at or after it, within a millisecond. It makes only the steps above.
   */
  method Retry(env: (nat, nat) -> Attempt, t: nat, first: Try, confirmedAt: int, ttl: int, ghost nextFire: int)
    returns (recovered: bool, tries: seq<Try>, ghost loop: Loop)
    requires SECOND <= ttl && Round(env, t, [first], confirmedAt, ttl) && !Succeeds(env(t, 0), first.timeout)
    ensures Round(env, t, tries, confirmedAt, ttl) && tries != [] && tries[0] == first
    ensures recovered <==> Recovered(env, t, tries)
    ensures first.done <= tries[|tries| - 1].done
    ensures recovered ==> first.done < tries[|tries| - 1].sentAt <= confirmedAt + (ttl - ttl / 4)
    ensures tries[|tries| - 1].done <= Max(first.done, confirmedAt + (ttl - ttl / 4) + 1_000_000)
    ensures !recovered ==> confirmedAt + (ttl - ttl / 4) <= tries[|tries| - 1].done
    ensures var failed := Loop(ttl, confirmedAt, Failing(confirmedAt, ttl, first.done, FIRST_BACKOFF, nextFire));
            Reaches(failed, first.done, loop, tries[|tries| - 1].done)
    ensures loop == if recovered then Loop(ttl, tries[|tries| - 1].sentAt, Waiting(nextFire))
                    else Loop(ttl, confirmedAt, GivenUp)
  {
    hide Reaches, Round, Recovered;
    var giveUpAt := GiveUpAt(confirmedAt, ttl);
    var backoff := FIRST_BACKOFF;
    var now, sentAt := first.done, first.sentAt;
    ghost var l0 := Loop(ttl, confirmedAt, Failing(confirmedAt, ttl, first.done, backoff, nextFire));
    loop := l0;
    ReachStart(l0, first.done);
    FailedFirst(env, t, first);
    recovered, tries := false, [first];
    while !recovered
      invariant tries != [] && tries[0] == first
      invariant tries[|tries| - 1].done == now && tries[|tries| - 1].sentAt == sentAt
      invariant backoff == BackoffBefore(|tries| - 1)
      invariant first.done <= now <= Max(first.done, giveUpAt + MILLISECOND)
      invariant recovered ==> first.done < sentAt <= giveUpAt
      invariant Round(env, t, tries, confirmedAt, ttl) && (recovered <==> Recovered(env, t, tries))
      invariant Reaches(l0, first.done, loop, now)
      invariant loop == if recovered then Loop(ttl, sentAt, Waiting(nextFire))
                        else Loop(ttl, confirmedAt, Failing(confirmedAt, ttl, now, backoff, nextFire))
      decreases !recovered, giveUpAt - now
    {
      var remaining := giveUpAt - now;
      if remaining <= 0 {
        return;
      }
      ReachPass(l0, first.done, loop, now, loop.phase.until);
      now := now + Min(backoff, remaining);
      backoff := NextBackoff(backoff);

      sentAt := now;
      ReachBeat(l0, first.done, loop, now, BackoffOver);
      loop := DoBeat(loop, now, BackoffOver);
      var timeout := RetryTimeout(now, giveUpAt, ttl);
      recovered, now := AttemptWithin(env(t, |tries|), now, timeout);
      RoundNext(env, t, tries, confirmedAt, ttl, Try(sentAt, timeout, now));
      tries := tries + [Try(sentAt, timeout, now)];
      ReachPass(l0, first.done, loop, sentAt, now);
      ghost var b := if recovered then Acked else Fails;
      ReachBeat(l0, first.done, loop, now, b);
      loop := DoBeat(loop, now, b);
    }
  }

  lemma FailedFirst(env: (nat, nat) -> Attempt, t: nat, first: Try)
    ensures Recovered(env, t, [first]) <==> Succeeds(env(t, 0), first.timeout)
  {
  }

  lemma ReachesJoin(a: Loop, at: int, b: Loop, bt: int, c: Loop, ct: int)
    requires Reaches(a, at, b, bt) && Reaches(b, bt, c, ct)
    ensures Reaches(a, at, c, ct)
  {
    var moves :| Moves(b, bt, moves, c, ct);
    JoinMoves(a, at, b, bt, moves, c, ct);
  }

  lemma {:induction false} JoinMoves(a: Loop, at: int, b: Loop, bt: int, moves: seq<Move>, c: Loop, ct: int)
    requires Reaches(a, at, b, bt) && Moves(b, bt, moves, c, ct)
    ensures Reaches(a, at, c, ct)
    decreases |moves|
  {
    hide Reaches;
    if moves != [] {
      var before := moves[..|moves| - 1];
      match moves[|moves| - 1] {
        case Elapse(to) =>
          var mid :| Moves(b, bt, before, c, mid) && MayPass(c, mid, to);
          JoinMoves(a, at, b, bt, before, c, mid);
          ReachPass(a, at, c, mid, to);
        case Take(beat) =>
          var m :| Moves(b, bt, before, m, ct) && MayBeat(m, ct, beat) && DoBeat(m, ct, beat) == c;
          JoinMoves(a, at, b, bt, before, m, ct);
          ReachBeat(a, at, m, ct, beat);
      }
    }
  }

  /** The steps of one tick: wait for it, attempt, and succeed or fail at `done`. */
  lemma TickSteps(l0: Loop, start: int, l: Loop, now: int, nextTick: nat, done: int, ok: bool)
    requires Reaches(l0, start, l, now) && l.phase.Waiting?
    requires Max(now, l.phase.nextFire) <= done <= Max(now, l.phase.nextFire) + Interval(l.ttl)
    ensures var fire := Max(now, l.phase.nextFire);
            var nextFire := fire + Min(nextTick, Interval(l.ttl));
            var failed := l.(phase := Failing(l.confirmedAt, l.ttl, done, FIRST_BACKOFF, nextFire));
            Reaches(l0, start, if ok then Loop(l.ttl, fire, Waiting(nextFire)) else failed, done)
  {
    hide Reaches;
    var fire := Max(now, l.phase.nextFire);
    ReachPass(l0, start, l, now, fire);
    ReachBeat(l0, start, l, fire, TickFires(nextTick));
    var trying := DoBeat(l, fire, TickFires(nextTick));
    ReachPass(l0, start, trying, fire, done);
    ReachBeat(l0, start, trying, done, if ok then Acked else Fails);
  }

  function Last(tries: seq<Try>): Try {
    if tries == [] then Try(0, 0, 0) else tries[|tries| - 1]
  }

  /** The round before round `t`, if there is one. */
  function Before(rounds: seq<seq<Try>>, t: nat): seq<Try>
    requires t <= |rounds|
  {
    if t == 0 then [] else rounds[t - 1]
  }

  /** The proof of life a round starts from: the last request of the round before, or the creation. */
  function ProofOf(before: seq<Try>, createSentAt: int): int {
    if before == [] then createSentAt else Last(before).sentAt
  }

  /** When a round starts: at the ticker's next tick, or at once if that fired during the round before. */
  function FireOf(before: seq<Try>, nextTick: nat, loopStart: int, ttl: int): int {
    if before == [] then loopStart + ttl / 3
    else Max(Last(before).done, before[0].sentAt + Min(nextTick, ttl / 3))
  }

  /** How long after its own tick the round before `t` has the ticker fire next. */
  function TickBefore(env: (nat, nat) -> Attempt, t: nat): nat {
    if t == 0 then 0 else env(t - 1, 0).nextTick
  }

  ghost predicate RoundAt(env: (nat, nat) -> Attempt, t: nat, before: seq<Try>, tries: seq<Try>, ok: bool,
                          createSentAt: int, loopStart: int, ttl: int)
  {
    && Round(env, t, tries, ProofOf(before, createSentAt), ttl)
    && (Recovered(env, t, tries) <==> ok)
    && tries[0].sentAt == FireOf(before, TickBefore(env, t), loopStart, ttl)
  }

  /** The rounds of a loop, of which the first `renewals` ended with an acknowledgement. */
  ghost predicate Timeline(env: (nat, nat) -> Attempt, rounds: seq<seq<Try>>, renewals: nat,
                           createSentAt: int, loopStart: int, ttl: int)
  {
    forall t :: 0 <= t < |rounds| ==>
      RoundAt(env, t, Before(rounds, t), rounds[t], t < renewals, createSentAt, loopStart, ttl)
  }

  lemma TimelineNext(env: (nat, nat) -> Attempt, rounds: seq<seq<Try>>, createSentAt: int, loopStart: int, ttl: int,
                     tries: seq<Try>, ok: bool)
    requires Timeline(env, rounds, |rounds|, createSentAt, loopStart, ttl)
    requires RoundAt(env, |rounds|, Before(rounds, |rounds|), tries, ok, createSentAt, loopStart, ttl)
    ensures Timeline(env, rounds + [tries], |rounds| + if ok then 1 else 0, createSentAt, loopStart, ttl)
    ensures Before(rounds + [tries], |rounds| + 1) == tries
    ensures forall t: nat :: t <= |rounds| ==> Before(rounds + [tries], t) == Before(rounds, t)
  {
    hide RoundAt;
    var longer := rounds + [tries];
    assert forall t :: 0 <= t < |rounds| ==> longer[t] == rounds[t] && Before(longer, t) == Before(rounds, t);
  }

  /**
   The heartbeat loop over its first `ticks` ticks, from a lease whose creation
   was sent at `createSentAt`, against any network behaviour. It makes only the
   steps above, and its rounds follow the timeline.

   The session is never alive past its latest end, neither on the proof it has
   nor, up to the acknowledgement that replaced it, on the `previous` one. It is
   ended only once a quarter TTL or less of proof is left, and, once one renewal
   has succeeded, never without at least one retry; and never while the attempt of
   every tick is acknowledged within a third of the TTL.
   */
  method Run(env: (nat, nat) -> Attempt, ticks: nat, createSentAt: int, loopStart: int, ttl: int)
    returns (ended: bool, now: int, confirmedAt: int, previous: int, renewals: nat, rounds: seq<seq<Try>>,
             ghost loop: Loop)
    requires SECOND <= ttl && createSentAt <= loopStart
    ensures Timeline(env, rounds, renewals, createSentAt, loopStart, ttl)
    ensures |rounds| == renewals + if ended then 1 else 0
    ensures confirmedAt == ProofOf(Before(rounds, renewals), createSentAt)
    ensures rounds != [] ==> now == Last(rounds[|rounds| - 1]).done
    ensures renewals <= ticks && (!ended <==> renewals == ticks)
    ensures renewals == 0 ==>
              now <= Max(createSentAt + (ttl - ttl / 4) + 1_000_000, loopStart + 2 * (ttl / 3))
    ensures 0 < renewals ==> loopStart <= confirmedAt <= now <= confirmedAt + (ttl - ttl / 4) + 1_000_000
    ensures renewals == 1 && !ended ==>
              now <= Max(createSentAt + (ttl - ttl / 4) + 1_000_000, loopStart + 2 * (ttl / 3))
    ensures 0 < renewals ==> previous == ProofOf(Before(rounds, renewals - 1), createSentAt) <= confirmedAt
    ensures 1 < renewals && !ended ==> now <= previous + (ttl - ttl / 4) + 1_000_000
    ensures ended ==> confirmedAt + (ttl - ttl / 4) <= now
    ensures ended && 0 < renewals ==> 1 < |rounds[renewals]|
    ensures (forall t :: Succeeds(env(t, 0), ttl / 3)) ==> !ended
    ensures Reaches(Started(createSentAt, loopStart, ttl), loopStart, loop, now)
    ensures loop.confirmedAt == confirmedAt && (ended <==> loop.phase.GivenUp?)
  {
    hide Reaches, Failing, Round, Recovered, Timeline, RoundAt, Before, ProofOf, FireOf;
    NoRounds(env, createSentAt, loopStart, ttl);
    var interval := Interval(ttl);
    ended, now, confirmedAt, previous, renewals, rounds := false, loopStart, createSentAt, createSentAt, 0, [];
    var nextFire := loopStart + interval;
    ghost var l0 := Started(createSentAt, loopStart, ttl);
    loop := l0;
    ReachStart(l0, loopStart);
    for tick := 0 to ticks
      invariant !ended
      invariant renewals == |rounds| == tick
      invariant Timeline(env, rounds, renewals, createSentAt, loopStart, ttl)
      invariant confirmedAt == ProofOf(Before(rounds, renewals), createSentAt)
      invariant rounds != [] ==> now == Last(rounds[|rounds| - 1]).done
      invariant Max(now, nextFire) == FireOf(Before(rounds, renewals), TickBefore(env, tick), loopStart, ttl)
      invariant renewals == 0 ==> now == loopStart && nextFire == loopStart + interval
      invariant 0 < renewals ==> loopStart <= confirmedAt <= now <= confirmedAt + interval
      invariant renewals == 1 ==> now <= Max(createSentAt + (ttl - ttl / 4) + 1_000_000, loopStart + 2 * interval)
      invariant 0 < renewals ==> previous == ProofOf(Before(rounds, renewals - 1), createSentAt) <= confirmedAt
      invariant 1 < renewals ==> now <= previous + (ttl - ttl / 4) + 1_000_000
      invariant 0 < renewals ==> nextFire <= confirmedAt + interval
      invariant Reaches(l0, loopStart, loop, now)
      invariant loop == Loop(ttl, confirmedAt, Waiting(nextFire))
    {
      // Wait for the ticker; a tick that fired meanwhile is waiting in its buffer.
      ghost var waited := now;
      now := Max(now, nextFire);
      nextFire := now + Min(env(tick, 0).nextTick, interval);

      var sentAt := now;
      var ok: bool;
      ok, now := AttemptWithin(env(tick, 0), now, interval);
      var tries := [Try(sentAt, interval, now)];
      OneTry(env, tick, tries[0], confirmedAt, ttl);
      TickSteps(l0, loopStart, loop, waited, env(tick, 0).nextTick, now, ok);
      loop := Loop(ttl, sentAt, Waiting(nextFire));
      if !ok {
        ghost var failedAt := now;
        ghost var failed := Loop(ttl, confirmedAt, Failing(confirmedAt, ttl, now, FIRST_BACKOFF, nextFire));
        ok, tries, loop := Retry(env, tick, tries[0], confirmedAt, ttl, nextFire);
        LastTry(env, tick, tries, confirmedAt, ttl);
        sentAt, now := Last(tries).sentAt, Last(tries).done;
        ReachesJoin(l0, loopStart, failed, failedAt, loop, now);
      }
      IsRoundAt(env, tick, Before(rounds, tick), tries, ok, createSentAt, loopStart, ttl);
      TimelineNext(env, rounds, createSentAt, loopStart, ttl, tries, ok);
      rounds := rounds + [tries];
      if !ok {
        ended := true;
        return;
      }
      previous, confirmedAt := confirmedAt, sentAt;
      renewals := renewals + 1;
    }
  }

  lemma OneTry(env: (nat, nat) -> Attempt, t: nat, try: Try, confirmedAt: int, ttl: int)
    requires try.timeout == ttl / 3 && try.done == try.sentAt + Min(env(t, 0).took, try.timeout)
    ensures Round(env, t, [try], confirmedAt, ttl)
    ensures Recovered(env, t, [try]) <==> Succeeds(env(t, 0), ttl / 3)
  {
  }

  lemma LastTry(env: (nat, nat) -> Attempt, t: nat, tries: seq<Try>, confirmedAt: int, ttl: int)
    requires SECOND <= ttl && Round(env, t, tries, confirmedAt, ttl)
    ensures tries != [] && Last(tries) == tries[|tries| - 1]
    ensures Last(tries).sentAt <= Last(tries).done <= Last(tries).sentAt + ttl / 3
    ensures !Recovered(env, t, tries) ==> !Succeeds(env(t, 0), ttl / 3)
  {
    var k := |tries| - 1;
    assert tries[k].done == tries[k].sentAt + Min(env(t, k).took, tries[k].timeout);
    if 0 < k {
      assert Follows(k, tries[k - 1].done, tries[k], confirmedAt + (ttl - ttl / 4), ttl);
    }
  }

  lemma NoRounds(env: (nat, nat) -> Attempt, createSentAt: int, loopStart: int, ttl: int)
    ensures Timeline(env, [], 0, createSentAt, loopStart, ttl)
    ensures ProofOf(Before([], 0), createSentAt) == createSentAt
    ensures FireOf(Before([], 0), TickBefore(env, 0), loopStart, ttl) == loopStart + ttl / 3
  {
  }

  lemma IsRoundAt(env: (nat, nat) -> Attempt, t: nat, before: seq<Try>, tries: seq<Try>, ok: bool,
                  createSentAt: int, loopStart: int, ttl: int)
    requires Round(env, t, tries, ProofOf(before, createSentAt), ttl) && tries != []
    requires Recovered(env, t, tries) <==> ok
    requires tries[0].sentAt == FireOf(before, TickBefore(env, t), loopStart, ttl)
    ensures RoundAt(env, t, before, tries, ok, createSentAt, loopStart, ttl)
    ensures ProofOf(tries, createSentAt) == Last(tries).sentAt
    ensures FireOf(tries, TickBefore(env, t + 1), loopStart, ttl) ==
            Max(Last(tries).done, tries[0].sentAt + Min(env(t, 0).nextTick, ttl / 3))
  {
  }

  // ------------------------------------------------------------- ack matching

  /**
   A heartbeat stream. The server answers in order, so the n-th reply answers
   the n-th request.
   */
  class Stream {
    var sent: nat
    var received: nat
    var cancelled: bool

    constructor ()
      ensures sent == 0 && received == 0 && !cancelled
    {
      sent, received, cancelled := 0, 0, false;
    }
  }

  /** How an exchange on a stream ends. */
  datatype Outcome = SendFailed | NoReplyInTime | Reply(leaseID: nat)

  class Session {
    var leaseID: nat
    var leaseErr: Option<string>
    var running: bool
    var heartbeat: Stream?

    /** The current stream has no unanswered request. */
    ghost predicate Settled()
      reads this, heartbeat
    {
      heartbeat != null ==> heartbeat.sent == heartbeat.received
    }

    constructor (id: nat)
      ensures Settled() && leaseID == id && heartbeat == null && leaseErr == None && running
    {
      leaseID, leaseErr, running, heartbeat := id, None, true, null;
    }

    /** Opens a fresh stream, cancelling the one it replaces. */
    method OpenHeartbeatStream()
      modifies this`heartbeat, heartbeat
      ensures heartbeat != null && fresh(heartbeat) && Settled()
      ensures old(heartbeat) != null ==> old(heartbeat).cancelled
    {
      var stream := new Stream();
      var replaced := heartbeat;
      heartbeat := stream;
      if replaced != null {
        replaced.cancelled := true;
      }
    }

    /** Cancels `stream` if it is still the current one. */
    method CloseHeartbeat(stream: Stream)
      modifies this`heartbeat, stream`cancelled
      ensures heartbeat == if old(heartbeat) == stream then null else old(heartbeat)
      ensures stream.cancelled == (old(stream.cancelled) || old(heartbeat) == stream)
    {
      if heartbeat != stream {
        return;
      }
      heartbeat := null;
      stream.cancelled := true;
    }

    /** Ends the session. The first cause is kept. */
    method Invalidate(err: string)
      modifies this, heartbeat
      ensures leaseErr == if old(leaseErr).None? then Some(err) else old(leaseErr)
      ensures !running && heartbeat == null && leaseID == old(leaseID)
      ensures old(heartbeat) != null ==> old(heartbeat).cancelled
    {
      if leaseErr.None? {
        leaseErr := Some(err);
      }
      var stream := heartbeat;
      heartbeat := null;
      if stream != null {
        stream.cancelled := true;
      }
      running := false;
    }

    /** One request on the current stream; anything but a matching reply closes it. */
    method Exchange(outcome: Outcome) returns (ok: bool, request: nat, answered: nat)
      requires heartbeat != null && Settled()
      modifies this`heartbeat, heartbeat
      ensures Settled()
      ensures ok <==> outcome == Reply(leaseID)
      ensures ok ==> heartbeat == old(heartbeat) && answered == request == old(heartbeat.sent) + 1
      ensures !ok ==> heartbeat == null && old(heartbeat).cancelled
    {
      var stream := heartbeat;
      ok, request, answered := false, stream.sent + 1, 0;
      if outcome.SendFailed? {
        CloseHeartbeat(stream);
        return;
      }
      stream.sent := stream.sent + 1;
      if outcome.NoReplyInTime? {
        CloseHeartbeat(stream);
        return;
      }
      stream.received := stream.received + 1;
      if outcome.leaseID != leaseID {
        CloseHeartbeat(stream);
        return;
      }
      ok, answered := true, stream.received;
    }

    /**
     A whole attempt. With no stream it reconnects first, which may fail. When it
     succeeds, the reply it read answers the request it sent, so the send time is
     a sound proof of life.
     */
    method HeartbeatAttempt(reconnected: bool, outcome: Outcome) returns (ok: bool, request: nat, answered: nat)
      requires Settled()
      modifies this`heartbeat, heartbeat
      ensures Settled()
      ensures ok ==> answered == request && heartbeat != null
      ensures !ok ==> heartbeat == null
      ensures ok <==> (old(heartbeat) != null || reconnected) && outcome == Reply(leaseID)
    {
      ok, request, answered := false, 0, 0;
      if heartbeat == null {
        if !reconnected {
          return;
        }
        OpenHeartbeatStream();
      }
      ok, request, answered := Exchange(outcome);
    }
  }
}
