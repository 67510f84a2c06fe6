# Clavis in Dafny

Clavis is a lock service replicated with Raft. Clients hold leases, leases hold
locks, and every acquired lock carries a fencing token. Lease renewals never
enter the Raft log, which is what makes the service fast and its safety subtle.
This project models its core and proves what the service is for.

The main theorems:

- `LeaseSteps.NoAckedRenewalCutShort`: in every run of any number of servers, terms
  and leaders, with any constant clock offset per server, a lease whose renewal was
  acknowledged is not removed for one TTL after the renewal's clock reading.
  `LeaseTightness.GuaranteeIsTight` shows that the bound is reached, across a change
  of leader, so the hypotheses can be met together and the bound is exact.
- `Exclusion.NoTwoHolders` and `Exclusion.NoSessionOutlivesLease`: servers and client
  sessions together, each session with its own heartbeat loop; two live sessions never
  both believe they hold one lock, and no live session outlives its lease.
  `Handover.LockChangesHands`, `HandoverRelease.LockIsReleased` and
  `HeartbeatRun.SessionRenews` are runs in which a lock changes hands by expiry and by
  release, and in which a session renews.
- `Waiting.NoLostWakeup`, `Waiting.WokenHeadAcquires`, `Waiting.NobodyLeavesUnserved`,
  `Waiting.ProposalsInJoinOrder`, `Waiting.OneProposer`: the waiting acquire, in every
  interleaving of its atomic steps.
- `FsmLog.FreshTokensCount`, `FsmLog.TokenBoundForever`, `FsmHistory.LocksExactly`,
  `FsmHistory.LeasesExactly`, `Replicas.ReplicasAgree`: the state machine over every log,
  every map order and every placement of snapshots.
- `Heartbeat.Run`, `Resolver.Resolver.TryCandidates`, `Storage.Launches`,
  `Sweep.CheckerEqualsPairwise`, `FencedTable.OneWriterPerTerm`,
  `LeaseTTL.AcceptedTTLCreatesLease`: the algorithms around them.

## Layout

| file | content |
|---|---|
| Domain, Fsm, FsmLog, FsmHistory, RaftLog | leases and locks, the state machine as a step function and as a class refining it, its answers, and facts about whole logs |
| LeaseTracker | the leader's in-memory tracker, as a class refining functions |
| LeaseProtocol, LeaseSafety, LeaseSteps, LeaseTightness | the multi-server step system, its invariant, why every event keeps it, and the tight run |
| Heartbeat, Exclusion, Handover, HandoverRelease, HeartbeatRun | the client's heartbeat loop as steps and as the code that takes only those steps, the composition of clients with servers, and three runs of it |
| LockQueue, Waiting | the waiting queues in place, and the concurrent protocol over them |
| Replicas | snapshot, restore and replica agreement |
| Storage, Resolver, Sweep, FencedTable, LeaseTTL | migration, failover, the history checker, the fenced table, TTL arithmetic |

Mutable objects of the source are classes whose methods are proved against pure
functions; the same functions drive the step systems, so what is proved of all runs
is about the code's own operations.

## Hypotheses

Raft is an environment, written into the step relation of `LeaseProtocol`: a term has
one leader (section 5.2 of the extended Raft paper), leaders only append and the
committed log only grows by a prefix of some leader's log (sections 5.3 and 5.4), and
a leader confirms its leadership with a quorum before it answers from local state
(section 8). The code also relies on the following, which it does not enforce:

- H1: the clock is read before the tracker's mutex is taken (lease.go:130); a reading
  must not be overtaken by a newer renewal of the lease, nor by the finish of a
  committed expiry claimed after it. A reading overtaken only by a pending claim does
  no harm. `LeaseTracker.OlderReadingShortensRenewal` and
  `LeaseTracker.LateReadingRevivesFinishedLease` show the need of each.
- H2: an expiry is appended in the term that claimed it or not at all; line 191 does
  not recheck the term. `LeaseTracker.NewTermForgetsClaims` shows the need.
- H3: `VerifyLeader` succeeds only while the term read at line 116 is still led.
- H4: the tracker meets a term only after this server won it.
- H5: an expiry that failed while its term is still led was never appended.
- H6: the tracker is not called with an older term than it has already met. A call
  that read the term early and arrives late would reset the tracker;
  `LeaseTracker.OlderTermForgetsClaim` shows the need.

The comment at lease.go:59-61 says that a claimed lease cannot be renewed. The code
meets this while the claim is pending, for every reading
(`LeaseTracker.MarkedRefusesAll`). Over whole histories of a term it depends on the
readings: as long as all readings of the lease are from b on, no renewal of it succeeds
any more, if and only if b is not before the deadline the lease had when it was claimed
(`LeaseTracker.ClaimedMeansDead`, `LeaseTracker.DeadExactly`). The claim's own time is such
a b. One older reading can reopen the lease, after which newer ones are accepted too
(`LeaseTracker.LateReadingRevivesFinishedLease`). For the next renewal after a finish the
exact limits are `LeaseTracker.FinishedRenewableExactly` and
`LeaseTracker.FailedRenewableExactly`.

For exclusion, with all clocks running at one rate: a heartbeat attempt returns by its
timeout and a due timer is met at once, so time passes only up to the pending timer of
every live session (`Heartbeat.MayPass`), and a step of the loop always lets it pass on
(`Heartbeat.TimerIsMet`); that the session then ends in time is proved, not assumed. A
session starts heartbeating less than a third of its TTL after sending its create; a
heartbeat stream answers its requests one by one, in order, by renewals whose clock was
read after the request was sent, from which it is proved that an attempt reads the answer
to its own request; a session's lease is its own; it stops believing in a lock before it
proposes the release; and no release left over from an earlier call lies behind a new
acquire.

## Model

| member | source | states |
|---|---|---|
| LeaseSteps.NoAckedRenewalCutShort | internal/cluster/lease.go:115-196 | In every run, at every instant: while less than one TTL has passed since the clock reading of an acknowledged renewal, its lease is in every state replayed from the committed log since the lookup. Covers expiries of the same term, of later terms and left over from earlier ones. |
| LeaseSteps.NoCreationCutShort | internal/cluster/lease.go:37-57 | The same for the first TTL, counted from the creating leader's clock reading, whatever offset the leader that expires the lease has. |
| LeaseSteps.EventKeeps | internal/cluster/lease.go:37-196 | Every event of servers and Raft keeps the invariant: log order and timing, traceability of expiries to claims, recorded renewals that still count, claims whose renewals ran out. |
| LeaseSteps.RenewableHasNoClaim | internal/cluster/lease.go:62-72 | A reading the tracker records meets no pending and no committed claim of its lease in its term. |
| LeaseSteps.ClaimedIsLate | internal/cluster/lease.go:76-89 | A lease a pass claims is past its deadline: past its creation expiry on this leader's clock, and at least one TTL of real time after the leader won its term. |
| LeaseSteps.NoLaterRenewal | internal/cluster/lease.go:103-111 | An expiry claimed in an earlier term that committed leaves no renewal of the lease recorded in a later term, so finishing it late forgets none. |
| LeaseSafety.ExpiryIsLate | internal/cluster/lease.go:118-140 | Any expiry committed after an acknowledged renewal's lookup comes at least one TTL after the renewal, by the barrier, the takeover rule and the quorum check. |
| LeaseSafety.AckedStaysAlive | internal/cluster/lease.go:113-141 | An acknowledged renewal whose TTL has not passed has its lease in every committed state since the lookup. |
| LeaseSafety.CreationExpiryIsLate | internal/cluster/lease.go:176-196 | Any committed expiry of a created lease comes at least one TTL after the creating leader read its clock. |
| LeaseTightness.GuaranteeIsTight | internal/cluster/lease.go:115-196 | Some run acknowledges a renewal, changes leader, and has the lease gone exactly one TTL after the renewal. |
| LeaseTightness.ExpiryFinishes | internal/cluster/lease.go:189-193 | In a run, the leader's committed expiry finishes: its claim is no longer pending and the tracker keeps no mark. |
| LeaseTightness.FailedExpiryIsRetried | internal/cluster/lease.go:101-111 | In a run, an expiry that failed without being appended takes the mark away, and the next pass claims the lease again. |
| LeaseTracker.LeaseTracker.constructor | internal/cluster/lease.go:27-33 | A new tracker has met no term, no renewal and no claim. |
| LeaseTracker.LeaseTracker.SyncTerm | internal/cluster/lease.go:37-45 | A term other than the tracker's resets takeover time, renewals and claims; the same term changes nothing. |
| LeaseTracker.LeaseTracker.Deadline | internal/cluster/lease.go:49-57 | The deadline is the latest of creation expiry, takeover plus TTL and last renewal plus TTL. |
| LeaseTracker.LeaseTracker.Renew | internal/cluster/lease.go:62-72 | A renewal is recorded exactly for an unclaimed lease before its deadline, and otherwise answers that the lease expired and records nothing. |
| LeaseTracker.LeaseTracker.ClaimExpired | internal/cluster/lease.go:76-89 | A pass returns and marks what the specification pass claims, in order. |
| LeaseTracker.ClaimedExactly | internal/cluster/lease.go:76-89 | A pass claims exactly the unmarked leases past their deadline, each once. |
| LeaseTracker.LeaseTracker.Alive | internal/cluster/lease.go:93-99 | The answer is whether a renewal at this reading would be accepted. |
| LeaseTracker.LeaseTracker.FinishExpiry | internal/cluster/lease.go:103-111 | A finished expiry drops its claim, and the renewal time only if it committed. |
| LeaseTracker.ClaimedMeansDead | internal/cluster/lease.go:49-111 | Once a pass at time c claimed a lease, and as long as all later readings of it are from c on, no renewal succeeds for the rest of the term, whatever passes, checks, failed and committed finishes are called, with any copy of the lease; and the same for readings from any b on if and only if b is not before the deadline the lease had. |
| LeaseTracker.DeadExactly | internal/cluster/lease.go:49-111 | For every tracker and lease: no history of calls whose readings of the lease are from b on ever accepts a renewal read from b on, if and only if the deadline is not after b. |
| LeaseTracker.FinishedRenewableExactly | internal/cluster/lease.go:49-111 | After any calls and a committed finish, the next renewal is accepted if and only if its reading is before the later of creation expiry and takeover plus TTL, with no condition on earlier readings. |
| LeaseTracker.FailedRenewableExactly | internal/cluster/lease.go:49-111 | After any calls on a claimed lease and a failed finish, the next renewal is accepted if and only if its reading is before the deadline the lease had under the claim. |
| LeaseTracker.OlderReadingShortensRenewal | internal/cluster/lease.go:126-130 | Witness for H1: an older reading recorded over a newer renewal gets the lease claimed before that renewal's TTL is over. |
| LeaseTracker.DeadlineFrozen | internal/cluster/lease.go:49-111 | The deadline of a lease dead at time c never moves past c under any calls that carry readings from c on. |
| LeaseTracker.MarkedRefusesAll | internal/cluster/lease.go:59-72 | Until its own expiry finishes, a claimed lease refuses every renewal, however old the reading. |
| LeaseTracker.LateReadingRevivesFinishedLease | internal/cluster/lease.go:126-130 | Witness for H1: a reading older than the claim is recorded after the expiry committed, and then one newer than the claim is too. |
| LeaseTracker.NewTermForgetsClaims | internal/cluster/lease.go:189-193 | Need of H2: the first renewal in any other term succeeds for every lease, claimed or not, and moves the deadline a TTL ahead. |
| LeaseTracker.OlderTermForgetsClaim | internal/cluster/lease.go:37-45 | Witness for H6: a late call with an older term makes a claimed lease renewable in the term that claimed it. |
| Exclusion.NoTwoHolders | pkg/client/client.go:64-146 | From the empty cluster on, whatever servers, networks and heartbeat loops do, two live sessions never both believe they hold one lock. |
| Exclusion.NoSessionOutlivesLease | pkg/client/session.go:282-335 | In every such run a session that has not ended is within its latest end, strictly before its proof of life runs out, and its lease is in the replicated state. |
| Exclusion.SessionFailsClosed | pkg/client/session.go:282-335 | The loop's invariant puts every session that has not ended within the bound for its current proof, first or renewed, which is below the lease's TTL. |
| Exclusion.ReplyAnswersOwnRequest | pkg/client/session.go:211-262 | On a settled stream the next reply is the one to the request this attempt sent, so the renewal behind it was read no earlier than the attempt began. |
| Exclusion.ActKeepsConn | pkg/client/session.go:90-119 | Every reconnect, send, acknowledgement, failure and tick leaves the stream settled: no request unanswered but that of the attempt in progress. |
| Handover.LockChangesHands | pkg/client/session.go:302-331 | Some run has a live session hold a lock, fail its renewals and give up, its lease expire, and a second live session hold the lock. |
| HandoverRelease.LockIsReleased | pkg/client/client.go:148-166 | Some run has two live sessions, of which the first holds a lock, releases it, and the second holds it while both are still live. |
| HeartbeatRun.SessionRenews | pkg/client/session.go:194-262 | Some run has a session that holds a lock fail an attempt, reconnect, send again, and renew its proof of life from that request's send time, with the lock still its own. |
| Exclusion.ReleasingDropsBelief | pkg/client/client.go:148-166 | A release ends the belief in that lock and in no other, and changes nothing else of the session. |
| Exclusion.ReleaseMayBeProposed | pkg/client/client.go:148-166 | After it no live session stands in the way of proposing the release. |
| Exclusion.AcquiringAddsBelief | pkg/client/client.go:120-146 | An acquire adds the belief in that lock to the others the session has. |
| Exclusion.StopEnds | pkg/client/session.go:147-163 | A stopped session has ended, its stream is closed, and it is otherwise as it was. |
| Exclusion.LeaseLives | pkg/client/session.go:282-335 | The lease of a session that has not ended is in the replicated state, on the proof of its create or of its last acknowledged heartbeat. |
| Exclusion.BeliefIsTrue | pkg/client/client.go:120-166 | A lock a live session believes to hold is held by its lease in the replicated state. |
| Exclusion.ActKeeps | pkg/client/client.go:64-166 | Every act of a server or a client keeps the joint invariant of logs, sessions, proofs of life and held locks. |
| Heartbeat.Run | pkg/client/session.go:282-335 | Against any network: every round follows the timeline, from the tick by which it starts over its attempts, timeouts and backoffs of 50, 100, 200, 400 and 500 ms to its acknowledgement or its giving up; the loop goes through all its ticks unless it ends the session; a session is never alive past confirmedAt + (ttl - ttl/4) + 1 ms once a renewal succeeded, nor past the bound of the first proof before; it is ended only at or after confirmedAt + (ttl - ttl/4), only after every attempt since its last proof failed, never without a retry after a first success, and never while each tick's attempt is acknowledged within ttl/3. It takes only the loop's steps. |
| Heartbeat.BeatKeepsLoop | pkg/client/session.go:288-334 | Every tick, acknowledgement, failure and end of a backoff keeps the loop's timers within the bound of its proof of life; an acknowledgement starts a new bound from its send time. |
| Heartbeat.PassKeepsLoop | pkg/client/session.go:288-334 | Time that passes no further than the pending timer keeps that invariant. |
| Heartbeat.LoopBounded | pkg/client/session.go:304-313 | In every state of the invariant a session that has not given up is within confirmedAt + (ttl - ttl/4) + 1 ms, or on its first proof within a third of the TTL after its first tick. |
| Heartbeat.LatestEndsAre | pkg/client/session.go:304-331 | The two latest ends in numbers: confirmedAt + (ttl - ttl/4) + 1 ms, and for the first proof that or the loop's start plus two thirds of the TTL. |
| Heartbeat.TimerIsMet | pkg/client/session.go:288-334 | Wherever a timer holds time back, some step without a reply leads to a state in which time can pass on. |
| Heartbeat.Retry | pkg/client/session.go:304-331 | The retry loop terminates, waits and times out by the stated backoffs and limits, stops at the first attempt that succeeds, recovers only by a request sent by the give-up time, and gives up only at or after it, within 1 ms. |
| Heartbeat.AttemptWithin | pkg/client/session.go:264-268 | An attempt succeeds exactly if it is acknowledged within its timeout, and returns at the acknowledgement or the timeout, whichever is first. |
| Heartbeat.EndsBeforeProofRunsOut | pkg/client/session.go:270-282 | For a TTL of at least a second both bounds lie strictly before the last proof of life runs out; for the first heartbeat, if the loop started within a third of the TTL. |
| Heartbeat.Session.HeartbeatAttempt | pkg/client/session.go:249-262 | A successful attempt's reply answers the request sent in that attempt, a failed one leaves no stream, and either leaves no unanswered request. |
| Heartbeat.Session.Exchange | pkg/client/session.go:211-247 | Anything but a reply with the session's lease closes and cancels the stream; a matching reply answers exactly the next request. |
| Heartbeat.Session.OpenHeartbeatStream | pkg/client/session.go:90-101 | A new stream replaces the old one, which is cancelled. |
| Heartbeat.Session.CloseHeartbeat | pkg/client/session.go:105-119 | Only the current stream is closed and cancelled; a stale one is left alone. |
| Heartbeat.Session.Invalidate | pkg/client/session.go:125-139 | An invalidated session has its first cause, is no longer running, has no stream, and its last stream is cancelled. |
| Fsm.FSM.constructor | internal/state/fsm.go:49-57 | A new state machine is empty, with the token counter at 0 and lease IDs from 1. |
| Fsm.FSM.Apply | internal/state/fsm.go:62-86 | Updating in place gives the step function's state and answer, and the hook is called exactly once for each lock the command freed and for no other; what answers and states mean is stated by FsmLog and FsmHistory. |
| Fsm.FSM.ApplyCreateLease | internal/state/fsm.go:95-131 | The new state and answer of the step function, with its three rejections; touches leases and their counter only. |
| Fsm.FSM.ApplyAcquireLock | internal/state/fsm.go:141-184 | The same for acquire: fresh token, repeated token for the holding lease, or one of three errors; touches locks and the token counter only. |
| Fsm.FSM.ApplyReleaseLock | internal/state/fsm.go:186-199 | The same for release, with the hook called for the freed lock only on success. |
| Fsm.FSM.ApplyExpireLease | internal/state/fsm.go:205-228 | Expiry removes the lease and exactly its locks, counts them, and calls the hook once for each. |
| Fsm.FSM.ReleaseAll | internal/state/fsm.go:214-221 | Deleting while ranging, in any order, removes exactly the locks the lease held. |
| Fsm.FSM.ApplyUpsertEndpoint | internal/state/fsm.go:230-237 | Endpoint metadata with an empty node or address is rejected; otherwise the node has that address, by the step function. |
| Fsm.FSM.ApplyRemoveEndpoint | internal/state/fsm.go:239-246 | Removing an endpoint needs a node name and removes at most that endpoint. |
| Fsm.FSM.Leases | internal/state/fsm.go:302-311 | The copy holds exactly the leases, as many as there are. |
| Fsm.LeaseExpiryAt | internal/state/fsm.go:320-326 | An expiry exists exactly for a positive TTL whose sum with the start fits in 64 bits, and is that sum. |
| Fsm.FreedIs | internal/state/fsm.go:186-228 | Locks are freed only by a release of the holding lease, which frees that one, or by the expiry of an existing lease, which frees all of its locks. |
| FsmLog.ReachableSound | internal/state/fsm.go:95-246 | After every log: each lock's lease exists and has the lock's owner, held tokens are distinct and within the counter, lease IDs are below the next ID, TTLs and expiries positive, endpoints non-empty. |
| FsmLog.StepKeepsSound | internal/state/fsm.go:62-246 | Every command keeps that invariant from any state that satisfies it. |
| FsmLog.CountersBounded | internal/state/fsm.go:95-184 | Neither counter passes the log's length, so 64-bit counters do not wrap on shorter logs. |
| FsmLog.FreshTokensCount | internal/state/fsm.go:141-184 | The tokens of any log, in order of first appearance, are exactly 1, 2, ..., counter. |
| FsmLog.TokenBoundForever | internal/state/fsm.go:141-184 | Every answer that carries a token goes to the lock, owner and lease the token was minted for. |
| FsmLog.TokensNeverShared | internal/state/fsm.go:141-184 | Two answers with one token, anywhere in a log, answer the same acquire. |
| FsmLog.LeaseIDsNeverReused | internal/state/fsm.go:95-131 | Lease IDs are issued in strictly increasing order. |
| FsmLog.StepKeepsLease | internal/state/fsm.go:62-246 | No command but its own expiry removes or rewrites a lease. |
| FsmLog.StepKeepsLock | internal/state/fsm.go:62-246 | No command but a release by its lease, or that lease's expiry, removes or rewrites a held lock. |
| FsmLog.AcquireRetrySafe | pkg/client/resolver.go:349-353 | Repeating an acquire that succeeded changes nothing and repeats the answer, after any commands that neither release the lock by its lease nor expire the lease. |
| FsmLog.ReleaseRetrySafe | pkg/client/resolver.go:349-353 | Repeating a release that succeeded changes nothing and fails, unless the lease acquired the lock again in between. |
| FsmHistory.AcquireAnswers | internal/state/fsm.go:141-184 | From the state alone: an acquire succeeds exactly if the lease exists with that owner and the lock is free or its own, answers the lease's TTL and, if it has the lock, its token; each of the three errors comes exactly in its own case. |
| FsmHistory.ReleaseAnswers | internal/state/fsm.go:186-199 | A release succeeds exactly for the holding lease, and each of the two errors comes exactly in its own case. |
| FsmHistory.CreateAnswers | internal/state/fsm.go:95-131 | A lease is created exactly for a positive TTL and time whose sum fits in 64 bits, with that expiry; each of the two errors comes exactly in its own case. |
| FsmHistory.ExpireAnswers | internal/state/fsm.go:205-228 | An expiry answers how many locks are gone by it, and afterwards neither the lease nor a lock of it is there. |
| FsmHistory.RefusedChangesNothing | internal/state/fsm.go:62-86 | A refused command and an old renewal entry leave the state as it is. |
| FsmHistory.OtherAnswers | internal/state/fsm.go:230-246 | Endpoint commands fail exactly for a missing name or address; an unknown command is the only one answered as such. |
| FsmHistory.LeasesExactly | internal/state/fsm.go:95-228 | A lease is in the state after a log, with that owner, TTL and expiry, if and only if a create of the log issued it and no expiry of it came since. |
| FsmHistory.LocksExactly | internal/state/fsm.go:141-228 | A lease holds a lock after a log if and only if an acquire of the log granted it and neither its release nor the lease's expiry came since. |
| FsmHistory.AcquireAnswersCreatedTTL | internal/state/fsm.go:141-184 | Every acquire that succeeds answers the TTL its lease was created with, to the owner it was created for. |
| FsmHistory.EndpointsExactly | internal/state/fsm.go:230-246 | A node has an address after a log if and only if the last accepted endpoint command on the node set it. |
| RaftLog.OneRecord | internal/state/fsm.go:95-131 | Any two prefixes of a log that hold a lease hold the same record of it. |
| RaftLog.ExpiredStaysOut | internal/state/fsm.go:205-228 | A lease expired after it was issued is in no later state. |
| RaftLog.LockStays | internal/state/fsm.go:141-228 | A lock stays with its lease until that lease releases it or expires. |
| Replicas.ReplicasAgree | internal/state/raft_fsm.go:42-136 | Replicas with their own cascade orders and their own snapshot and restore points are in one state at one log position, give one answer per command, and every snapshot taken is accepted. |
| Replicas.AppliesNext | internal/state/raft_fsm.go:28-40 | In every run, a replica's next command moves it on by one position, to the log's state and with the log's answer. |
| Replicas.CatchesUp | internal/state/raft_fsm.go:42-105 | In every run, a replica that installs another's snapshot is at that one's position and in its state. |
| Replicas.OrderIrrelevant | internal/state/fsm.go:205-228 | The expiry cascade gives one state and one count in whatever order it visits the locks. |
| Replicas.SnapshotRoundTrip | internal/state/raft_fsm.go:42-105 | A snapshot of any reachable state is accepted and restores exactly that state. |
| Replicas.TakeSnapshot | internal/state/raft_fsm.go:42-71 | The copied maps and counters are the state's snapshot. |
| Replicas.ValidateSnapshot | internal/state/raft_fsm.go:107-136 | A snapshot is accepted exactly when both maps are present, no lease is null or non-positive, and no endpoint is empty. |
| Replicas.Restore | internal/state/raft_fsm.go:76-105 | An accepted snapshot replaces the whole state, after which every lease has a positive expiry and TTL and no endpoint is empty; a rejected one changes nothing; neither calls the hook. |
| Replicas.RefusedExactly | internal/state/raft_fsm.go:107-136 | A snapshot is refused if and only if a map is missing, a lease is null, a lease has no positive expiry or TTL, or an endpoint is empty. |
| Replicas.RestoresWhatIsThere | internal/state/raft_fsm.go:76-105 | A restored state has exactly the snapshot's locks, leases, endpoints and counters, and no endpoints if the snapshot predates them. |
| LockQueue.LockQueues.constructor | internal/cluster/lockqueue.go:26-28 | A new set of queues has no waiters. |
| LockQueue.LockQueues.JoinLockQueue | internal/cluster/lockqueue.go:32-40 | A new waiter goes to the end of its lock's queue and of no other; every waiter stays queued once, under its own lock. |
| LockQueue.LockQueues.LockHasWaiters | internal/cluster/lockqueue.go:44-49 | The answer is whether the lock's queue is non-empty. |
| LockQueue.LockQueues.WaiterIsHead | internal/cluster/lockqueue.go:58-63 | The answer is whether the waiter is first in its lock's queue. |
| LockQueue.LockQueues.Leave | internal/cluster/lockqueue.go:67-86 | A departure removes the waiter from every queue, never leaves an empty queue behind, and signals the waiter it promotes and no other. |
| LockQueue.LockQueues.WakeHead | internal/cluster/lockqueue.go:90-96 | The hook signals the first waiter of the lock and no other. |
| LockQueue.LockWaiter.Wake | internal/cluster/lockqueue.go:98-103 | A signal is pending afterwards, whether or not one was before. |
| LockQueue.LeaveKeepsOrder | internal/cluster/lockqueue.go:67-86 | After a departure exactly the other waiters remain, in the order they had, and other queues are untouched. |
| LockQueue.HeadStays | internal/cluster/lockqueue.go:32-86 | Neither a join nor another waiter's departure displaces the head. |
| LockQueue.Index | internal/cluster/lockqueue.go:73-76 | The first position of a waiter, or -1 exactly when it is absent. |
| LockQueue.Promoted | internal/cluster/lockqueue.go:77-85 | A departure promotes a waiter exactly when the head of a longer queue leaves, and that waiter is the new head. |
| Waiting.NoLostWakeup | internal/service/service.go:153-174 | In every interleaving, once pending hooks have run, the head of a free lock's queue is not parked or has a signal waiting, and a non-empty queue has such a head; the periodic recheck is not needed. What a woken head does is the next rows. |
| Waiting.WokenHeadAcquires | internal/service/service.go:145-175 | From any reachable state, a signalled head whose lock is free or its own lease's goes round the loop, proposes, and its lease has the lock, if that lease exists and is its owner's; then it is out of the queue. |
| Waiting.NobodyLeavesUnserved | internal/service/service.go:145-175 | In every run, a caller that is leaving or gone gave up, failed to propose, or had its proposal answered other than that the lock is held. |
| Waiting.ProposesExactlyWhenItMay | internal/service/service.go:150-161 | At the top of the loop a caller proposes exactly if it is head and no other lease has the lock; otherwise it parks and nothing else changes. |
| Waiting.AnswerDecides | internal/service/service.go:154-161 | A proposal refused because the lock is held leads back to the select, still queued; any other answer leads out. |
| Waiting.GivingUpHandsOn | internal/service/service.go:163-174 | A caller that gives up or fails to propose is out of the queue by its next step, and a head it makes way for is signalled. |
| Waiting.RecheckChecksAgain | internal/service/service.go:165-168 | The recheck sends a parked caller to the top of the loop and changes nothing else. |
| Waiting.HookSignalsHead | internal/cluster/lockqueue.go:88-103 | The hook of a freed lock signals the head of its queue and nobody else. |
| Waiting.LeaveSignalsPromoted | internal/cluster/lockqueue.go:65-86 | A departure signals the caller it makes head and nobody else. |
| Waiting.StateFollowsLog | internal/state/fsm.go:62-86 | In every run the node's state is that of the commands committed on it, the waiting callers' among them. |
| Waiting.HeadUntilLeave | internal/cluster/lockqueue.go:32-86 | In every reachable state, no step but its own departure displaces a head. |
| Waiting.OneProposer | internal/service/service.go:145-175 | At most one queued caller per lock has an acquire in flight. |
| Waiting.ProposalsInJoinOrder | internal/service/service.go:145-175 | Queued callers propose in join order, across any joins, timeouts and departures. |
| Waiting.NoOvertaking | internal/service/service.go:145-175 | No caller has proposed ahead of one that joined earlier and still waits. |
| Waiting.EventKeeps | internal/service/service.go:128-192 | Every atomic step keeps queues, program counters, signals, pending hooks and the proposal history consistent. |
| Resolver.Resolver.constructor | pkg/client/resolver.go:33-44 | The first seed, if any, is the current address. |
| Resolver.Resolver.CandidateAddrs | pkg/client/resolver.go:132-153 | The current address and the seeds without repetitions, in that order. |
| Resolver.Resolver.RememberAddr | pkg/client/resolver.go:157-187 | A non-empty address becomes current and is a seed afterwards, once; the empty one changes nothing. |
| Resolver.Resolver.TryCandidates | pkg/client/resolver.go:300-360 | A pass over a finite universe of addresses terminates with at most two calls each and follows a usable redirect with the very next call; without redirects it calls the candidates in order; no entry is taken once the context is done, and a context done at the start means no call; it answers with a value exactly when its last call did; it asks for a retry only if every initial candidate was called and none succeeded or was refused, and fails for good only on a refusal or a context done just then; it remembers the answering address, or else the last leader named, and exactly the leaders named as new seeds. |
| Storage.Launches | internal/cluster/storage.go:39-175 | Over any number of starts stopped anywhere, the first start that opens finds the original log and stable keys, each later one what the opening before it left; a start with enough operations left always opens; the backup is the original, and the directory holds Raft data at every stop. |
| Storage.DataDir.NewStorage | internal/cluster/storage.go:39-63 | Opening never alters an existing WAL, creates it complete from the legacy store or empty without one, and succeeds if not stopped. |
| Storage.DataDir.MigrateFromBolt | internal/cluster/storage.go:87-106 | The legacy store is set aside only once a WAL is in place; stopped before, it is untouched. |
| Storage.DataDir.CopyBoltToWAL | internal/cluster/storage.go:108-139 | The WAL appears only when it equals the legacy store, whatever scratch data an earlier stop left. |
| Storage.DataDir.CopyLogs | internal/cluster/storage.go:141-150 | A finished copy holds exactly the log, and the copy finishes unless stopped. |
| Storage.DataDir.CopyStable | internal/cluster/storage.go:155-175 | A finished copy has the stable keys that were present and only those. |
| Storage.DataDir.HasRaftData | internal/cluster/storage.go:71-80 | A yes means that one format is present, a no that both are absent, and the error comes exactly when looking fails before a format was found. |
| Sweep.CheckerEqualsPairwise | jepsen/src/clavis/jepsen.clj:271-291 | Grouping by every resource present: no two operations that held one resource at overlapping times go unreported, every report is of two different operations on one resource, and over positive-length intervals there is a report exactly when there is such a pair. |
| Sweep.SweepEqualsPairwise | jepsen/src/clavis/jepsen.clj:277-291 | The same for any list of resources, in any order, group by group. |
| Sweep.SortedSweep | jepsen/src/clavis/jepsen.clj:279-291 | On any sorted list: no overlapping pair is missed, a report is of two different places, and it overlaps if and only if the later interval ends after the earlier one starts. |
| Sweep.LatestEndsLast | jepsen/src/clavis/jepsen.clj:288-290 | The interval carried along is the first of those visited that ends last. |
| Sweep.EmptyIntervalMisreported | jepsen/src/clavis/jepsen.clj:282-286 | An empty interval can be reported with one it does not overlap, depending on the order of equal starts. |
| Sweep.SortCorrect | jepsen/src/clavis/jepsen.clj:279 | Sorting by start gives an ordered list of the same intervals. |
| Sweep.SortStable | jepsen/src/clavis/jepsen.clj:279 | Intervals with equal starts keep their order. |
| Sweep.ReportsAreTrue | jepsen/src/clavis/jepsen.clj:280-287 | Every report names an interval and, of those before it, the first that ends last, which was still open. |
| Sweep.OneReportEach | jepsen/src/clavis/jepsen.clj:280-291 | The reports are, in order, one for each interval that starts inside an earlier one. |
| FencedTable.ControllerTable.constructor | examples/failover.go:206-213 | A new table has accepted and rejected nothing. |
| FencedTable.ControllerTable.Accept | examples/failover.go:222-233 | A write is accepted exactly when no accepted write has a newer token; it is appended, or counted as rejected. |
| FencedTable.ControllerTable.Summarize | examples/failover.go:243-258 | The summary cuts the whole history into consecutive runs of one token, with strictly increasing tokens and sizes that add up to the history. |
| FencedTable.Present | examples/failover.go:222-233 | Of any sequence of writes the accepted ones are, in order, exactly those no earlier write had a newer token than; all others are counted as rejected. |
| FencedTable.OneWriterPerTerm | examples/failover.go:241-258 | If writers present only tokens the state machine granted them, in any order and with any delay, all writes of a term are by the writer its line names. |
| LeaseTTL.AcceptedTTLs | internal/service/service.go:52-68 | For a positive clock no 64-bit step wraps, and a TTL is accepted exactly when it is positive and its expiry fits in 64 bits. |
| LeaseTTL.EarlyClock | internal/service/service.go:52-68 | At the epoch every representable TTL is accepted; before it the remaining time wraps and every TTL is refused. |
| LeaseTTL.AcceptedTTLCreatesLease | internal/service/service.go:52-100 | A TTL the service accepts is accepted by the state machine in every state, with expiry now + ttl, and the lease passes snapshot validation. |

## Left out

- Raft, the WAL, BoltDB and the transport: external libraries, present as the hypotheses above; directory operations and renames are taken to be atomic and durable.
- Protobuf and JSON encodings: encoding and decoding are the identity on commands and snapshots; decode errors are not modelled.
- gRPC server, error codes and leader hints on the wire: thin adapters.
- Membership, address derivation, node identity, the CLI and process wiring: mostly calls into libraries.
- Benchmarks and their statistics, the rest of the Jepsen harness including its fenced register, and the demo programs around the fenced table: easy members or outside the core.
- The queue check of callers that do not wait (service.go:136-142): the check and the proposal are separate steps, so no strict promise holds; their commands are among the arbitrary commands of `Waiting`.
- A second `Start` of one session: it clears the recorded error, so the model has one `Start` per session.
- Cancelling the heartbeat loop from outside, reconnect address discovery, seed normalisation and the outer backoff of the failover: they add no state that the proved bounds depend on.
- The order of hook calls within one expiry: the hook's calls are a multiset, since the cascade's order is the map's.
- `Restore` on a leader with waiters: it calls no hook, so `Waiting` has no such step.
- Null locks in a snapshot: validation does not look for them and the model's locks are never null.
- Counters are unbounded; `FsmLog.CountersBounded` says when that agrees with 64 bits. Clock readings and deadlines are unbounded integers.
- Heartbeat.AttemptWithin: takes it as given that an attempt returns within its timeout; the source opens the stream under the session's context (session.go:200), so this is a real assumption.
- Heartbeat.Run: takes it as given that scheduling takes no time.
- Resolver.Resolver.TryCandidates: requires the addresses ever named to form a finite set, without which a chain of new hints need not end.
- Liveness beyond termination of single loops: that a lease is eventually expired or a waiter eventually served is not stated.
