# Doradus: a verified model of the stateful kernels

Doradus is a network proxy. This project models the parts of it that keep state under
concurrency or compile one representation into another, and proves what they promise on
every input, every run and every interleaving. Everything is Dafny 4.11;
`dafny verify dfyconfig.toml` checks the whole project.

What is modelled, file by file:

- `RetryQueue`, `UotWriter`, `UotRecovery`, `UotRecoverySafety`, `UotDelivery`, `UotOutcomes`,
  `UotScenarios` — UDP carried over a stream. The bounded retry queue and the coalescing writer
  are classes. The life of an association (send, receive, reconnect with replay, close) is a step
  system: one step is one critical section, one atomic access or one completed I/O of one task,
  any number of tasks interleave, a task may be cancelled at any await, and the network may fail
  at any step. `UotDelivery` follows a datagram to a session, `UotOutcomes` follows a result back
  to its cause, and `UotScenarios` has the runs that go well and one that does not.
- `DnsMessage`, `Singleflight`, `SingleflightSafety`, `SingleflightReplies` — the asynchronous
  resolver. Tasks asking one canonical question share a flight. Owners may be cancelled, followers
  register, read and park, stale hits start background refreshes. A step system over the same
  cache as below;
  `SingleflightReplies` follows every reply back to the upstream answer it comes from.
- `LruMap`, `DnsCache` — the raw response cache: lifetimes, negative caching, ageing, stale
  serving, eviction. The cache is compared with a plain history of inserts.
- `NatTable`, `NatHistory`, `NatIndex`, `UdpRelay`, `NatRelays`, `NatRelaySolo` — full-cone NAT. A
  one-map specification, compared with the operations performed so far in `NatHistory`,
  the two-index table with its gauge and counters as a class that refines it, a relay as a
  class, and any number of relays and other users of one table as a step system.
- `HostsTable`, `HostsWrites` — hosts overrides: alias chains, the derived reverse index, the
  writers alone and interleaved.
- `ChainConfig`, `ChainFold` — validation of a chain of nodes and its fold into a tower.
- `DnsGate`, `Varint` — two wire kernels over bytes.

How the step systems are proved: an invariant has a part about the shared fields and a part
about each task; one lemma shows that the moving task keeps its own part, another that it
keeps every other task's part; the theorems are then read off the invariant for
`Run(Init(), events)` with arbitrary `events`. A step that is blocked leaves the state as it is.

Clocks, transaction ids, upstream answers and the outcome of every I/O are parameters of the
step or the call that uses them. The coalescing limits are parameters with a positive frame
limit. Times are natural numbers; a saturating difference is written out.

Properties of the code that a reader might expect and that do not hold are stated with a run
that breaks them and with the exact condition. A send that succeeded need not have reached any
session (`SentMayBeOnNoSession`): it has, unless it went through a reconnect and either a reply or
a clear took its datagram or another reconnect overtook it (`SentReachedASession`), and the one
that overtook it leaves it out if and only if its snapshot was taken before the datagram was
queued (`ReplayedExactlyWhenQueued`). A closed retry queue need not be empty
(`CloseMayLeaveDatagram`): it is empty if and only if no send was cancelled while it had a
datagram queued that no reply and no clear took (`ClosedQueueIsEmptyExactly`). A relay that was
given a TCP key can lose its record while the binding lives, because its sweep looks for UDP only
(`TcpRecordCanBeLost`); for UDP every binding is covered (`EveryBindingIsCovered`).

## Model

| member | source | states |
|---|---|---|
| `UotRecoverySafety.TakenSessionStaysEmpty` | crates/doradus-chain/src/chain_uot.rs:349-461 | once a close has taken the session, no continuation of any tasks, wherever their reconnects stood, makes it non-empty again |
| `UotRecoverySafety.ClosedQueueDrains` | crates/doradus-chain/src/chain_uot.rs:233-285 | after a close cleared the queue and every send returned or was cancelled, only cancelled sends can have a datagram left |
| `UotRecoverySafety.LeftExactlyWhenCancelled` | crates/doradus-chain/src/chain_uot.rs:233-285 | for every run that queues a datagram and every continuation to a cleared queue in which its send has ended: unless a reply or a clear took it, it is left if and only if the send was cancelled |
| `UotRecoverySafety.ClosedQueueIsEmptyExactly` | crates/doradus-chain/src/chain_uot.rs:349-362 | once cleared and every send has ended, the queue is empty if and only if no send was cancelled with a queued datagram that no reply and no clear took |
| `UotRecoverySafety.UncancelledQueueIsEmpty` | crates/doradus-chain/src/chain_uot.rs:349-362 | with no cancelled send the closed queue is empty |
| `UotRecoverySafety.CloseMayLeaveDatagram` | crates/doradus-chain/src/chain_uot.rs:233-239 | a run: a complete close, then a send that queues and is cancelled, leaves a datagram |
| `UotRecoverySafety.SentStaysQueued` | crates/doradus-chain/src/chain_uot.rs:233-285 | a datagram whose send succeeded is still queued with its own contents, or was acknowledged, or was cleared by a close |
| `UotRecoverySafety.OnlyAckOrCloseRemoves` | crates/doradus-chain/src/chain_uot.rs:328-360 | the step that takes a sent datagram out of the queue is an acknowledgement or a close |
| `UotRecoverySafety.ReplayPrecedesVisibility` | crates/doradus-chain/src/chain_uot.rs:433-460 | every session a reconnect made visible already carries its whole replay, in queue order, at the start of its wire |
| `UotRecoverySafety.SnapshotReachesTheWire` | crates/doradus-chain/src/chain_uot.rs:433-458 | from the snapshot step of any reconnect: if its session ever becomes visible, the queue as it was at the snapshot is first on its wire |
| `UotRecoverySafety.OneInstallPerGeneration` | crates/doradus-chain/src/chain_uot.rs:398-461 | no two installs answer the same failed generation, and the generation is one plus the number of installs whenever the session can be read |
| `UotRecoverySafety.InvRun` | crates/doradus-chain/src/chain_uot.rs:233-480 | locks, streams, retry ids and close phases keep their invariant over every run |
| `UotRecoverySafety.StreamsOther` | crates/doradus-chain/src/chain_uot.rs:370-382 | no step of one task touches the replacement session another task is preparing |
| `UotDelivery.SentReachedASession` | crates/doradus-chain/src/chain_uot.rs:233-285 | over every run, a send that succeeded has its frame on a session that was visible, or it went through a reconnect and a reply or a clear took its datagram or another reconnect had overtaken it |
| `UotDelivery.SentWithoutReconnect` | crates/doradus-chain/src/chain_uot.rs:233-285 | a send that succeeded without a reconnect has its frame on a session that was visible |
| `UotDelivery.ReplayedExactlyWhenQueued` | crates/doradus-chain/src/chain_uot.rs:433-437 | the exact condition in the overtaken case: once visible, a replacement carries the replay of the whole queue at its snapshot; a datagram no other queued one looks like is in it if and only if it was queued by then, so never while it was still to be pushed |
| `UotDelivery.OvertakerIsInstalled` | crates/doradus-chain/src/chain_uot.rs:412-414 | a reconnect that finds its generation gone has been overtaken by exactly the one install that answered that generation |
| `UotDelivery.WriteGivesTheFrame` | crates/doradus-chain/src/chain_uot.rs:151-176 | a successful write gives its session exactly this frame, last, and leaves every other session alone |
| `UotScenarios.SentMayBeOnNoSession` | crates/doradus-chain/src/chain_uot.rs:412-437 | a run: a send queues after another reconnect took its snapshot, is overtaken and succeeds, with its frame on no session |
| `UotScenarios.HealthySendSucceeds` | crates/doradus-chain/src/chain_uot.rs:233-285 | left alone on a healthy session with room in the queue, a send succeeds |
| `UotScenarios.LoneReconnectSucceeds` | crates/doradus-chain/src/chain_uot.rs:398-461 | left alone with I/O that works, a reconnect installs a session, moves the generation on, frees both locks and sends its caller on |
| `UotScenarios.ReconnectSucceedsWhenReplaced` | crates/doradus-chain/src/chain_uot.rs:398-461 | over every run a reconnect reports success only when the generation it answers has been replaced |
| `UotScenarios.AttemptsAreBounded` | crates/doradus-chain/src/chain_uot.rs:254-325 | over every run no send and no receive starts a fourth reconnect |
| `UotScenarios.ReceiveAcknowledges` | crates/doradus-chain/src/chain_uot.rs:328-331 | a receive that succeeds takes the one datagram its reply acknowledges out of the queue and no other |
| `UotOutcomes.NothingSucceedsAfterClose` | crates/doradus-chain/src/chain_uot.rs:279-320 | in every continuation after the flag is raised, no send and no receive that still has to look at it succeeds |
| `UotOutcomes.ErrorsAreExplained` | crates/doradus-chain/src/chain_uot.rs:233-471 | over every run an error has a cause: a failure of that kind in that very call, a close, no room in the queue (a timeout) or a reply too long for the buffer (invalid input) |
| `UotOutcomes.CloseWakesEverybody` | crates/doradus-chain/src/chain_uot.rs:349-352 | over every run a close that goes on to take the session has raised the flag and sent the notice |
| `UotOutcomes.WokenReceiveReturns` | crates/doradus-chain/src/chain_uot.rs:293-316 | a receive waiting for a packet, a connection or a lock returns closed as soon as it takes the notice |
| `UotOutcomes.WokenSendReturns` | crates/doradus-chain/src/chain_uot.rs:238-276 | so does a send, and its datagram leaves the queue |
| `UotOutcomes.CloseTakesTheSession` | crates/doradus-chain/src/chain_uot.rs:349-358 | a close that finds a session goes on to shut it down, one that finds none has nothing to report |
| `UotOutcomes.CloseReportsShutdown` | crates/doradus-chain/src/chain_uot.rs:353-361 | the result of a close is the result of the shutdown; the queue is empty either way |
| `UotOutcomes.FailedSend` | crates/doradus-chain/src/chain_uot.rs:244-263 | a write error no connection would cure ends the send and forgets the datagram, any other starts to reconnect and keeps it |
| `UotOutcomes.FailedReceive` | crates/doradus-chain/src/chain_uot.rs:299-318 | a read error reconnects if and only if it is curable and attempts are left, else it is returned |
| `UotOutcomes.ExhaustedSendStaysQueued` | crates/doradus-chain/src/chain_uot.rs:252-259 | when the attempts are used up the last error is returned and the datagram stays queued |
| `UotOutcomes.BrokenSessionIsDead` | crates/doradus-chain/src/chain_uot.rs:151-176 | a write that breaks the connection puts at most the accepted frames on the wire and marks the session broken |
| `UotOutcomes.DeadSessionsStay` | crates/doradus-chain/src/chain_uot.rs:151-176 | a broken session is never written again in any continuation |
| `UotOutcomes.LateReplacementIsShutDown` | crates/doradus-chain/src/chain_uot.rs:439-456 | a replacement a close finds not yet installed is never installed; both locks are freed; a failing shutdown decides the error |
| `UotOutcomes.OversizedReplyAcknowledgesNothing` | crates/doradus-chain/src/chain_uot.rs:319-328 | a reply too long for the buffer is invalid input and acknowledges nothing |
| `RetryQueues.AckIndex` | crates/doradus-chain/src/chain_uot.rs:63-81 | the acknowledged datagram is the first exact match, else the first for that peer, else the first with that payload, else none |
| `RetryQueues.AcknowledgedIndexIsUnique` | crates/doradus-chain/src/chain_uot.rs:63-81 | that description picks at most one datagram |
| `RetryQueues.RemoveAt` | crates/doradus-chain/src/chain_uot.rs:55-81 | exactly that datagram goes, the others keep their order |
| `RetryQueues.Snapshot` | crates/doradus-chain/src/chain_uot.rs:83-88 | the queued peers and payloads, in queue order |
| `RetryQueues.RemoveAtBytes` | crates/doradus-chain/src/chain_uot.rs:55-61 | taking one datagram out lowers the byte total by exactly its payload |
| `RetryQueues.RetryQueue.Push` | crates/doradus-chain/src/chain_uot.rs:40-53 | accepts exactly when the frame and byte limits allow it; a refusal is a timeout and changes nothing |
| `RetryQueues.RetryQueue.DropId` | crates/doradus-chain/src/chain_uot.rs:55-61 | removes the first datagram with the id, with the byte counter exact |
| `RetryQueues.RetryQueue.Ack` | crates/doradus-chain/src/chain_uot.rs:63-81 | removes exactly the acknowledged datagram, with the byte counter exact |
| `RetryQueues.RetryQueue.Clear` | crates/doradus-chain/src/chain_uot.rs:90-93 | leaves no datagrams and no bytes |
| `UotWriters.UotWriter.Flush` | crates/doradus-chain/src/chain_uot.rs:217-230 | writes the whole batch and forgets it, or keeps it on an error |
| `UotWriters.UotWriter.SendTo` | crates/doradus-chain/src/chain_uot.rs:151-176 | without errors the wire followed by the pending bytes is every frame in send order; the frame count is exact and below its limit; pending exceeds the byte limit only as one frame |
| `SingleflightSafety.RepliesValidate` | crates/doradus-dns/src/dns_resolver_async.rs:162-211 | every successful reply, cached, stale, owned, shared or bypassed, validates against the caller's own packet |
| `SingleflightReplies.RepliesComeFromUpstream` | crates/doradus-dns/src/dns_resolver_async.rs:162-245 | over every run a successful reply is, up to its own id and questions, a message upstream returned to a task with the same key, or that message with its TTLs aged; a failed reply is an upstream error or a protocol error |
| `SingleflightReplies.CacheIsItsCalls` | crates/doradus-dns/src/dns_resolver_async.rs:162-245 | over every run the cache is what the calls of the run leave: one read where a task looks, one insert where it stores |
| `SingleflightReplies.SharedAnswersWereOffered` | crates/doradus-dns/src/dns_resolver_async.rs:189-206 | over every run an answer shared on a flight was first offered to the cache under its key |
| `SingleflightReplies.AnswerIsStoredAndShared` | crates/doradus-dns/src/dns_resolver_async.rs:189-201 | a validated answer goes to the cache, if there is one, and then to everybody on the flight |
| `SingleflightReplies.FailureIsShared` | crates/doradus-dns/src/dns_resolver_async.rs:189-201 | an upstream error, or an answer that does not validate, is shared and not stored |
| `SingleflightReplies.FreshHitAnswers` | crates/doradus-dns/src/dns_resolver_async.rs:178-189 | a hit that is not stale is the whole answer, rewritten for the reader; a miss, or a stale hit for a strict reader, goes on to a flight |
| `SingleflightReplies.StaleHitRefreshes` | crates/doradus-dns/src/dns_resolver_async.rs:178-187 | a stale hit goes on to start a refresh with the aged packet in hand |
| `SingleflightReplies.RefreshIsRunning` | crates/doradus-dns/src/dns_resolver_async.rs:213-245 | when a stale hit has been served a refresh of its key is running |
| `SingleflightReplies.RefreshAsksTheSameQuestion` | crates/doradus-dns/src/dns_resolver_async.rs:213-245 | the refresh asks the same request under a transaction id of its own |
| `SingleflightReplies.RefreshIsStored` | crates/doradus-dns/src/dns_resolver_async.rs:229-245 | what a refresh brings back is offered to the cache exactly when it validates, and the mark goes either way |
| `SingleflightSafety.OneOwnerPerKey` | crates/doradus-dns/src/dns_resolver_async.rs:149-160 | at most one live owner per canonical question |
| `SingleflightSafety.FlightsShareOneRequest` | crates/doradus-dns/src/dns_resolver_async.rs:149-211 | tasks on one flight differ only in transaction id and question-name case |
| `SingleflightSafety.OutcomeSettlesOnce` | crates/doradus-dns/src/dns_resolver_async.rs:22-36 | once settled, an outcome is never changed by any continuation |
| `SingleflightSafety.DepartedOwnersSettled` | crates/doradus-dns/src/dns_resolver_async.rs:98-113 | an owner that left its flight has settled it and woken its waiters once |
| `SingleflightSafety.CleanupRemovesOwnFlight` | crates/doradus-dns/src/dns_resolver_async.rs:66-74 | a key leaves the in-flight table only by the cleanup step of the task that owns that flight |
| `SingleflightSafety.NoLostWakeup` | crates/doradus-dns/src/dns_resolver_async.rs:30-56 | behind a parked follower that was not woken there is a live owner, with the outcome pending or the notification next |
| `SingleflightSafety.NoFollowerIsStranded` | crates/doradus-dns/src/dns_resolver_async.rs:38-114 | from every reachable state some continuation lets a waiting follower leave its flight |
| `SingleflightSafety.SettledFlightIsLeft` | crates/doradus-dns/src/dns_resolver_async.rs:38-114 | under every interleaving, once a flight is settled, two steps of its owner and then three steps of a follower take the follower off it for good |
| `SingleflightSafety.OneRefreshPerKey` | crates/doradus-dns/src/dns_resolver_async.rs:213-245 | at most one background refresh per question is alive, and it holds the mark |
| `SingleflightSafety.InvRun` | crates/doradus-dns/src/dns_resolver_async.rs:149-245 | the ownership invariant over every run, cancellations included |
| `Singleflight.ResolverState.BeginFlight` | crates/doradus-dns/src/dns_resolver_async.rs:149-160 | the caller owns the flight exactly when the key was free; it is then a pending flight nobody had, and every other key and flight is as before |
| `Singleflight.ResolverState.Complete` | crates/doradus-dns/src/dns_resolver_async.rs:30-36 | settles the flight and wakes exactly the waiters registered on it so far; other flights and the table are untouched |
| `Singleflight.ResolverState.Remove` | crates/doradus-dns/src/dns_resolver_async.rs:66-74 | the key no longer stands for this flight; a newer flight under the key and every other key stay |
| `Singleflight.ResolverState.Finish` | crates/doradus-dns/src/dns_resolver_async.rs:98-113 | finished or dropped, the guard leaves every waiter awake on a settled flight that no later caller can join, and touches no other flight or key |
| `Singleflight.ResolverState.MarkRefresh` | crates/doradus-dns/src/dns_resolver_async.rs:220-228 | of several callers only the first starts the refresh; the other marks stay |
| `Singleflight.ResolverState.UnmarkRefresh` | crates/doradus-dns/src/dns_resolver_async.rs:121-127 | the next caller may start again; the other marks stay |
| `DnsMessages.SharedKeyIffSameRequest` | crates/doradus-dns/src/dns_codec.rs:399-428 | two requests share a key if and only if they differ at most in id and question-name case |
| `DnsMessages.ValidatedAnswersKey` | crates/doradus-dns/src/dns_codec.rs:517-552 | a response that validates against one request answers its key |
| `DnsMessages.RewrittenAnswerValidates` | crates/doradus-dns/src/dns_codec.rs:453-469 | an answer to a key, rewritten for any request with that key, validates against that request |
| `DnsMessages.RewriteKeepsContent` | crates/doradus-dns/src/dns_codec.rs:453-469 | putting the id and the questions of the response back gives the response again: records, flags and EDNS are kept |
| `DnsMessages.KeyedExactlyWhenPlain` | crates/doradus-dns/src/dns_codec.rs:402-428 | which packets are refused, which have a key, and which bypass the cache |
| `DnsMessages.NewIdKeepsKey` | crates/doradus-dns/src/dns_resolver_async.rs:229-231 | a refresh under a new transaction id has the same key |
| `LruMaps.EvictedIsLeastRecent` | crates/doradus-dns/src/cache.rs:55-61 | whatever an insertion evicts has seen at least `capacity` other keys touched since its own last touch |
| `LruMaps.LruMap.GetCloned` | crates/doradus-dns/src/cache.rs:46-53 | a hit moves to the front and nothing else changes |
| `LruMaps.LruMap.Insert` | crates/doradus-dns/src/cache.rs:55-61 | the key comes first, the rest keeps its order, the back is cut to capacity |
| `LruMaps.LruMap.Remove` | crates/doradus-dns/src/cache.rs:63-65 | exactly that key goes |
| `LruMaps.LruMap.RemoveExpired` | crates/doradus-dns/src/cache.rs:67-78 | exactly the expired ones among the first `budget` entries go |
| `LruMaps.SweepIsExact` | crates/doradus-dns/src/cache.rs:67-78 | an entry stays if and only if it has not expired or lies beyond the budget |
| `DnsCaches.AnswerTtl` | crates/doradus-dns/src/cache.rs:148-155 | the least TTL of the answers |
| `DnsCaches.NegativeTtl` | crates/doradus-dns/src/cache.rs:173-182 | the least of TTL and MINIMUM over the authority SOAs (section 5 of RFC 2308) |
| `DnsCaches.LifetimeBounds` | crates/doradus-dns/src/cache.rs:143-171 | the lifetime exceeds no answer TTL and no negative TTL |
| `DnsCaches.LifetimeIsAttained` | crates/doradus-dns/src/cache.rs:143-171 | exactly which messages have a lifetime, and that it is one of the TTLs that bound it |
| `DnsCaches.FreshExactly` | crates/doradus-dns/src/cache.rs:371-416 | a stored packet expires exactly when its lifetime has passed |
| `DnsCaches.ElapsedIsWholeSeconds` | crates/doradus-dns/src/cache.rs:105-112 | the elapsed time is the whole seconds since storing, saturating at both ends |
| `DnsCaches.FreshPacketsAgeExactly` | crates/doradus-dns/src/cache.rs:105-141 | while fresh every answer has lost exactly the elapsed seconds, or a SOA held down by the negative TTL has that less them; authority and additional records lose them or have reached zero; nothing else changes |
| `DnsCaches.FreshPacketsServePositiveTtls` | crates/doradus-dns/src/cache.rs:105-141 | while fresh, answers and authority SOAs are served with at least one second, SOAs with exactly the negative TTL less the elapsed seconds |
| `DnsCaches.ServedTtlsNeverGrow` | crates/doradus-dns/src/cache.rs:105-141 | served TTLs never grow with time; stale packets carry only zeros |
| `DnsCaches.AgeRawPacket` | crates/doradus-dns/src/cache.rs:105-141 | the record loops age every TTL of the three sections and change nothing else |
| `DnsCaches.TransientRepliesChangeNothing` | crates/doradus-dns/src/cache.rs:374-391 | truncated replies and error codes leave the cache as it was |
| `DnsCaches.CacheAgreesWithHistory` | crates/doradus-dns/src/cache.rs:371-416 | after any history each entry is its key's newest decisive insert, stamped when it arrived |
| `DnsCaches.HitIsLastDecisive` | crates/doradus-dns/src/cache.rs:279-310 | a hit is the newest decisive insert for its key |
| `DnsCaches.StoredIsFound` | crates/doradus-dns/src/cache.rs:400-414 | a stored reply is there for the next reader |
| `DnsCaches.SupersededIsGone` | crates/doradus-dns/src/cache.rs:374-398 | a decisive reply that may not be kept removes what was stored under its key |
| `DnsCaches.TransientExactly` | crates/doradus-dns/src/cache.rs:374-391 | a reply is transient exactly when it is truncated or its code is neither success nor name error |
| `DnsCaches.ReadForgetsExactlyExpired` | crates/doradus-dns/src/cache.rs:279-310 | a strict reader that finds its key expired throws it out, and no reader does anything else to the keys |
| `DnsCaches.StoreSweeps` | crates/doradus-dns/src/cache.rs:400-414 | over every history, storing a reply throws out every expired entry within the sweep budget |
| `DnsCaches.LogIsTouches` | crates/doradus-dns/src/cache.rs:46-61 | the order of use is the order of hits and stores over the history |
| `DnsCaches.LossHasCause` | crates/doradus-dns/src/cache.rs:279-416 | a key leaves only expired under a strict reader, replaced by a decisive reply without lifetime, swept out expired, or least recently used |
| `DnsCaches.CacheInvariant` | crates/doradus-dns/src/cache.rs:33-83 | the size never exceeds the capacity and the order is by last touch |
| `DnsCaches.EvictionIsLeastRecentlyUsed` | crates/doradus-dns/src/cache.rs:400-414 | over every history, an eviction for room took the least recently used key |
| `DnsCaches.DnsCache.New` | crates/doradus-dns/src/cache.rs:185-188 | a capacity of zero is refused, anything else gives an empty cache |
| `DnsCaches.DnsCache.GetPacket` | crates/doradus-dns/src/cache.rs:279-310 | serves the newest decisive insert aged to now, stale only when allowed; misses only what is absent or expired |
| `DnsCaches.DnsCache.InsertPacket` | crates/doradus-dns/src/cache.rs:371-416 | refuses exactly what does not decode, and keeps the cache equal to the replay of its history |
| `NatTables.ConservationOverEveryRun` | crates/doradus-core/src/nat.rs:144-493 | allocations equal active plus expired plus closed bindings; endpoints are never shared; no binding is empty |
| `NatTables.StepSound` | crates/doradus-core/src/nat.rs:144-456 | each of the eight operations keeps that invariant |
| `NatTables.StandsExactlyUndisturbed` | crates/doradus-core/src/nat.rs:144-456 | one operation leaves a source behind its endpoint if and only if it does not close it, rebind it or find it expired |
| `NatTables.MappingAcceptsEveryPeer` | crates/doradus-core/src/nat.rs:204-431 | after any operations that do not close, rebind or expire a source, packets to any destination leave from its one endpoint and an inbound lookup there finds it, until its idle timeout (sections 4.1 and 5 of RFC 4787) |
| `NatTables.OnlyInsertAndBindMap` | crates/doradus-core/src/nat.rs:144-304 | only an insert or a rebind puts a source behind an endpoint |
| `NatTables.FailedLookupLeavesNothing` | crates/doradus-core/src/nat.rs:386-431 | a reverse lookup that finds nothing leaves nothing behind the endpoint |
| `NatHistory.ExpiredExactlyWhenIdle` | crates/doradus-core/src/nat.rs:108-112 | over every run a binding counts as expired if and only if its idle timeout has passed since its last use, where a use is read off the operations |
| `NatHistory.ReadingDoesNotRenew` | crates/doradus-core/src/nat.rs:306-456 | reading or removing a source, removing a flow and sweeping do not move the last use |
| `NatHistory.UseRenews` | crates/doradus-core/src/nat.rs:144-431 | a revive, a touch, a rebind and an inbound lookup move it to their own time |
| `NatHistory.FlowsStep` | crates/doradus-core/src/nat.rs:144-327 | after any operation a flow is listed if and only if its source stands and the operation added it, or it was listed and the operation did not remove it |
| `NatHistory.CountersCountEvents` | crates/doradus-core/src/nat.rs:80-106 | over every run each counter is the number of operations with that result |
| `NatHistory.InsertSucceedsExactly` | crates/doradus-core/src/nat.rs:144-202 | when an insert is refused: a zero timeout, another endpoint, a taken endpoint |
| `NatHistory.TouchAnswersExactly` | crates/doradus-core/src/nat.rs:204-234 | a touch answers exactly for a source in use, with its endpoint |
| `NatHistory.BindSucceedsExactly` | crates/doradus-core/src/nat.rs:241-304 | when a rebind succeeds and which error it gives otherwise |
| `NatHistory.ReverseLookupAnswersExactly` | crates/doradus-core/src/nat.rs:386-431 | an inbound lookup answers exactly for the source in use behind the endpoint |
| `NatHistory.LookupSourceAnswersExactly` | crates/doradus-core/src/nat.rs:437-456 | a source lookup answers exactly for a source in use |
| `NatHistory.RemovalAnswersExactly` | crates/doradus-core/src/nat.rs:306-345 | what the two removals return |
| `NatIndexes.ReverseLookupIsSearch` | crates/doradus-core/src/nat.rs:397-406 | looking in the reverse index is a linear search of the bindings |
| `NatIndexes.InverseSizes` | crates/doradus-core/src/nat.rs:479-482 | forward and reverse index have the same size |
| `NatIndexes.NatTable.constructor` | crates/doradus-core/src/nat.rs:133-142 | the empty table |
| `NatIndexes.NatTable.RemoveBinding` | crates/doradus-core/src/nat.rs:64-70 | forward entry, reverse entry and gauge go together, without underflow |
| `NatIndexes.NatTable.Insert` | crates/doradus-core/src/nat.rs:144-202 | refines the one-map insert: revive, refuse another endpoint, refuse a taken endpoint, allocate |
| `NatIndexes.NatTable.Touch` | crates/doradus-core/src/nat.rs:204-234 | refines the one-map touch, expiry included |
| `NatIndexes.NatTable.BindTranslated` | crates/doradus-core/src/nat.rs:241-304 | refines the one-map rebind: expired, unknown, same, taken, moved |
| `NatIndexes.NatTable.Remove` | crates/doradus-core/src/nat.rs:306-327 | refines the one-map removal of a flow; the last flow closes the binding |
| `NatIndexes.NatTable.RemoveSource` | crates/doradus-core/src/nat.rs:333-345 | refines the one-map removal of a source and returns its flow count |
| `NatIndexes.CollectExpired` | crates/doradus-core/src/nat.rs:357-373 | lists each expired binding once and each of its flows once |
| `NatIndexes.NatTable.SweepKeys` | crates/doradus-core/src/nat.rs:351-381 | removes exactly the expired bindings and reports each of their flows once |
| `NatIndexes.NatTable.Sweep` | crates/doradus-core/src/nat.rs:347-349 | the number of flows that expired |
| `NatIndexes.NatTable.LookupTranslated` | crates/doradus-core/src/nat.rs:386-431 | refines the linear search, whatever the external source; reports one of the binding's flows |
| `NatIndexes.NatTable.LookupSource` | crates/doradus-core/src/nat.rs:437-456 | refines the one-map lookup, expiry included, without a new timestamp |
| `NatIndexes.NatTable.Gauges` | crates/doradus-core/src/nat.rs:474-493 | the three gauges are the sizes of the maps and of the set of flows, and the counters are conserved |
| `UdpRelays.UdpNatRelay.Bind` | crates/doradus-core/src/nat.rs:517-532 | refuses exactly a zero timeout; a new relay records nothing, and owns its address exactly when no UDP source is behind it |
| `UdpRelays.UdpNatRelay.SendTo` | crates/doradus-core/src/nat.rs:540-575 | one source per relay; touch then insert; a mapped source is recorded and behind this socket, also when the socket write then fails |
| `UdpRelays.UdpNatRelay.RecvFrom` | crates/doradus-core/src/nat.rs:577-602 | succeeds exactly when a packet came, a source is recorded and a live UDP binding is at this socket, whoever sent it |
| `UdpRelays.UdpNatRelay.Sweep` | crates/doradus-core/src/nat.rs:604-620 | drops the record exactly when something expired and no live UDP binding is at this socket |
| `UdpRelays.UdpNatRelay.Close` | crates/doradus-core/src/nat.rs:623-633 | no UDP source stays behind the socket; a second close changes nothing |
| `NatRelays.InvOverEveryRun` | crates/doradus-core/src/nat.rs:504-633 | locks, records and coverage hold over every interleaving of relays and other table users |
| `NatRelays.EveryBindingIsCovered` | crates/doradus-core/src/nat.rs:540-620 | every UDP binding at a relay's address is that relay's, on record or in hand |
| `NatRelays.NothingLeftBehind` | crates/doradus-core/src/nat.rs:604-633 | a relay with no record and nothing in hand has no UDP binding |
| `NatRelays.StaysReleased` | crates/doradus-core/src/nat.rs:540-633 | without a sender no interleaving gives a released relay a record back |
| `NatRelays.CloseFreesTheAddress` | crates/doradus-core/src/nat.rs:504-514 | once the record is taken and closes in progress return, the address is free, whatever else ran |
| `NatRelays.CloseOfIdleRelay` | crates/doradus-core/src/nat.rs:623-633 | a whole close of an idle relay, from any reachable state, frees its address |
| `NatRelays.SecondCloseChangesNothing` | crates/doradus-core/src/nat.rs:629-631 | a close of a released relay changes neither the table nor any record |
| `NatRelaySolo.SoloSend` | crates/doradus-core/src/nat.rs:540-575 | a send nothing interleaves with does to the table what the sequential relay does, and records its key exactly on success |
| `NatRelaySolo.SoloRecv` | crates/doradus-core/src/nat.rs:577-602 | a receive alone looks the recorded source up and touches it, or does nothing |
| `NatRelaySolo.SoloSweep` | crates/doradus-core/src/nat.rs:604-620 | a sweep alone sweeps the table and drops the record exactly when something expired and no live UDP binding is found |
| `NatRelaySolo.SoloClose` | crates/doradus-core/src/nat.rs:623-633 | a close alone removes the recorded source and the record |
| `NatRelays.TcpRecordCanBeLost` | crates/doradus-core/src/nat.rs:610-618 | a run that leaves an idle, unrecorded relay with a live TCP binding at its address |
| `HostsTables.Resolve` | crates/doradus-dns/src/dns_hosts.rs:271-293 | terminates; errors exactly on a cyclic chain, answers addresses exactly when the chain reaches them, none otherwise |
| `HostsTables.CycleNeverEnds` | crates/doradus-dns/src/dns_hosts.rs:278-292 | a chain that repeats a name goes on for ever |
| `HostsTables.SortDedup` | crates/doradus-dns/src/dns_hosts.rs:59-62 | strictly increasing, with exactly the elements given |
| `HostsTables.LessIsBytewise` | crates/doradus-dns/src/dns_hosts.rs:77-102 | names are compared at the first character where they differ, a prefix first |
| `HostsTables.Rebuild` | crates/doradus-dns/src/dns_hosts.rs:77-102 | at every address the strictly ascending list of exactly the domains that hold it |
| `HostsTables.IndexIsUnique` | crates/doradus-dns/src/dns_hosts.rs:77-102 | a table has only one such index |
| `HostsWrites.WriteKeepsTidy` | crates/doradus-dns/src/dns_hosts.rs:55-256 | no writer leaves an entry with both alias and addresses, a self alias, or a repeated address |
| `HostsWrites.SkippedRebuildIsHarmless` | crates/doradus-dns/src/dns_hosts.rs:168-198 | writers that skip the rebuild leave the index right |
| `HostsWrites.InsertedIsFound` | crates/doradus-dns/src/dns_hosts.rs:55-75 | after an insert the name holds exactly the given addresses, no alias and no port rows; every other name is untouched |
| `HostsWrites.EmptyInsertIsRefused` | crates/doradus-dns/src/dns_hosts.rs:55-58 | no addresses, no change |
| `HostsWrites.AddedIsFound` | crates/doradus-dns/src/dns_hosts.rs:142-159 | the name holds its old addresses and the new one, no alias, and its port rows |
| `HostsWrites.AliasIsFound` | crates/doradus-dns/src/dns_hosts.rs:205-218 | the name has the alias, no addresses and its port rows; a self alias changes nothing |
| `HostsWrites.PortRowIsFound` | crates/doradus-dns/src/dns_hosts.rs:168-203 | that port leads to its target; every other port, the addresses and the alias stay |
| `HostsWrites.OverrideWins` | crates/doradus-dns/src/dns_hosts.rs:223-243 | a name in the overrides has the override, any other name what it had |
| `HostsWrites.DeletedIsGone` | crates/doradus-dns/src/dns_hosts.rs:245-256 | the name is gone, every other name is untouched |
| `HostsWrites.IndexLagsOnlyWhilePending` | crates/doradus-dns/src/dns_hosts.rs:55-256 | over every interleaving of writers the entries stay tidy, and the index differs only while a rebuild is pending |
| `HostsWrites.QuietIndexIsDetermined` | crates/doradus-dns/src/dns_hosts.rs:77-102 | two runs that end quiet with the same entries end with the same index |
| `HostsWrites.HostsTable.Insert` | crates/doradus-dns/src/dns_hosts.rs:55-75 | refuses no addresses; otherwise replaces the entry and the index |
| `HostsWrites.HostsTable.InsertOneIp` | crates/doradus-dns/src/dns_hosts.rs:142-159 | adds one address, drops the alias, index up to date |
| `HostsWrites.HostsTable.AddAlias` | crates/doradus-dns/src/dns_hosts.rs:205-218 | refuses a self alias; otherwise drops the addresses, index up to date |
| `HostsWrites.HostsTable.InsertDomainTarget` | crates/doradus-dns/src/dns_hosts.rs:168-203 | a port row, a self row that is ignored, an address or an alias |
| `HostsWrites.HostsTable.OverlayWith` | crates/doradus-dns/src/dns_hosts.rs:223-243 | overriding entries win, index up to date |
| `HostsWrites.HostsTable.Delete` | crates/doradus-dns/src/dns_hosts.rs:245-256 | reports whether the entry was there, index up to date |
| `HostsWrites.HostsTable.ResolvePtr` | crates/doradus-dns/src/dns_hosts.rs:376-384 | the ascending list of exactly the domains holding the address |
| `ChainConfigs.ValidateTls` | crates/doradus-chain/src/config.rs:472-518 | accepts exactly an enabled node with names, decodable certificates and h2 before HTTP/2; gives the default ALPN |
| `ChainConfigs.FindAfter` | crates/doradus-chain/src/config.rs:344-347 | searching the position list finds the next runnable node of the suffix |
| `ChainConfigs.Validate` | crates/doradus-chain/src/config.rs:325-436 | the loop over positions agrees with checking every node against its suffix |
| `ChainConfigs.ValidationKeepsSettings` | crates/doradus-chain/src/config.rs:325-436 | node by node, what a validated chain keeps of its configuration and which defaults it fills in |
| `ChainConfigs.RefusedExactly` | crates/doradus-chain/src/config.rs:325-518 | a chain is refused if and only if nothing in it runs or some node is refusable, each reason written out |
| `ChainConfigs.AlpnExactly` | crates/doradus-chain/src/config.rs:494-507 | which protocols a TLS node offers |
| `ChainConfigs.ErasureCommutesWithValidation` | crates/doradus-chain/src/config.rs:325-436 | removing no-ops first gives the same verdict and the same runnable nodes, ALPN included |
| `ChainFolds.Fold` | crates/doradus-chain/src/chain_client.rs:51-159 | succeeds exactly when every node builds; the HTTP/2 list is exactly the tower's HTTP/2 layers; no missing parent is reported |
| `ChainFolds.LayerKeepsNode` | crates/doradus-chain/src/chain_client.rs:68-143 | a layer has every setting of its node, and only wrapping nodes have one |
| `ChainFolds.TowerStartsAtLastDirect` | crates/doradus-chain/src/chain_client.rs:68-149 | the tower is exactly the layers after the last direct node, on that node's interface |
| `ChainFolds.ErasureCommutesWithFold` | crates/doradus-chain/src/chain_client.rs:144-148 | removing no-ops first gives the same verdict, tower and HTTP/2 layers up to pool labels |
| `ChainFolds.ErasureKeepsBackend` | crates/doradus-chain/src/chain_proxy.rs:28-41 | and the same front end, with the whole client up to pool labels |
| `ChainFolds.ErasureKeepsLast` | crates/doradus-chain/src/chain_client.rs:514-541 | the last runnable node, which both searches look for, is the same |
| `ChainFolds.BackendExactly` | crates/doradus-chain/src/chain_proxy.rs:28-41 | which front end a chain gets, by the last node that runs |
| `ChainFolds.NoBackend` | crates/doradus-chain/src/chain_proxy.rs:28-41 | a chain in which nothing runs has none |
| `ChainFolds.ValidatedTowerHasTransportsBelow` | crates/doradus-chain/src/config.rs:371-423 | in a validated chain only the top of the tower speaks to the destination |
| `ChainFolds.ValidatedNodesBuild` | crates/doradus-chain/src/chain_client.rs:97-143 | a validated chain fails to fold only on a certificate or a blank WebSocket host |
| `DnsGates.LooksLikeSupportedQuery` | crates/doradus-dns/src/dns_codec.rs:324-377 | accepts exactly header, at most 127 labels of 1 to 63 bytes, root, one of five types, two class bytes, then anything (section 4.1 of RFC 1035) |
| `DnsGates.SpelledLabelsAreRead` | crates/doradus-dns/src/dns_codec.rs:338-370 | labels on the wire are found where their lengths put them |
| `DnsGates.ReadLabelsAreSpelled` | crates/doradus-dns/src/dns_codec.rs:338-370 | and whatever is read that way is a list of labels |
| `Varints.EncodeVarint` | crates/doradus-masque/src/codec.rs:28-42 | appends the integer, or refuses exactly those of 2^62 and more |
| `Varints.VarintRoundTrip` | crates/doradus-masque/src/codec.rs:28-63 | decoding gives the value and its size back, whatever follows |
| `Varints.DecodedByTopBits` | crates/doradus-masque/src/codec.rs:44-63 | the two top bits give the length, the other bits the value, byte by byte; too short an input is refused |
| `Varints.EncodedBytes` | crates/doradus-masque/src/codec.rs:28-42 | the bytes the encoder writes for each of the four ranges (section 16 of RFC 9000) |
| `Varints.EncodingIsShortest` | crates/doradus-masque/src/codec.rs:32-40 | no input that decodes to the value is shorter than the encoder's |
| `Varints.TruncatedVarint` | crates/doradus-masque/src/codec.rs:49-53 | every proper prefix of an encoding is refused |
| `Varints.DecodeReadsWhatItReports` | crates/doradus-masque/src/codec.rs:44-63 | decoding stays within its input and depends only on the bytes it reports |
| `Varints.EncodeDatagram` | crates/doradus-masque/src/codec.rs:4-10 | flow, zero context and payload, or a refusal |
| `Varints.DatagramRoundTrip` | crates/doradus-masque/src/codec.rs:4-26 | every flow below 2^62 and every payload come back unchanged |
| `Varints.DecodedExactlyWhenFramed` | crates/doradus-masque/src/codec.rs:12-26 | a datagram decodes exactly when it is an integer, a zero context in any width and the payload |

## Left out

- Sockets, TLS, QUIC, HTTP, listeners and dialling: foreign I/O, represented by outcomes of steps.
- The byte form of DNS messages and name compression: messages are values, except in the gate.
- The byte form of UDP-over-TCP frames: a frame is non-empty opaque bytes.
- The typed DNS cache: the same map and rules as the raw cache, on a smaller value.
- `ip_entries` and dispatch by port in the hosts table: field lookups.
- Parsing of chain JSON, host strings, base64, certificates and white space: functions of an environment.
- The direct UDP-over-TCP proxy chosen before the fold.
- Management API, storage, metrics export, scripts: wrappers.
- Lock poisoning, counter overflow, and wrap-around of transaction and retry ids: assumed not to happen.
- UotRecoverySafety.ClosedQueueDrains: one direction only; `ClosedQueueIsEmptyExactly` has both.
- UotRecoverySafety.ReplayPrecedesVisibility: a stream whose write failed, after any number of whole frames, is assumed to carry nothing more, as the source does not say what a failed transport does.
- UotRecoverySafety.SnapshotReachesTheWire: the same assumption about a failed stream.
- UotRecoverySafety.OneInstallPerGeneration: between an install and its bump the generation is one behind; the session lock is held there.
- SingleflightSafety.NoFollowerIsStranded: states that a way out always exists, by cancelling an owner whose upstream never answers; `SettledFlightIsLeft` covers every schedule once the flight is settled.
- UotDelivery.ReplayedExactlyWhenQueued: needs that no other queued datagram has the same target and payload, because frames carry no retry id; the replay as a whole is the queue either way.
- UotScenarios.LoneReconnectSucceeds: progress without interference; with it, progress depends on the scheduler and the network.
- UotScenarios.HealthySendSucceeds: the same.
- NatRelays.EveryBindingIsCovered: UDP bindings only, because a sweep looks for UDP only and `TcpRecordCanBeLost` shows the TCP case fails. Other users of the table are assumed never to map a UDP source onto a relay's socket (`Permitted`): the table itself would accept that for a source that has no binding.
- UdpRelays.UdpNatRelay.Bind: the relay is `Valid` only if no UDP source is behind its address yet, which a socket just bound to a free address is taken to satisfy.
- DnsGates.LooksLikeSupportedQuery: bit tests on a byte are written as divisions.
