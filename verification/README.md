# Sukko: delivery, recovery and control-plane invariants in Dafny

Sukko is a realtime fan-out platform: clients hold WebSocket or event-stream connections to a gateway and a
sharded server, messages come from Kafka, and a provisioning service keeps tenants, topics and routing rules.
This project models the parts whose correctness rests on interleavings or on invariants across operations, and
proves what the code and its comments promise about them. Where a promise does not hold of the code, the model
keeps the code as it is, exhibits a run or an input that breaks the promise, and proves the exact condition
under which it holds.

`dafny verify dfyconfig.toml` checks everything. Automatic induction is switched off on every lemma, so each
inductive proof is written out.

## What is modelled

| file | part of the system | form |
|---|---|---|
| `Common.dfy`, `SendQueue.dfy` | shared vocabulary, counting lemmas, bounded FIFO | functions |
| `CursorAuthorization.dfy` | which channels of a reconnect cursor may be replayed, and from where | method, any map order |
| `RecoveryVerdict.dfy` | the possible-gap list of the recovery verdict | method, sorting lemmas |
| `ReconnectRecovery.dfy` | reconnect against producers, broadcast and the write pump; the event-stream verdict | step machine |
| `ReplayOutcome.dfy` | what a reconnect may replay, why it ends as it does, and the frames of its verdict | runs |
| `ReplayProgress.dfy` | a reconnect never gets stuck | runs |
| `SubscriptionIndexing.dfy` | per-client sets and the reverse index over whole client lives | classes, step machine |
| `IndexReads.dfy` | lock-free index reads against copy-on-write writers | step machine over traces |
| `GapPipeline.dfy` | sequence numbers, drops, gap notifications, slow clients | method, step machine |
| `LiveReplay.dfy` | admission and rate limit of live replays | class, step machine with a clock |
| `ConnectionSlots.dfy` | semaphore, client pool, client table, connection counter, rate limiter entries | step machine |
| `Revocation.dfy` | token and user revocation against connection registration | class, methods, step machine |
| `TenantSlots.dfy` | per-tenant connection counter with compare-and-swap | step machine |
| `SseCursor.dfy` | the event-stream cursor over chains of reconnects | methods, chains |
| `TopicRouting.dfy` | routing rule validation, consume and create-only topic lists | methods |
| `RoutingService.dfy` | rule and topic operations over stores that fail | class |
| `RoutingRaces.dfy` | the same writers racing | step machine |
| `RuleTopics.dfy` | what they and topic deletions do to the rules' topics | runs |
| `RuleOvershoot.dfy` | a run of them that attains the overshoot bound | runs |
| `TenantSaga.dfy` | topic creation and rollback when a tenant is created | class, method |
| `SagaRaces.dfy` | concurrent creations of one tenant | step machine |
| `Markers.dfy` | the deny list of the provenance check | methods |
| `DiffScanner.dfy` | added lines recovered from a printed git diff, and the content policy | methods, round trip |

A step machine has one label per atomic operation on shared state (a critical section, an atomic instruction, a
channel operation, a store call); `Runs` ranges over all finite label sequences, so its theorems hold in every
interleaving. In the race of rule writers a few reads have no label: an early disjointness check, which can only turn
an add away, and the quota reads of a topic creation. A writer may look up its topics in any order there.

## Assumptions

- A record is readable by the replay no later than it is broadcast, and all records of a channel lie on the
  partition its cursor names.
- A fetch returns the next records of each requested partition in order, without holes.
- One broadcaster serves a client at a time; other deliveries (history, replay) may interleave with it.
- The claims of a connection stay fixed; a token or user revocation counts as long as the snapshot covers it.
- The clock used for the replay rate limit never goes back.
- Encoding and decoding the event-stream token are inverse on non-empty cursors.
- Tenant slugs contain no colon. Tenant records are unique by slug.
- A channel of the cursor that is authorized but not registered for live delivery is outside the lossless theorem;
  the gateway never sends one (`GatewayCursorIsLive`).
- Pattern syntax, normalization and matching, topic name syntax, letter case and regular expressions are parameters;
  only the carriage return folds to the carriage return.
- git quotes paths with control characters, quotes or backslashes, puts a tab after a path with a space, and
  gives a deleted file no added lines.

## Where the code falls short of its own account

- **Recovery verdict after a cancelled stream.** The frames of the verdict are each given up if the stream context
  is done, but the choice is made per frame, so `no_replay` can be dropped and `recovery_complete` still be
  enqueued. `MisleadingIff`: this is possible exactly when there is a possible gap to report; `VerdictSound`:
  never without a cancellation.
- **Gap anchor.** A comment says the first notification has the earliest position because the queue is FIFO. The
  overflow item goes back to the tail, so it can end up behind a newer item of its channel. `OrderedIff`: the queue
  keeps its order exactly without such an overtaking; `AnchorsHold`: then every anchor is right; `AnchorsIff`: an
  anchor goes wrong exactly when a merge moves a start back; `RequeueBreaksAnchor`: a run in which that happens.
- **Shared tokens.** The token index holds one connection per jti and forgets it when any holder unregisters.
  `TokenListedIff`: it lists a live connection exactly if no other one with its jti came or went meanwhile.
  `NoRevocationEscapes`: in any run, no revocation escapes for a connection whose jti no other live connection shared
  while it was live; reconnecting with the same token is fine. `EscapeFreeIff`: all runs are free of escapes exactly
  if no two connections share a jti. The lookup by jti ignores the tenant: `InnocentClosedIff`.
- **Rate limiter entries.** Teardown removes the entry under the id field of the client struct after the struct went
  back to the pool, where the id is zero or another connection's. `LimiterStateStays` and `LimiterLeaks`: a closed
  connection's entry is never removed. `ServedEntrySurvivesIff` and `CleanupHitsNext`: the cleanup can delete the
  entry of the connection that uses the struct next.
- **Rule limit and topic references under concurrency.** The limit can be overshot by the number of adds in flight
  (`RacesKeepDisjoint`, attained by `LimitOvershot`). A rule can lose its topic to a deletion that overlaps it
  (`ProvisionedIff`, `DanglingReference`); it cannot if deletions never overlap adds or replacements (`ApartIsSafe`).
- **Saga rollback.** `ExistingTopicsSparedIff`: topics that existed before are safe exactly if the Kafka adapter
  reports existing topics or its deletes have no effect. The failing kind, which deletes but does not report, is one
  the adapter contract permits (ws/internal/provisioning/interfaces.go:216-219: it "may" report); the repository
  has only the no-op adapter, with which every topic is safe. With two concurrent creations of one tenant, the
  loser's rollback can delete the winner's topics (`BackedIff`, `LiveTenantLosesTopics`); one at a time is safe
  exactly with an adapter that reports (`SerialSafeIff`).
- **Provenance scan.** The line scanner drops a trailing carriage return: `ExactIff`; plain markers are found
  all the same: `ScannedMarkers`.
- **Largest offset.** The start position after the largest 64-bit offset wraps around (`NextOffset`).

## Model

| member | source | states |
|---|---|---|
| CursorAuthorization.NextOffset | ws/internal/server/replay_shared.go:27-89 | the signed 64-bit value congruent to the successor: the successor itself, except that the largest offset gives the smallest value |
| CursorAuthorization.AuthorizeLastPos | ws/internal/server/replay_shared.go:27-89 | for every iteration order of the cursor map: no channel twice, only decodable channels of the own tenant with a topic, each of them named in the client's own tenant, with a decodable position and a topic, channels already held always authorized, the channel limit respected, each partition read from the record after some authorized channel's position, each start the minimum of offset+1 over the authorized channels of its topic and partition, no start without such a channel, positions empty exactly when nothing is authorized |
| CursorAuthorization.EligibleIff | ws/internal/server/replay_shared.go:33-62 | a channel is eligible exactly if it is in the cursor, its name starts with the non-empty tenant and a dot, its position decodes and it has a topic; it is then read on that topic and partition from the offset after its position |
| RecoveryVerdict.PossibleGapExact | ws/internal/server/replay_shared.go:175-201 | the possible-gap list is strictly sorted and holds exactly the requested channels that were not recovered |
| RecoveryVerdict.StrictlySortedUnique | ws/internal/server/replay_shared.go:190-201 | sorted and without repetition determines the list |
| RecoveryVerdict.RecoveryOutcome | ws/internal/server/replay_shared.go:175-201 | the loops compute that list; on an error or a truncation every requested channel is in it; truncation is reported only without an error |
| ReconnectRecovery.RunInv | ws/internal/server/replay_shared.go:98-151 | in every interleaving of producers, broadcasts, write pump and replay: a record missed by live delivery lies before the captured end of its partition, and all that was fetched and passes the filter is in the result unless the cap was hit |
| ReconnectRecovery.ReplayCovers | ws/internal/server/kafka/consumer.go:1444-1690 | an untruncated replay returns every record of an authorized channel from its cursor to the captured log end |
| ReconnectRecovery.LosslessReconnect | ws/internal/server/handlers_message.go:332-352 | in every interleaving, once the replay ended without error or truncation: every broadcast record past its cursor on a live, authorized channel lies below the captured log end and was enqueued by the replay, or lies at or past it, was not missed, did not exist at any state before registration was complete, and has a live delivery attempt made since |
| ReconnectRecovery.VerdictSound | ws/internal/server/grpc_service.go:216-254 | before `recovery_complete` the queue holds all records, from cursor to replay end, of every requested channel outside the possible-gap list, and, unless the stream was cancelled, that list and the truncation notice |
| ReconnectRecovery.RunVerdict | ws/internal/server/grpc_service.go:241-254 | the order of verdict frames is kept by every step |
| ReconnectRecovery.SentinelAlone | ws/internal/server/replay_shared.go:203-213 | from a cancelled stream the two notices can be given up and the sentinel still be sent |
| ReconnectRecovery.CanMislead | ws/internal/server/replay_shared.go:203-213 | a reconnect with a possible gap has a continuation that enqueues the sentinel without the list |
| ReconnectRecovery.MisleadingIff | ws/internal/server/replay_shared.go:203-213 | a reconnect about to report can end with the sentinel but without the list exactly when the list is not empty |
| ReconnectRecovery.ListMissingIff | ws/internal/server/grpc_service.go:241-254 | over every run that ends with the sentinel and a possible gap, the list is missing ahead of the sentinel exactly if the step that would enqueue it was given up |
| ReconnectRecovery.AuthorizedIsWellFormed | ws/internal/server/replay_shared.go:27-89 | what cursor authorization returns meets the hypotheses of the recovery theorems |
| ReconnectRecovery.GatewayCursorIsLive | ws/internal/gateway/sse.go:118-131 | an event stream's cursor, restricted by the gateway, authorizes requested channels only |
| ReconnectRecovery.ReplayInOrder | ws/internal/server/replay_shared.go:98-151 | in every run the replayed frames are fetched results, none twice, in log order within a partition, and the reported count is their number |
| ReplayOutcome.OnlyAuthorizedReplayed | ws/internal/server/kafka/consumer.go:1619-1675 | in every run each replayed frame is a log record of an authorized channel, at or past the start of its partition; there are no more of them than the cap |
| ReplayOutcome.PendingExactly | ws/internal/server/kafka/consumer.go:1523-1633 | while fetching, a partition is pending exactly until the fetch reaches its captured end |
| ReplayOutcome.OutcomeIff | ws/internal/server/replay_shared.go:98-151 | over every run the replay fails exactly if the backend failed or a cursor lay past the log end, and is truncated exactly if a result met a full queue, or at the end the cap was hit, the time had run out or a result had not serialized |
| ReplayOutcome.PossibleGapIff | ws/internal/server/replay_shared.go:175-201 | a requested channel is reported as a possible gap exactly if it was not authorized or one of those causes occurred |
| ReplayOutcome.VerdictExact | ws/internal/server/grpc_service.go:216-254 | over every run the verdict frames on the queue are the gap list if any, the truncation notice with the number replayed if truncated, and the sentinel, in this order and nothing else; a cancelled stream may leave some out |
| ReplayOutcome.LiveDelivery | ws/internal/server/broadcast.go:117-150 | over every run a record offered live is of a channel the client is indexed under and is on its queue unless the offer met a full one; the client is indexed under its earlier and its registered channels |
| ReplayOutcome.FreshNumbers | ws/internal/server/replay_shared.go:114-118 | live and replayed frames enqueued in a run carry fresh numbers that increase along the queue |
| ReplayProgress.CanRecover | ws/internal/server/replay_shared.go:98-151 | from every reachable undecided state with cursors in range and nothing gone wrong, a continuation completes the verdict, truncated exactly if the cap was hit |
| SubscriptionIndexing.LeaveMembers | ws/internal/server/connection.go:591-629 | leaving a list removes exactly the client and keeps it free of duplicates |
| SubscriptionIndexing.AddAllMembers | ws/internal/server/connection.go:556-587 | adding lists the client under the given channels too and nobody else anywhere else; lists stay non-empty and duplicate-free |
| SubscriptionIndexing.RemoveAllMembers | ws/internal/server/connection.go:634-670 | removing unlists the client from exactly the given channels; no empty list stays mapped |
| SubscriptionIndexing.RemoveUndoesAdd | ws/internal/server/connection.go:556-670 | removing after adding restores every list's members |
| SubscriptionIndexing.SubscriptionSet.AddMultiple | ws/internal/server/connection.go:424-430 | the set gains the channels |
| SubscriptionIndexing.SubscriptionSet.RemoveMultiple | ws/internal/server/connection.go:442-448 | the set loses the channels |
| SubscriptionIndexing.SubscriptionSet.List | ws/internal/server/connection.go:470-479 | every channel once, in an arbitrary order |
| SubscriptionIndexing.SubscriptionIndex.Add | ws/internal/server/connection.go:520-551 | the in-place update is the index operation above |
| SubscriptionIndexing.SubscriptionIndex.AddMultiple | ws/internal/server/connection.go:556-587 | the in-place update is the index operation above |
| SubscriptionIndexing.SubscriptionIndex.Remove | ws/internal/server/connection.go:591-629 | the in-place update is the index operation above |
| SubscriptionIndexing.SubscriptionIndex.RemoveMultiple | ws/internal/server/connection.go:634-670 | the in-place update is the index operation above |
| SubscriptionIndexing.CountNew | ws/internal/server/handlers_message.go:113-123 | the number of positions of the request that name a channel not held; zero for channels already held, and never less than what the request would really add |
| SubscriptionIndexing.Subscribe | ws/internal/server/handlers_message.go:107-139 | accepted exactly when channels are named and the limit is kept; then set and index change alike, otherwise neither; the set never exceeds the limit |
| SubscriptionIndexing.RunsAgree | ws/internal/server/connection.go:520-670 | set and index agree up to the operation in progress, over every run |
| SubscriptionIndexing.IndexAgreesOverRuns | ws/internal/server/client_lifecycle.go:55-76 | over subscribe, unsubscribe, reconnect, event-stream subscribe and disconnect: between its operations a client is listed under exactly its channels, those its last request about them asked to subscribe to; once gone it is listed nowhere; lists are never empty and never repeat a client |
| IndexReads.TraceSound | ws/internal/server/connection.go:520-629 | in every trace mapped cells are allocated and no two channels share one |
| IndexReads.DeadStaysDead | ws/internal/server/connection.go:591-629 | a cell deleted from the map is never stored to and never mapped again |
| IndexReads.FetchedCell | ws/internal/server/connection.go:683-706 | a fetched cell is still mapped, or dead with the list its channel had at an instant since the fetch |
| IndexReads.GetIsLinearizable | ws/internal/server/connection.go:683-706 | the list a lock-free read returns is the channel's list at some instant of the call |
| IndexReads.WriterRefinesIndex | ws/internal/server/connection.go:520-629 | publishing and removing on cells are the index operations; all other writer steps change no list |
| IndexReads.CriticalSection | ws/internal/server/connection.go:556-670 | from taking the lock to giving it back a writer turns every channel's list into what adding, or removing, all its channels makes of it |
| GapPipeline.SamePrefix | ws/internal/server/pump.go:544-565 | the longest prefix of the queue on one channel |
| GapPipeline.CoalesceGapNotifications | ws/internal/server/pump.go:544-565 | the merged notification is the hull of the maximal same-channel prefix with the first one's anchor; at most one foreign item is taken; the rest of the queue is untouched and in order |
| GapPipeline.OrderedIff | ws/internal/server/pump.go:392-405 | through a whole run the gap channel stays in sequence order on each channel exactly if no overflow item is put back behind an item of its own channel |
| GapPipeline.AnchorsIff | ws/internal/server/pump.go:544-565 | over every run with distinct positions, every notification always carries the position of the first number it covers exactly if coalescing never moves a start back |
| GapPipeline.AnchorsHold | ws/internal/server/pump.go:544-565 | in every run without such an overtaking, every notification, queued, in hand or sent, carries the position of the first number it covers |
| GapPipeline.DropAccounting | ws/internal/server/broadcast.go:117-186 | in every interleaving with the write pump the numbers handed out split into enqueued, dropped, used elsewhere and in progress; enqueued ones increase along the queue; every dropped one is covered by a same-channel notification (queued, in hand, or on the send queue), a counted loss, or one about to be made |
| GapPipeline.DroppedIffFull | ws/internal/server/broadcast.go:133-186 | over every run a number is dropped exactly if its send found the send queue full; a notification is lost for a reason exactly if one found the gap channel, or when forwarded the send queue, full; send outcomes are whether there was room |
| GapPipeline.DropsAnnounced | ws/internal/server/pump.go:392-419 | if no notification ever found its queue full, then at rest every dropped number is covered by a notification on the send queue |
| GapPipeline.NumbersKeepChannel | ws/internal/server/broadcast.go:130-140 | a number sent or dropped on a channel was handed out for a message of that channel |
| GapPipeline.SlowClientExactly | ws/internal/server/broadcast.go:188-259 | a transport is closed for slowness exactly when a run of consecutive failed sends reached the limit |
| GapPipeline.RequeueBreaksAnchor | ws/internal/server/pump.go:392-419 | from any reachable state with a full queue and no pending gaps, a run with an overtaking that ends with a notification carrying the position of a later message than the first it covers |
| LiveReplay.ReplayDiscipline | ws/internal/server/handler_replay.go:49-187 | in every run at most one replay per channel is in flight, its flag is up exactly as long, no flag is left when all are over, and any two successful replays of a channel finish at least the interval apart |
| LiveReplay.RejectionsHonest | ws/internal/server/handler_replay.go:49-65 | a request is told "in progress" exactly when one is in flight, and "rate limited" only if one succeeded less than an interval ago |
| LiveReplay.ReplayCompletes | ws/internal/server/handler_replay.go:49-187 | an admitted replay can be carried through; its channel is then rate limited for an interval and admitted again after it |
| ConnectionSlots.ConnectionConservation | ws/internal/server/grpc_service.go:133-285 | over every run of both transports, with failed upgrades and tenant hooks: occupied slots are the handlers past acquire, never above the maximum; table and counter never exceed them; a release never blocks; between operations slots, table and counter agree |
| ConnectionSlots.CountStep | ws/internal/server/handlers_ws.go:126-206 | every step of a handler moves semaphore and counter by what the handler gains or gives up |
| ConnectionSlots.PoolStep | ws/internal/server/connection.go:273-388 | a client struct is with one handler, in the pool, or dropped; it carries that handler's unique id or zero |
| ConnectionSlots.TableStep | ws/internal/server/client_lifecycle.go:55-77 | the client table holds exactly the structs of the tracked handlers |
| ConnectionSlots.StagesHaveCauses | ws/internal/server/handlers_ws.go:126-206 | over every run a handler is refused exactly if all slots were taken when it asked; it serves only after its tenant hook succeeded, is turned back only after that failed, and on WebSocket goes on only after a successful upgrade; only such a handler cleans the rate limiter |
| ConnectionSlots.LimiterStateStays | ws/internal/server/client_lifecycle.go:74-80 | once a handler has returned its struct, its rate limiter entry is there for good or never |
| ConnectionSlots.LimiterLeaks | ws/internal/server/client_lifecycle.go:74-80 | a run after which a closed connection still has its entry |
| ConnectionSlots.ServedEntrySurvivesIff | ws/internal/server/client_lifecycle.go:74-80 | in every reachable state the entry of a connection being served survives a step exactly unless that is the late cleanup of an earlier connection on the same struct |
| ConnectionSlots.CleanupHitsNext | ws/internal/server/client_lifecycle.go:74-80 | a run of two connections on one struct in which the first one's cleanup deletes the entry of the second while it is served |
| Revocation.ConnectionRegistry.Register | ws/internal/gateway/connection_registry.go:43-58 | the connection joins its subject's set and takes over its token's entry |
| Revocation.ConnectionRegistry.Unregister | ws/internal/gateway/connection_registry.go:61-78 | the connection leaves its subject's set, which goes when empty; the token's entry goes whoever holds it |
| Revocation.ConnectionRegistry.FindBySub | ws/internal/gateway/connection_registry.go:88-103 | every connection of the subject once, in an arbitrary order |
| Revocation.LookupsExact | ws/internal/gateway/connection_registry.go:43-103 | over every run a lookup by subject finds exactly the subject's live connections; a lookup by token finds only a live holder, and always finds one that no other live connection shared its token with while it was live |
| Revocation.TokenListedIff | ws/internal/gateway/connection_registry.go:43-78 | over every run the token index lists a live connection exactly if no other connection with its token registered or unregistered while it was live |
| Revocation.UnregisterUndoesRegister | ws/internal/gateway/connection_registry.go:43-78 | unregistering restores the subject index, and the token index exactly if the token had no entry before |
| Revocation.ApplyDelta | ws/internal/shared/provapi/revocation_stream.go:315-379 | the loops compute the pruned snapshot with all items applied in order, and the callbacks of its unexpired additions in order |
| Revocation.CoveredIsRevoked | ws/internal/shared/provapi/revocation_stream.go:162-185 | a covered revocation that matches makes the check answer "revoked" |
| Revocation.DeltaKeeps | ws/internal/shared/provapi/revocation_stream.go:315-367 | a delta keeps every revocation it neither displaces nor lets expire, and covers those it adds |
| Revocation.DeltaExact | ws/internal/shared/provapi/revocation_stream.go:315-367 | per token and per subject, the snapshot after a delta has what its last effective item says: the addition, nothing after a removal, and without such an item what was there and has not expired; nothing expired stays |
| Revocation.RevokedAfterDeltaIff | ws/internal/shared/provapi/revocation_stream.go:162-185 | after a delta a connection is revoked exactly if the revocation in force for its token is of its tenant, or the one for its subject has a later cutoff |
| Revocation.LiftedPasses | ws/internal/shared/provapi/revocation_stream.go:342-356 | a connection whose revocations were lifted last passes |
| Revocation.CallbackIff | ws/internal/shared/provapi/revocation_stream.go:375-380 | callbacks fire exactly for the unexpired additions |
| Revocation.HandleRevocation | ws/internal/gateway/gateway.go:714-761 | one callback closes the token's entry, or the subject's connections issued before the cutoff |
| Revocation.RunInv | ws/internal/gateway/gateway.go:763-799 | in every interleaving, a live connection matched by a finished lookup is closed, about to be closed, or before its own re-check; for token revocations as long as no other live connection shares its token |
| Revocation.AllFannedOut | ws/internal/gateway/gateway.go:714-761 | over every run, once the stream is idle, every revocation received and covered ever since has been fanned out |
| Revocation.NoRevocationEscapes | ws/internal/gateway/gateway.go:464-471 | once the stream is idle and the connection re-checked, a fanned-out revocation that the snapshot still covers has closed every connection it matches; always for user revocations, for token revocations unless at some point of the run another live connection shared the token of the live one |
| Revocation.SharedTokenEscapes | ws/internal/gateway/connection_registry.go:43-58 | two connections with one token: a run in which its revocation misses the first |
| Revocation.EscapeFreeIff | ws/internal/gateway/gateway.go:714-799 | no run lets a revocation escape exactly if no two connections share a token |
| Revocation.OnlyHitsClose | ws/internal/gateway/gateway.go:714-799 | a closed connection was hit by a received revocation |
| Revocation.InnocentClosedIff | ws/internal/gateway/gateway.go:719-726 | a connection can be closed although no received revocation names its tenant and token, or its tenant and subject with a later cutoff, exactly if it has a jti |
| TenantSlots.SlotSafety | ws/internal/gateway/tenant_connections.go:75-134 | in every interleaving of compare-and-swap loops, releases and limit changes: the counter is the number of slots held, between zero and the largest limit in force, and the underflow clamp is unreachable |
| TenantSlots.RefusedOnlyWhenFull | ws/internal/gateway/tenant_connections.go:75-95 | in every interleaving an attempt is refused only if it read a counter at its limit; losing a swap never refuses it |
| TenantSlots.LimitFromHistory | ws/internal/gateway/tenant_connections.go:51-71 | over every run the limit in force is the last one set for the tenant if positive, else the last positive default; no other step or tenant matters |
| TenantSlots.AttemptAlone | ws/internal/gateway/tenant_connections.go:75-95 | an undisturbed attempt succeeds exactly when a slot is free, and releasing restores the counter |
| SseCursor.IntersectCursorChannels | ws/internal/gateway/sse_cursor.go:76-94 | the cursor restricted to the requested channels |
| SseCursor.AdvanceLookup | ws/internal/gateway/sse.go:237-240 | the cursor holds each channel's last delivered position, or its baseline |
| SseCursor.EventLoop | ws/internal/gateway/sse.go:220-267 | a frame carries a token exactly when a position is unreflected and it is the first, or the cadence is reached, or the frame is a keep-alive; the token is the whole cursor as of that frame |
| SseCursor.BoundedStaleness | ws/internal/gateway/sse.go:241-248 | nothing positioned precedes the first token; with a cadence of N fewer than N positioned messages are ever unreflected |
| SseCursor.CadenceKept | ws/internal/gateway/sse.go:241-267 | after a keep-alive nothing is unreflected; other tokens after the first come only once the cadence is reached; every token reflects something new |
| SseCursor.HandleSSE | ws/internal/gateway/sse.go:118-267 | decode, restrict, seed and loop make a connection of the chain theorems |
| SseCursor.ChainCursor | ws/internal/gateway/sse.go:118-122 | over any chain of reconnects, cuts and lost frames, the client's token agrees channel by channel with an account of what it was delivered |
| SseCursor.CursorSurvives | ws/internal/gateway/sse_cursor.go:96-107 | a channel requested throughout never drops out; its position is the last one delivered before the last token received, over all connections, or the initial one |
| SseCursor.NeverResurrected | ws/internal/gateway/sse_cursor.go:69-94 | a channel left out of a connection that hands over a token stays out of all later tokens until delivered again |
| TopicRouting.ValidateRuleTopics | ws/internal/provisioning/topic_routing.go:131-164 | accepts exactly the valid destination lists; each error has its cause in the rule |
| TopicRouting.ValidateEgressDisjoint | ws/internal/provisioning/topic_routing.go:172-185 | accepts exactly the rule sets in which no ingress topic is an egress topic |
| TopicRouting.ValidateRoutingRules | ws/internal/provisioning/topic_routing.go:91-126 | accepts exactly the valid rule sets; empty and oversized sets, duplicate keys and bad patterns are told apart |
| TopicRouting.Dedup | ws/internal/provisioning/topic_routing.go:221-265 | first occurrences, in order: no repetition, same elements |
| TopicRouting.ConsumeTopicSuffixes | ws/internal/provisioning/topic_routing.go:221-235 | the default topic and the non-empty ingress topics, first occurrences in order |
| TopicRouting.CreateOnlyTopicSuffixes | ws/internal/provisioning/topic_routing.go:242-265 | the non-empty egress topics that are not consumed, first occurrences in order |
| TopicRouting.TopicPartition | ws/internal/provisioning/topic_routing.go:215-265 | the two lists never share a topic, validated or not; for validated rules they are the default with the ingress topics, and all egress topics, with the dead-letter topic in neither |
| RoutingService.TenantRouting.GetAll | ws/internal/provisioning/repository/routing_rules.go:257-308 | reading skips no stored rule and keeps its topics |
| RoutingService.TenantRouting.EnsureTopicProvisioned | ws/internal/provisioning/service.go:1167-1179 | the default topic, or a provisioned one whose lookup answers |
| RoutingService.TenantRouting.EnsureAllProvisioned | ws/internal/provisioning/service.go:1222-1234 | passes exactly when every referenced topic does |
| RoutingService.TenantRouting.ReplaceRoutingRules | ws/internal/provisioning/service.go:1182-1254 | succeeds exactly when the normalized set is acceptable and no store call fails; the rules change exactly then or when the write commits behind an error; patterns are stored normalized, egress topics only where the edition has them; rules stay valid, disjoint, unique, provisioned and within the limits |
| RoutingService.TenantRouting.AddRoutingRule | ws/internal/provisioning/service.go:1257-1353 | the same for one more rule, with the count checked before and uniqueness in the insert |
| RoutingService.TenantRouting.Insert | ws/internal/provisioning/repository/routing_rules.go:144-186 | the transaction inserts exactly if ingress and egress stay disjoint and pattern and priority are new |
| RoutingService.TenantRouting.DeleteRoutingRules | ws/internal/provisioning/service.go:1374-1398 | removes all rules unless a store call fails |
| RoutingService.TenantRouting.CreateTopic | ws/internal/provisioning/service.go:1430-1484 | creates exactly an admissible new topic within quota and edition |
| RoutingService.TenantRouting.DeleteTopic | ws/internal/provisioning/service.go:1508-1534 | deletes exactly a provisioned topic that no rule mentions, so no rule loses a topic |
| RoutingRaces.RacesKeepDisjoint | ws/internal/provisioning/repository/routing_rules.go:135-234 | in every interleaving of adds, replacements, topic lookups and deletions the rules stay valid, unique and disjoint; the configured and the edition limit are overshot by at most the adds in flight |
| RoutingRaces.RulesFromHistory | ws/internal/provisioning/repository/routing_rules.go:135-234 | over every run a rule is stored exactly if the last transaction that decides about it put it in |
| RoutingRaces.FinishedStays | ws/internal/provisioning/service.go:1182-1353 | a writer that committed or gave up never acts again |
| RuleTopics.ProvisionedIff | ws/internal/provisioning/service.go:1508-1534 | the topics of the stored rules, and those a writer in flight has found, exist throughout a run exactly if no deletion goes through while a stored rule refers to the topic or a writer in flight has found it |
| RuleTopics.ApartIsSafe | ws/internal/provisioning/service.go:1508-1534 | if no add or replacement is ever in flight together with a topic deletion, every rule has its topics throughout the run |
| RuleTopics.DanglingReference | ws/internal/provisioning/service.go:1516-1529 | for any valid rule whose topics can be created and any topic of it but the default, a run that leaves the rule stored without that topic |
| RuleOvershoot.LimitOvershot | ws/internal/provisioning/service.go:1290-1307 | the bound is attained: for any limit n and any number d of adds in flight, a run that ends with n + d rules, a replacement of n coming between the checks and the inserts of d |
| TenantSaga.CreateTenant | ws/internal/provisioning/service.go:332-396 | succeeds exactly when neither a create nor the insert reports an error; the topics afterwards are those before, with the created ones on success, and on failure with what was left by an error or a failed rollback and without what was taken away; never deletes an existing topic if the adapter reports existing topics or its deletes do nothing; a failure is without trace if no create took effect behind an error, the rollbacks work and the adapter reports; no other topic changes |
| TenantSaga.ExistingTopicsSparedIff | ws/internal/provisioning/service.go:332-396 | the saga spares every topic that existed before, whatever fails, exactly if the adapter reports existing topics or its deletes have no effect; otherwise a failed insert is enough to lose both; with the no-op adapter no topic changes |
| TenantSaga.FailureRestoresIff | ws/internal/provisioning/service.go:351-396 | the exact outcomes of the calls under which a failed saga leaves the topic set as it was, for a given set and for every set |
| SagaRaces.BackedIff | ws/internal/provisioning/service.go:332-396 | over every run of concurrent creations of one tenant, whatever calls fail with or without effect, the tenant and the calls on their way to it keep their topics exactly if no rollback deletes a topic that the tenant or another call needs |
| SagaRaces.SerialSafeIff | ws/internal/provisioning/service.go:332-396 | creations of one tenant one after the other, whatever calls fail with or without effect, never roll back a topic that is needed, exactly if the adapter reports existing topics |
| SagaRaces.TenantHasTopics | ws/internal/provisioning/service.go:372-396 | in such a run an existing tenant has both topics |
| SagaRaces.TopicsFromHistory | ws/internal/provisioning/service.go:332-396 | over every run a topic is there exactly if the last call that took effect on it created it |
| SagaRaces.CallsRollBack | ws/internal/provisioning/service.go:351-396 | a call is over only if its first create failed, it inserted the record or it went through its rollback |
| SagaRaces.LiveTenantLosesTopics | ws/internal/provisioning/service.go:372-396 | a run of two creations after which the tenant exists without topics |
| DiffScanner.SplitUnlines | scripts/check-provenance/main.go:250-253 | the scanner's lines of a printed text are its lines, a trailing carriage return dropped |
| DiffScanner.LoadAddedLines | scripts/check-provenance/main.go:241-285 | whatever diff the text was printed from, the loop returns the lines it adds, with paths, in order |
| DiffScanner.RoundTrip | scripts/check-provenance/main.go:230-285 | scanning the printed form of any zero-context diff gives exactly its added lines, whatever they look like |
| DiffScanner.ExactIff | scripts/check-provenance/main.go:250-253 | scanning a printed diff gives back its added lines unchanged exactly if none ends in a carriage return |
| DiffScanner.SkipPath | scripts/check-provenance/main.go:182-189 | some prefix matches |
| DiffScanner.CommitterAllowed | scripts/check-provenance/main.go:152-158 | allowed by domain or by the extra list |
| DiffScanner.CheckContent | scripts/check-provenance/main.go:169-177 | one finding per added line that is not skipped and has a marker, in order |
| DiffScanner.CheckCommit | scripts/check-provenance/main.go:145-179 | identity and message findings, each exactly for its cause, then the content findings; none exactly for a clean commit |
| DiffScanner.ContentFindingsMembers | scripts/check-provenance/main.go:169-177 | a content finding is there exactly for a violating line |
| DiffScanner.NoMarkerSlipsThrough | scripts/check-provenance/main.go:145-285 | every added line of a printed diff that contains a plain marker, or that an expression matches once a trailing carriage return is dropped, is reported under its path unless the path is skipped |
| DiffScanner.NoFalseAlarm | scripts/check-provenance/main.go:145-285 | every content finding goes back to such an added line |
| DiffScanner.ScannedMarkers | scripts/check-provenance/main.go:81-94 | the scanned line has a marker exactly if the added line contains a plain one or an expression matches it without its carriage return |
| DiffScanner.QuotedNeverSkipped | scripts/check-provenance/main.go:268-274 | a quoted path matches no skip prefix |
| DiffScanner.StripKeepsMarkers | scripts/check-provenance/main.go:81-94 | a marker not ending in a carriage return is found in the shortened line exactly if it was in the line |
| Markers.FirstMarker | scripts/check-provenance/main.go:77-94 | with a well-formed list, a marker is reported exactly for a text that contains a plain one in any case or matches an expression; the first plain one if there is one |
| Markers.TrimExact | scripts/check-provenance/main.go:128-142 | trimming takes white space at the two ends, all of it and nothing else |
| Markers.Match | scripts/check-provenance/main.go:81-94 | the two loops find that first marker |
| Markers.ParseMarkers | scripts/check-provenance/main.go:128-142 | plain lines become the plain markers, trimmed and in lower case, expression lines the expressions, without their prefix and case-insensitive, both in the order of the file; no marker is empty or ends in a carriage return |

## Left out

- Network and frame I/O, gRPC and HTTP plumbing, metrics, logging, configuration and process start-up.
- JWT validation, licence keys, the Kafka and Valkey clients, and message delivery from the bus to a shard.
- The text form of the event-stream token and of message payloads; positions and tokens are values here.
- Auth refresh: it swaps a connection's claims while the registry keeps the old keys.
- Renaming tenants, quotas and keys written after the tenant insert, and history delivery.
- A reconnect over WebSocket discards the truncation flag, so the lossless theorem speaks of untruncated replays only.
- Order of sequence numbers on the queue between history, live replay and broadcast to one client, where taking a number and enqueueing are not one step; only uniqueness is claimed there.
- Event-stream sessions cut before `recovery_complete`: a live message can move the cursor past records not yet replayed.
- Two creations of one tenant with the no-op adapter, which has no topics to race for.
- The total-connections statistic and the tenant hook's own bookkeeping.
- Markers.ParseMarkers: trims ASCII white space, U+0085 and U+00A0, not the other Unicode spaces; an invalid expression, which stops the program, is not modelled.
- Lines longer than the provenance scanner's 10 MB buffer, which it reports as an error.
- RoutingService.TenantRouting.ReplaceRoutingRules: which error is returned when several checks would fail is not stated.
- TenantSlots.SlotSafety: the counter is unbounded, not 64 bits wide.
