# A verified model of broker-message

This project models the MQTT 3.1.1 broker `broker-message`, its Go and Python
SDKs and the caching study beside it, in Dafny, and proves what they promise
over whole runs. `dafny verify dfyconfig.toml` checks everything.

| files | what they model |
|---|---|
| `HandOver` | a QoS 0 subscription catching up from the log and going live while a publisher appends, step by step in every interleaving |
| `AtLeastOnce`, `AtLeastOnceProof`, `AtLeastOnceTheorems`, `AtLeastOnceStreams` | QoS 1 delivery: the packet id cursor, inflight table, PUBACK, retransmission, stored offsets, any number of sessions and subscriptions of one client id, and what holds over every run |
| `AtLeastOnceCrash` | the same across crashes of the broker |
| `AtLeastOnceRuns`, `AtLeastOnceLimits` | runs built step by step that show where the guarantees end |
| `ExactlyOnce`, `SeenCache`, `OneCarrier` | the SDK's deduplicating consume loop, alone and composed with QoS 1 delivery over any number of connections |
| `EndToEnd`, `JointRun` | the publish path and QoS 1 delivery as one system, from the publisher to the handler, ids and bytes |
| `CrashSafety` | publishes with a crash allowed between any two storage writes |
| `Dedup`, `DedupWindow`, `DedupRestarts` | the producer deduplication store, its window specification, and runs with any number of restarts |
| `PublishPath`, `PublishCrash` | many sessions publishing through that store, and crashes in between |
| `PacketIds`, `Subscribers` | the packet id allocator; subscriber lists, channel closing and session ownership |
| `Packets`, `PacketFormats`, `SdkPackets`, `Envelope` | the wire formats of broker and SDKs; `PacketFormats` says which byte strings each parser accepts and how it refuses the others |
| `KeyValue`, `TopicLog`, `Offsets`, `ScanAgreement` | keys and values in Badger, the log scan, offsets and their reload |
| `CacheStores`, `WriteBackFlush`, `FlushWakeup`, `BatchSet` | the three caching strategies, write-back with Set and flush in two steps each, the flusher's wake-up channel, the chunked upsert |
| `TopicMatch` | access control patterns |
| `Bytes`, `Common` | byte strings, big-endian integers, lexicographic order; shared limits |

Objects whose methods update fields are classes (`Dedup.Store`,
`SeenCache.Cache`, `PacketIds.Allocator`, `Subscribers.Topic`, `TopicLog.Topic`,
`Offsets.Offsets`, the cache strategies); each method is proved against a
function on values, and the theorems are about that function. Concurrent
behaviour is a transition system: a `State`, an `Action`, `Enabled` and `Step`,
one action for each atomic point of the code (an atomic add, a storage write, a
lock region, a channel operation, a socket write), and theorems over every
sequence of actions.

Several promises hold only under conditions on the environment. Where they do,
the condition is a predicate on the run (`Disciplined`, `RoomyRun`,
`NoStaleRead`, `FreshRun`, `CleanCrashes`), the model still contains the
behaviour outside it, and a lemma shows what goes wrong there or that the
condition is exact:

- Publishes of one topic are handled one at a time (`core/topic/topic.go:158-192`
  holds no lock from the seq allocation to the fan-out);
  `AtLeastOnceLimits.ConcurrentPublishersLoseARecord` and
  `CrashSafety.ConcurrentPublishersLoseAcked` are runs with two at once.
- PUBACKs arrive in delivery order, as section 4.6 of MQTT Version 3.1.1
  requires of clients; `core/transport/mqtt/session.go:392` stores whatever seq
  was acknowledged. `AtLeastOnceLimits.OutOfOrderAckIff` says exactly when one
  out of order leaves a gap.
- The packet id cursor does not lap a copy, of this topic or of another one on
  the connection, that is still outstanding after it has left the inflight
  table. This is the only thing asked of the allocator: that the ids it hands
  out are fresh is proved (`AtLeastOnceProof.EnterIsFresh`), and connections that
  are sent at most 65535 messages meet the condition by themselves
  (`AtLeastOnceTheorems.FewMessagesAreDisciplined`).
  `AtLeastOnceLimits.ForeignAckLosesARecord` is a run in which the PUBACK of
  another topic's copy stands for a record of this one.
  `AtLeastOnceLimits.ReusedIff` says exactly when an id is handed out that is
  still carried, and `LappedIdLosesARecord` is a run in which that loses a record.
- No channel is full at a fan-out and at most 500 records wait at a
  registration; `AtLeastOnceLimits.CatchUpLimitLosesARecord` is a run with 501,
  and `HandOver.NothingDroppedIff` is exact for the channel.
- The broker does not crash between the record write and the seq key write of a
  publish. `AtLeastOnceCrash.CrashSurvivedIff` shows that delivery survives a
  crash exactly then: the left-over record can reach the client, which
  acknowledges it, and the next record under its seq is never sent.
  `PublishPath.CrashOverwritesUnsaved` shows the same on the publish path.
- Publishers leave the server message id to the broker.
  `core/topic/topic.go:160-163` keeps one that a publisher sends, so two records
  can share it and the consumer side drops the second
  (`EndToEnd.SharedServerIdIsDropped`); `EndToEnd.PublishKeepsDistinctIff` is the
  exact condition.
- A storage write succeeds or takes the process down. The code only logs a
  failed write of the seq key (`core/topic/topic.go:180-182`);
  `CrashSafety.FailedSeqWriteLosesAcked` shows what follows.

Bit operations are written as arithmetic (`x & 0x7F` as `x % 128`, `|` of
disjoint bits as `+`). Clock readings, fresh UUIDs, iteration orders and Badger
iterators are parameters. Go strings are byte strings.

The consumer cache belongs to a connection (`sdk/go/brokermq/client.go:44`). It
keeps a retransmission on the same connection from the handler, as the
repository's README promises; a record redelivered over the next connection
reaches the handler again. `ExactlyOnce.HandlerCalls` counts the calls in
general, `ExactlyOnce.ReconnectRunsHandlerAgain` is such a run, and
`ExactlyOnce.TidyClientsHandleOnce` says what a client can do about it.

## Model

| member | source | states |
|---|---|---|
| HandOver.DeliveredInOrder | core/transport/mqtt/session.go:254-330 | in every interleaving, whatever is dropped and however long the backlog, delivered seqs strictly increase and each delivered message is the log's record of its seq above the starting offset |
| HandOver.HandOverIsExact | core/transport/mqtt/session.go:254-330 | once live and drained, the subscriber has been sent exactly the log above the offset it had stored before, no gap and no duplicate, if and only if the backlog at registration was at most 500 and no fan-out of a record beyond the catch-up found its registered channel holding 256 messages |
| HandOver.NothingDroppedIff | core/topic/topic.go:184-191 | over every run nothing is dropped if and only if no fan-out finds a registered channel holding 256 messages |
| HandOver.DroppedIsMetFull | core/topic/topic.go:184-191 | a seq is dropped exactly when its fan-out found the registered channel full |
| HandOver.HandOverHappens | core/transport/mqtt/session.go:278-330 | for every stored log of at most 500 records and every further list of records there is a run that catches up, goes live, publishes and is sent all of them |
| HandOver.CheckDecides | core/transport/mqtt/session.go:320-322 | in every reachable live state the offset test passes exactly the messages the catch-up did not cover |
| HandOver.StepKeepsInv | core/topic/topic.go:157-221 | every step of publisher and subscriber keeps the conservation between log, catch-up, channel and delivered messages |
| AtLeastOnceTheorems.NothingUnackedBelowOffset | core/transport/mqtt/session.go:378-394 | through any sessions, disconnects and re-subscribes every seq from the first to the stored offset was processed by the client and acknowledged, unless it met a full channel or the catch-up limit |
| AtLeastOnceTheorems.UnackedIsSentAgain | core/transport/mqtt/session.go:278-288 | the catch-up of every later subscription sends a stored record exactly when it lies above the offset read, up to the catch-up limit, records that met a full channel or an earlier limit included; whatever else was left unacknowledged always lies above it |
| AtLeastOnceTheorems.SettledMeansAllAcked | core/transport/mqtt/session.go:300-330 | once a subscription is live and drained with nothing outstanding, every record above the first offset was processed and acknowledged |
| AtLeastOnceTheorems.NothingSkippedIff | core/topic/topic.go:185-191 | a run leaves no record out of a channel or a catch-up if and only if no channel is full at a fan-out and no registration finds more than 500 waiting records |
| AtLeastOnceTheorems.RoomyRunsLoseNothing | core/transport/mqtt/session.go:335-394 | at-least-once delivery without exceptions for such runs |
| AtLeastOnceTheorems.FewMessagesAreDisciplined | core/transport/mqtt/session.go:79-92 | when no connection is sent more than 65535 messages, of this topic and others together, every run with serialised publishes and PUBACKs in order meets all conditions of these theorems |
| AtLeastOnceTheorems.FirstCycleIsDisciplined | core/transport/mqtt/session.go:79-92 | so does every such run whose ids are all handed out in the first cycle of their connection |
| AtLeastOnceTheorems.FirstCycleIsDense | core/transport/mqtt/session.go:79-92 | in its first cycle the cursor moves one place for each message, whatever is acknowledged in between |
| AtLeastOnceStreams.CarriedIsHandledAndStored | core/transport/mqtt/session.go:335-376 | in every run, disciplined or not, what the client has processed is exactly what its connections carried, and all of it is stored |
| AtLeastOnceStreams.UnsubscribedGetsNothingNew | core/transport/mqtt/session.go:437-449 | over every continuation in which the session stays, what an unsubscribed subscription still takes from its channel, and what is left in it, is exactly what was in it at that moment: no later record enters |
| AtLeastOnceStreams.ChannelsAreBounded | core/topic/topic.go:184-191 | over every run no channel holds more than its 256 places |
| AtLeastOnceCrash.CleanCrashesLoseNothing | core/topic/topic.go:111-119 | across any number of crashes, none of them between a record write and its seq key write, everything up to the stored offset was acknowledged, and once a subscription has settled every record above the first offset was processed, full channels and the catch-up limit excepted |
| AtLeastOnceCrash.CrashSurvivedIff | core/topic/topic.go:177-182 | every disciplined continuation after a crash delivers every record if and only if no record was stored above the seq key when it came |
| AtLeastOnceCrash.CrashLosesARecord | core/transport/mqtt/session.go:320-322 | a life in which a crash comes between the two writes, the offset not yet above the seq key, and the record published next is dropped live and by every catch-up |
| AtLeastOnceProof.StepKeepsInv | core/transport/mqtt/session.go:243-472 | each of the 25 kinds of step keeps the chain: on every session's wire and in every line towards it, a seq is preceded by all smaller unacknowledged ones |
| AtLeastOnceProof.AckKeepsInv | core/transport/mqtt/session.go:379-390 | taking the PUBACK of the oldest copy, known or already acknowledged, out of the inflight table keeps it |
| AtLeastOnceProof.SaveOffsetKeepsInv | core/transport/mqtt/session.go:392-392 | so does the offset write that follows outside the lock, even when it moves the offset backwards |
| AtLeastOnceProof.NumberKeepsSession | core/transport/mqtt/session.go:79-92 | the place where the allocator stops gives an id that no outstanding copy of the session carries, unless the cursor has lapped one |
| AtLeastOnceProof.EnterIsFresh | core/transport/mqtt/session.go:344-356 | what is entered in the inflight table, in its own lock region, is under an id that nothing in the table, on the wire, collected for retransmission or entered by another delivery carries |
| AtLeastOnceProof.ResendKeepsSession | core/transport/mqtt/session.go:396-435 | writing a copy collected earlier by the retransmit loop keeps it, even if its packet was acknowledged in between |
| AtLeastOnceProof.FanOutKeepsInv | core/topic/topic.go:184-192 | so does fanning a record out to every open channel of every session, full ones included |
| AtLeastOnceProof.ScanKeepsInv | core/transport/mqtt/session.go:278-288 | so does the catch-up scan from an offset read earlier |
| AtLeastOnceLimits.ConditionsCanBeMet | core/transport/mqtt/session.go:243-394 | for every n a run that meets all conditions, publishes and delivers n records and settles |
| AtLeastOnceLimits.ConcurrentPublishersLoseARecord | core/topic/topic.go:157-192 | a run with two publishers at once after which a settled subscription was never sent a stored record |
| AtLeastOnceLimits.OutOfOrderAckIff | core/transport/mqtt/session.go:378-394 | in every state a disciplined run reaches, the PUBACK of any outstanding copy leaves everything up to the saved offset settled if and only if every smaller seq sent before it is settled |
| AtLeastOnceLimits.OutOfOrderAckLeavesAGap | core/transport/mqtt/session.go:378-394 | a run with such a PUBACK and a disconnect that leaves a stored record unacknowledged below the offset |
| AtLeastOnceLimits.LappedIdLosesARecord | core/transport/mqtt/session.go:396-435 | a run of 65536 records, publishes serialised and PUBACKs in order, in which a copy held by the retransmit loop is written under a reused packet id and its PUBACK acknowledges a record that was never written |
| AtLeastOnceLimits.ReusedIff | core/transport/mqtt/session.go:79-92 | the allocator hands out an id that an outstanding copy carries if and only if some outstanding copy outside the inflight table stands a whole number of cycles behind |
| AtLeastOnceLimits.ForeignAckLosesARecord | core/transport/mqtt/session.go:378-394 | a run in which the packet id of another topic's unanswered copy comes round to a record of this topic and its PUBACK moves the offset past the record unsent |
| AtLeastOnceLimits.CatchUpLimitLosesARecord | core/transport/mqtt/session.go:281-287 | a disciplined run on a topic with 501 waiting records after which a settled subscription was never sent a stored record below the offset |
| AtLeastOnceLimits.RedeliveredAfterReconnect | core/transport/mqtt/session.go:457-472 | a run that meets all conditions in which the client processes a record, disconnects before its PUBACK and reads it again over the next connection |
| AtLeastOnceLimits.AckedYetRedelivered | core/transport/mqtt/session.go:315-323 | a run that meets all conditions in which overlap of catch-up and channel moves the offset back, every copy is acknowledged before the connection ends, and an acknowledged record is carried again by the next |
| OneCarrier.TidyStreamsAreDisjoint | core/transport/mqtt/session.go:278-323 | when a client holds one connection at a time and ends it only with the stored offset at or above everything processed, no record is ever carried by two connections |
| ExactlyOnce.OneCallIff | sdk/go/brokermq/client.go:148-184 | on any redelivery schedule of a connection the handler runs at least once for every record carried, and exactly once if and only if the cache has taken in fewer than `cap` ids since its first copy whenever another copy comes |
| ExactlyOnce.FewBetweenIsKept | sdk/go/brokermq/dedup.go:24-41 | fewer than `cap` other records between the first and the last copy are enough for that |
| ExactlyOnce.EachRecordOnce | sdk/go/brokermq/client.go:148-184 | on any redelivery schedule of at most `cap` distinct records the handler runs exactly once for each |
| ExactlyOnce.CallsCountCarriers | sdk/go/brokermq/client.go:39-49 | over any connections the handler runs for a record at least as often as there are connections that carried it, and exactly as often if and only if each cache keeps its id long enough |
| ExactlyOnce.HandlerCalls | sdk/go/brokermq/client.go:141-186 | in every run of the broker, with any disconnects, the handler runs exactly once for a record if and only if one connection carried it and kept its id |
| ExactlyOnce.EveryRecordHandled | sdk/go/brokermq/client.go:141-186 | end to end on every disciplined, roomy run: once a subscription has settled the handler has run for every record above the first offset, and exactly once if and only if one connection carried it, given fewer than `cap` other records between its copies |
| ExactlyOnce.EveryRecordHandledOnce | sdk/go/brokermq/client.go:141-186 | over a single connection: exactly once for every record above the first offset |
| ExactlyOnce.TidyClientsHandleOnce | sdk/go/brokermq/client.go:141-186 | for such a client, over any number of connections of a disciplined, roomy run: exactly once for every record above the first offset |
| ExactlyOnce.ReconnectRunsHandlerAgain | sdk/go/brokermq/client.go:39-49 | a run that meets all conditions in which a reconnect redelivers a record and the handler runs twice for it |
| EndToEnd.ServerIdsAreDistinct | core/topic/topic.go:157-177 | in every interleaving of publishing sessions, crashes included, records of all topics have distinct server ids that are not nil, when envelopes arrive without one and new ids are fresh |
| EndToEnd.PublishKeepsDistinctIff | core/topic/topic.go:160-164 | a stored publish keeps server ids distinct if and only if the id it brings or is given is not nil and no record has it |
| EndToEnd.DeliveredLogIsHandled | core/topic/topic.go:157-196 | the log of any such run, delivered over any connections, reaches the handler as EveryRecordHandled says, with no assumption on ids left |
| JointRun.EveryPublishedRecordIsHandled | core/topic/topic.go:157-196 | publisher to handler in one run, where allocation, record write and seq key write are steps of publishing and delivery at once: once a subscription has settled, every record published above the first offset has reached the handler, exactly once if and only if one connection carried it; and that record is a message some session received for the topic |
| JointRun.EchoIsEnabled | core/topic/topic.go:157-182 | the delivery side never holds a publish step up |
| EndToEnd.PayloadReachesHandler | sdk/go/brokermq/client.go:141-185 | the bytes of an SDK publish are read by the broker as that envelope, and every PUBLISH of the stamped record, first copy or retransmission, gives the handler the published payload, time and idempotency id and the record's server id |
| EndToEnd.PlainPayloadIsKept | sdk/go/brokermq/client.go:163-166 | a payload that no envelope encodes to is handed on as it is |
| EndToEnd.SharedServerIdIsDropped | core/topic/topic.go:160-163 | two publishes with different idempotency ids and one server id are both stored, and the handler runs for the first only |
| SeenCache.CacheIsWindow | sdk/go/brokermq/dedup.go:24-41 | on every stream `keys` is duplicate-free, equal to the set, within `cap`, and exactly the last `cap` accepted ids, and those are the ids that count as seen |
| SeenCache.HandlerRunsOnce | sdk/go/brokermq/client.go:167-179 | the handler runs for the first copy of an id and for no later one while fewer than `cap` other ids come in between |
| SeenCache.HandledAgainIff | sdk/go/brokermq/dedup.go:24-41 | after a copy for which the handler ran, the next copy reaches it again if and only if the cache has taken in at least `cap` ids in between |
| SeenCache.BoundIsTight | sdk/go/brokermq/dedup.go:35-39 | after exactly `cap` other new ids the next copy reaches the handler again |
| SeenCache.Cache.Note | sdk/go/brokermq/dedup.go:24-41 | the in-place update computes the specified answer and state |
| SeenCache.Cache.constructor | sdk/go/brokermq/dedup.go:17-22 | an empty cache of at least 1024 places |
| SeenCache.Consume | sdk/go/brokermq/client.go:148-184 | the loop follows the cache on every stream, runs the handler exactly for what it has not seen, and acknowledges the packet ids that `AcksAreAllIds` describes |
| SeenCache.AcksAreAllIds | sdk/go/brokermq/client.go:167-182 | the acknowledged ids are those at the positions of all copies with a packet id, seen or not, each once and in order |
| SeenCache.ReachedFacts | sdk/go/brokermq/client.go:148-184 | the handler calls the loop makes are exactly the deliveries whose id the cache had not seen, each once and in order of arrival |
| CrashSafety.AckedStayForever | core/topic/topic.go:157-182 | whatever crashes happen, a record once acknowledged stays on disk with the same contents in every continuation, the restored counter never being below it |
| CrashSafety.RestartSafeIff | core/topic/topic.go:111-119 | after a restart every disciplined continuation keeps every acknowledged record if and only if the seq key has reached every acknowledged seq |
| CrashSafety.StepKeepsSafe | core/topic/topic.go:157-196 | every step, crash included, keeps acknowledged records on disk and the seq key at or above them |
| CrashSafety.ConcurrentPublishersLoseAcked | core/topic/topic.go:177-182 | two publishers at once can move the seq key below an acknowledged record, which a restart then endangers |
| CrashSafety.FailedSeqWriteLosesAcked | core/topic/topic.go:180-182 | so does a seq key write that fails without a crash |
| DedupWindow.StoreIsWindow | core/dedup/dedup.go:51-89 | after every serial run from an empty store `order` is a duplicate-free contiguous suffix of the remembered ids equal to the keys of memory and disk, and Check finds an id exactly when it is among the last `capacity` remembered and not past its TTL, with the entry it was given |
| DedupWindow.CheckIsWindow | core/dedup/dedup.go:51-66 | the same for one Check in any valid state, whose only effect is the sweep |
| DedupWindow.RestartAgreement | core/dedup/dedup.go:165-199 | throwing memory away and keeping the disk does not change the first Check of any id at any later time |
| DedupWindow.ReloadedIdOutlivesItsTtl | core/dedup/dedup.go:59-63 | after that first Check an id reloaded from disk is still reported past its TTL |
| DedupRestarts.FoundAcrossRestarts | core/dedup/dedup.go:51-66 | after any run with any number of restarts Check finds exactly the ids inside the running process's window, those it has reloaded before, and those earlier processes left on disk that are not past their TTL; no answer is invented and no id inside the window of everything ever remembered is missed |
| DedupRestarts.CheckParts | core/dedup/dedup.go:51-66 | one Check on such a store: its answer, and what it does to the entries of earlier processes |
| DedupRestarts.RestartKeepsSound | core/dedup/dedup.go:33-48 | a restart leaves memory and order empty and every entry of the old process among those left on disk |
| Dedup.StaleHitCondition | core/dedup/dedup.go:149-163 | from every store state Check answers with an expired entry exactly when the id is expired in memory but not in `order` |
| Dedup.SeenOrRememberIsCheckThenRemember | core/dedup/dedup.go:91-131 | from every store state and for every pair of clock readings it equals Check, then Remember on a miss: same verdict, entry, memory, order and disk |
| Dedup.EntryRoundTrip | core/dedup/dedup.go:169-199 | the 32-byte record gives the entry back exactly when its expiry fits an int64 of nanoseconds |
| Dedup.DiskKeyInjective | core/dedup/dedup.go:165-167 | different ids have different disk keys |
| Dedup.Store.constructor | core/dedup/dedup.go:33-48 | an empty memory over the given disk, capacity at least 1024, a positive TTL |
| Dedup.Store.EvictExpired | core/dedup/dedup.go:149-163 | the in-place sweep keeps exactly the live ids, in order, and erases the rest from memory and disk |
| Dedup.Store.LoadFromDisk | core/dedup/dedup.go:182-199 | a live record is found; an expired one is deleted |
| Dedup.Store.Lookup | core/dedup/dedup.go:51-66 | Check on the object is the specified function of its state and clock readings |
| Dedup.Store.EvictOldest | core/dedup/dedup.go:81-88 | the eviction loop trims to capacity from the front |
| Dedup.Store.Record | core/dedup/dedup.go:69-89 | Remember on the object is the specified function |
| Dedup.Store.MoveToEnd | core/dedup/dedup.go:139-147 | the first occurrence of the id moves to the end, or nothing changes |
| Dedup.Store.SeenOrRecord | core/dedup/dedup.go:93-131 | SeenOrRemember on the object is the specified function |
| PublishPath.EveryAckIsBacked | core/transport/mqtt/session.go:193-241 | in every interleaving of sessions each PUBACK is for an id some log holds and each dedup entry, in memory and on disk, names a log record with that idempotency id, server id and seq |
| PublishPath.RepeatLeavesLogsUnchanged | core/transport/mqtt/session.go:210-241 | handled one at a time, a publish leaves every log unchanged exactly when its id is inside the dedup window, otherwise appends one record under the next seq, which is the published message: its idempotency id, time, properties and payload, under its own server id or the broker's new one; it is acknowledged exactly at QoS 1 |
| PublishPath.StepKeepsFreshSeqs | core/topic/topic.go:157-179 | concurrent sessions never share a seq and never overwrite a record |
| PublishCrash.AcksOutliveCrashes | core/transport/mqtt/session.go:210-239 | with publishes serialised per topic and crashes at any point, every PUBACK ever sent and every dedup entry in memory and on disk stands for a record with that idempotency id, server id and seq, which keeps its contents in every continuation |
| PublishCrash.RepeatAfterCrashIsBacked | core/dedup/dedup.go:182-199 | after a restart a repeat whose entry is alive on disk is acknowledged without storing anything, and the record the entry names is there |
| PublishCrash.StepKeepsSafe | core/topic/topic.go:111-119 | every step, crash included, keeps that and leaves every record alone that its topic's seq key has reached |
| PublishPath.RecordsAreMessages | core/topic/topic.go:157-179 | in every interleaving, crashes included, every record in a log has the idempotency id, time, properties and payload of a message some session received for that topic, and its server id if it brought one |
| PublishPath.CrashOverwritesUnsaved | core/topic/topic.go:111-119 | after a crash between record write and seq key write the next publish of the topic takes the same seq and overwrites the record |
| PublishPath.AcceptTakesEnvelopes | core/transport/mqtt/session.go:199-202 | a payload that encodes a storable envelope is accepted as that envelope, and a payload is wrapped, under the fresh id and without server id or properties, exactly when no envelope encodes to it |
| PublishPath.TwoMissesStoreTwice | core/transport/mqtt/session.go:211-229 | two sessions that looked an id up before either remembered it store it twice |
| PublishPath.Accept | core/transport/mqtt/session.go:199-202 | whatever is accepted has an idempotency id and either encodes to the payload or carries it whole |
| PacketIds.Allocator.Alloc | core/transport/mqtt/session.go:79-92 | whenever an id is free the wrapping loop stops within 65535 steps at the first free id from the cursor on |
| PacketIds.Allocator.Advance | core/transport/mqtt/session.go:84-87 | the 16-bit increment skips zero |
| PacketIds.IdsDistinctWithinCycle | core/transport/mqtt/session.go:79-92 | over any run of calls and any changes of the inflight table, no returned id is inflight and the same id returns only after the cursor has moved at least 65535 places |
| PacketIds.FreeMeansReturns | core/transport/mqtt/session.go:82-91 | a free id is found from every cursor position within one cycle |
| Subscribers.BookkeepingIsExact | core/transport/mqtt/session.go:263-276 | over every run a channel is closed exactly when it has left its list, no fan-out happens while its list holds a closed channel, unsub twice is harmless, a session owns one subscriber per filter, and none remain after clean-up |
| Subscribers.DropForgets | core/transport/mqtt/session.go:437-447 | after UNSUBSCRIBE, and after one turn of the clean-up loop, the session holds nothing for that filter, the channel it held is closed and off the list, and nothing else changes |
| Subscribers.RegisterAdds | core/topic/topic.go:198-205 | SUBSCRIBE puts one new open channel at the end of the list |
| Subscribers.AdoptReplaces | core/transport/mqtt/session.go:263-273 | then the session holds the new channel for the filter and no other, and the one it held before is closed and off the list |
| Subscribers.EverySessionCanLeave | core/transport/mqtt/session.go:457-472 | in every run the clean-up of a session comes to an end, touches no other session, and leaves every channel the session ever had closed and off its list |
| Subscribers.Topic.Subscribe | core/topic/topic.go:198-205 | the channel is appended |
| Subscribers.Topic.Unsub | core/topic/topic.go:207-218 | the channel leaves the list and is closed if it was there; otherwise nothing changes |
| Subscribers.AdoptKeepsInv | core/transport/mqtt/session.go:267-273 | replacing an older subscription of the same filter keeps ownership exact |
| Packets.LengthRoundTrip | core/transport/mqtt/packet.go:137-154 | the remaining length round-trips exactly for 0..268435455, in at most 4 bytes; longer encodings are rejected |
| Packets.EncodeRemainingLength | core/transport/mqtt/packet.go:380-394 | the loop writes seven bits a byte, least significant first |
| Packets.ReadRemainingLength | core/transport/mqtt/packet.go:137-154 | the loop computes the specified reading, end of stream and overflow included |
| Packets.ReadStringIff | core/transport/mqtt/packet.go:156-166 | a string is read exactly when its encoding stands at that position, on any input, and the next position is right after it |
| Packets.ReadEncodedString | core/transport/mqtt/packet.go:375-378 | an encoded string is read back wherever it stands in the body |
| Packets.ParseSubscribe | core/transport/mqtt/packet.go:281-303 | the loop yields all filters in order, or the first fault |
| Packets.ParseUnsubscribe | core/transport/mqtt/packet.go:305-322 | the same for filter names |
| Packets.ReadPacketLocal | core/transport/mqtt/packet.go:79-135 | a successful read consumes a prefix of the stream and depends on nothing after it: the same packet is read from those bytes whatever follows |
| Packets.ReadFrame | core/transport/mqtt/packet.go:79-135 | a framed body is parsed as exactly that body and what follows is left alone, unless it is too long |
| PacketFormats.ConnectIff | core/transport/mqtt/packet.go:168-245 | a CONNECT body is accepted with this client id, credentials, clean session flag and keep-alive exactly when it begins with a well-formed CONNECT that has them: either protocol name, any level, with or without will, user name and password |
| PacketFormats.ReadsConnect | core/transport/mqtt/packet.go:79-110 | each such CONNECT is read off the wire in front of anything |
| PacketFormats.ConnectBreaks | core/transport/mqtt/packet.go:168-245 | one that breaks off is refused with the fault of the field it breaks off in |
| PacketFormats.OtherProtocol | core/transport/mqtt/packet.go:171-178 | any other protocol name is refused, whatever follows |
| PacketFormats.PublishIff | core/transport/mqtt/packet.go:247-279 | a PUBLISH body is read as this packet exactly when it is the packet's layout and the flags are its flags |
| PacketFormats.PublishFault | core/transport/mqtt/packet.go:247-279 | otherwise it has no whole topic, or its QoS asks for a packet id that is not all there |
| PacketFormats.SubscribeIff | core/transport/mqtt/packet.go:281-303 | a SUBSCRIBE body is read as this id and these filters exactly when it is their encoding under some options bytes with the same two lowest bits |
| PacketFormats.SubscribeFault | core/transport/mqtt/packet.go:281-303 | a body shorter than a packet id and one that breaks off inside a filter are refused as such |
| PacketFormats.SubscribeWithoutOptions | core/transport/mqtt/packet.go:281-303 | so is one that ends after a filter without its options byte |
| PacketFormats.UnsubscribeIff | core/transport/mqtt/packet.go:305-322 | an UNSUBSCRIBE body is read as this id and these names exactly when it is their encoding |
| PacketFormats.UnsubscribeFault | core/transport/mqtt/packet.go:305-322 | otherwise it is shorter than a packet id or breaks off inside a name |
| PacketFormats.ReadsUnsubscribe | core/transport/mqtt/packet.go:79-135 | an UNSUBSCRIBE is read off the wire in front of anything |
| PacketFormats.ReadsPubAck | core/transport/mqtt/packet.go:113-117 | a PUBACK is read as its id, as the SDK writes it and with anything after the id |
| PacketFormats.ReadsEmptyPackets | core/transport/mqtt/packet.go:130-130 | `C0 00` is PINGREQ and `E0 00` is DISCONNECT |
| PacketFormats.RefusesOtherKinds | core/transport/mqtt/packet.go:113-134 | every other packet type is refused by its number, and a PUBACK without a whole id as too short |
| PacketFormats.CutPacket | core/transport/mqtt/packet.go:79-100 | a stream that ends inside a packet is an end of stream, wherever it ends |
| Packets.PublishRoundTrip | core/transport/mqtt/packet.go:333-349 | a written PUBLISH is read back as itself if and only if topic and body fit their length fields, retain is unset and QoS 0 has no packet id |
| Packets.StreamFraming | core/transport/mqtt/packet.go:79-135 | reading any concatenation of written PUBLISH packets returns exactly that list, then the end of the stream |
| SdkPackets.ConnectRoundTrip | sdk/go/brokermq/client.go:71-100 | the broker reads an SDK CONNECT back field by field, with the given credentials exactly when a password comes with a username |
| SdkPackets.SubscribeRoundTrip | sdk/go/brokermq/client.go:219-233 | SUBSCRIBE bytes parse back to their packet id and filters |
| SdkPackets.SdkAgreesWithBroker | sdk/go/brokermq/client.go:268-284 | on every body the broker accepts the SDK parser sees the same topic, payload and packet id |
| SdkPackets.BrokerToSdk | sdk/go/brokermq/client.go:247-284 | every PUBLISH the broker can write reaches the SDK's reader with its topic, payload and packet id, and what follows it is left alone |
| SdkPackets.SdkPassesOver | sdk/go/brokermq/client.go:155-160 | a packet of any other type is passed over and what follows it is left alone |
| SdkPackets.SdkOnShortBodies | sdk/go/brokermq/client.go:268-284 | where the broker would refuse the SDK gives nothing, or leaves a cut packet id in the payload as id 0 |
| SdkPackets.SdkCutPacket | sdk/go/brokermq/client.go:247-266 | a stream that ends inside a packet gives nothing |
| SdkPackets.SdkToBroker | sdk/go/brokermq/client.go:197-217 | a PUBLISH of the SDK is read by the broker as exactly its fields if and only if topic and body fit their length fields and QoS 0 has no packet id |
| SdkPackets.SdkLengthRoundTrip | sdk/go/brokermq/client.go:302-316 | the SDK's reader of the remaining length undoes the writer for every length |
| Envelope.DecodeEncode | core/envelope/envelope.go:67-117 | Decode undoes Encode if and only if the idempotency id is not nil and the props fit their 16-bit length |
| Envelope.EncodeDecode | core/envelope/envelope.go:85-117 | Encode undoes Decode on every accepted byte string, negative timestamps included |
| Envelope.DecodeInjective | core/envelope/envelope.go:85-117 | two accepted byte strings with the same fields are equal |
| Envelope.StampedKeepsMessage | core/envelope/envelope.go:61-64 | giving an envelope its server id changes no other field and no other byte |
| Envelope.CutEnvelope | core/envelope/envelope.go:85-117 | an envelope cut short is refused as too short, unless only its payload is cut |
| Envelope.AlteredEnvelope | core/envelope/envelope.go:85-117 | one altered byte of magic or version, or a nil id, is refused as what it is |
| Envelope.PythonAgreesWithGo | sdk/python/brokermq/envelope.py:47-59 | Python accepts all that Go accepts with the same fields modulo 2^64 for time, and beyond that exactly a nil id or an overlong props length |
| Envelope.PythonToGo | sdk/python/brokermq/envelope.py:34-45 | what Python encodes, Go decodes to the same fields, for signed and unsigned timestamps |
| Bytes.TwoBytes | core/transport/mqtt/packet.go:375-378 | a 16-bit length is its high byte, then its low one |
| Bytes.BigEndian | core/offsets/offsets.go:83-87 | integers are written most significant byte first: a byte weighs 256 to the number of bytes after it |
| KeyValue.ScanUnique | core/storage/badger.go:100-122 | two iterators over the same store from the same place list the same keys, so a scan has no freedom |
| TopicLog.KeyOrder | core/topic/topic.go:121-123 | keys order exactly as their seqs and are equal only for equal seqs |
| TopicLog.KeyParsesBack | core/topic/topic.go:238-242 | a key parses back to its seq |
| TopicLog.GetMessages | core/topic/topic.go:223-254 | on any store it fails exactly when one of the first `limit` values cannot be decoded and otherwise returns those values decoded; on a store holding a log these are the first `limit` records from `from` on, ascending and complete, each with the ids, timestamp and payload it was published with |
| TopicLog.AppendedIsRead | core/topic/topic.go:157-254 | GetMessages(n, 1) after record n was appended answers with one message: that seq, and payload, time and idempotency id of the envelope that was published |
| TopicLog.OldRecordIsRead | core/topic/topic.go:129-155 | a record in the pre-envelope layout is read back with its seq, time and payload and without ids, unless its bytes are an envelope; only values of fewer than 16 bytes are refused |
| TopicLog.SmallSeqIsNoEnvelope | core/topic/topic.go:129-155 | which they are not while its seq fits in 32 bits |
| TopicLog.HexAlphabet | core/topic/topic.go:121-123 | keys are written with the digits 0 to 9 and A to F |
| TopicLog.LoadSeqDefaults | core/topic/topic.go:111-119 | without a whole seq key the counter starts from 0 |
| TopicLog.FirstRecordsUnique | core/topic/topic.go:223-254 | that specification determines the list |
| TopicLog.StoredIsFannedOut | core/topic/topic.go:129-175 | a stored record is read back as the very message its publisher fanned out |
| TopicLog.Topic.Append | core/topic/topic.go:157-182 | publishing puts one record under the next seq, a new one on a log that ends at the counter: the published bytes with the server id stamped into bytes 21 to 36 and nothing else changed; it stores that seq and touches no other key |
| TopicLog.Topic.constructor | core/topic/topic.go:111-119 | the counter is what the seq key says |
| ScanAgreement.ScansAgree | core/transport/mqtt/session.go:281-286 | the seqs of the messages read from the store are the seqs the delivery model's scan returns |
| Offsets.ReloadIsMemory | core/offsets/offsets.go:34-45 | offsets reloaded from a store in step with memory are that memory |
| Offsets.LoadedReads | core/offsets/offsets.go:34-45 | a stored value counts by its first eight bytes, and one shorter than that not at all |
| Offsets.TopicWritesKeepInStep | core/topic/topic.go:177-182 | records and seq keys in the same store never disturb offsets |
| Offsets.OffsetWritesKeepLog | core/offsets/offsets.go:83-87 | offset writes never disturb the log or the seq key |
| Offsets.ClientsAreSeparate | core/offsets/offsets.go:30-32 | one client's offset never moves another's |
| Offsets.Offsets.LoadFromStorage | core/offsets/offsets.go:34-45 | the scan loads exactly the keys under the prefix with at least eight bytes |
| Offsets.Offsets.Get | core/offsets/offsets.go:47-51 | a missing client is at offset 0 |
| Offsets.Offsets.Set | core/offsets/offsets.go:53-61 | memory and store move together, other keys stay |
| Offsets.Offsets.Inc | core/offsets/offsets.go:63-71 | the same for an increment modulo 2^64 |
| Offsets.Offsets.Delete | core/offsets/offsets.go:73-81 | the same for a removal |
| CacheStores.StrategiesAgree | tasks/task_4/internal/store/store.go:6-12 | the three strategies give the replies of a plain map on every sequence of reads, writes, flushes and spontaneous expiry |
| CacheStores.PairHoldsWrites | tasks/task_4/internal/store/write_through.go:24-49 | under cache-aside and write-through the database is the plain map after every operation, and what is cached is true of it |
| CacheStores.PairCachesWhatWasFilled | tasks/task_4/internal/store/cache_aside.go:26-53 | a key is cached exactly when a read found it, or under write-through a write put it there, and nothing took it out since |
| CacheStores.DatabaseIsLastFlush | tasks/task_4/internal/store/write_back.go:161-173 | under write-back the database is the plain map as it was at the last flush, and right after a flush nothing is dirty |
| CacheStores.DirtyIsUnflushed | tasks/task_4/internal/store/write_back.go:87-95 | the dirty keys are exactly those written since the last flush |
| CacheStores.BufferedCachesWhatWasFilled | tasks/task_4/internal/store/write_back.go:59-95 | a key is cached exactly when it was written, or read out of the database, and has not expired since |
| CacheStores.CacheAside.Fetch | tasks/task_4/internal/store/cache_aside.go:26-44 | a miss fills the cache from the database |
| CacheStores.CacheAside.Store | tasks/task_4/internal/store/cache_aside.go:46-53 | a write goes to the database and forgets the cached value |
| CacheStores.WriteThrough.Fetch | tasks/task_4/internal/store/write_through.go:24-41 | a miss fills the cache from the database |
| CacheStores.WriteThrough.Store | tasks/task_4/internal/store/write_through.go:43-49 | a write goes to database and cache |
| CacheStores.WriteBack.Fetch | tasks/task_4/internal/store/write_back.go:59-85 | cache, then dirty set, then database |
| CacheStores.WriteBack.Store | tasks/task_4/internal/store/write_back.go:87-95 | a write goes to cache and dirty set, whose size is reported |
| CacheStores.WriteBack.TakeBatch | tasks/task_4/internal/store/write_back.go:162-170 | the dirty set is handed over whole and left empty |
| CacheStores.WriteBack.FlushAll | tasks/task_4/internal/store/write_back.go:161-173 | an uninterrupted flush merges the dirty set into the database |
| WriteBackFlush.LatestIsConserved | tasks/task_4/internal/store/write_back.go:161-173 | in every run the latest values are the database overlaid by the taken batch overlaid by the dirty set |
| WriteBackFlush.FlushReachesDatabase | tasks/task_4/internal/store/write_back.go:161-173 | whatever happens between taking a batch and committing it, the database then holds the values that were the latest when it was taken |
| WriteBackFlush.ReadsAreCurrentIff | tasks/task_4/internal/store/write_back.go:59-93 | with Set in its two writes, every read of a run is current if and only if none misses on a key whose value in a taken, uncommitted batch differs from the database, and none finds what an earlier read filled into the cache between the two writes of a Set |
| WriteBackFlush.FromTheStart | tasks/task_4/internal/store/write_back.go:59-112 | conservation and this condition for every run from the start on any database |
| WriteBackFlush.ReadIsCurrentIff | tasks/task_4/internal/store/write_back.go:59-85 | the same for one read |
| WriteBackFlush.LateFillOutlivesSet | tasks/task_4/internal/store/write_back.go:83-93 | a fill between the two writes is current then, and stale once the Set is done |
| WriteBackFlush.ReadInsideSetGoesStale | tasks/task_4/internal/store/write_back.go:87-94 | the shortest run with such a fill |
| WriteBackFlush.StaleMissOutlivesCommit | tasks/task_4/internal/store/write_back.go:76-84 | a stale miss fills the cache, so reads stay stale after the commit |
| FlushWakeup.NoWakeupIsLost | tasks/task_4/internal/store/write_back.go:135-159 | in every interleaving, when the dirty set has reached the batch size a token is pending, a setter will send one, or the flusher is awake before its snapshot |
| FlushWakeup.PendingStepsFlush | tasks/task_4/internal/store/write_back.go:107-112 | from there at most five steps already under way carry the whole dirty set to the flusher, without the timer |
| FlushWakeup.DirtyIsUnflushed | tasks/task_4/internal/store/write_back.go:87-112 | in every run the dirty set is exactly what has been put since the last hand-over |
| FlushWakeup.NoIdleWakeup | tasks/task_4/internal/store/write_back.go:107-112 | while the dirty set stays below the batch size no token is sent |
| FlushWakeup.TimerFlushes | tasks/task_4/internal/store/write_back.go:135-152 | at a tick a waiting flusher takes over what is there and goes back to waiting |
| BatchSet.BatchSet | tasks/task_4/internal/db/sqlite.go:60-104 | the 400-pair statements equal one map merge whatever the iteration order, their number is the length over 400 rounded up, and a failed one leaves the database as it was |
| BatchSet.Statements | tasks/task_4/internal/db/sqlite.go:77-102 | the chunk loop writes every row once and stops at the failing statement |
| BatchSet.Execute | tasks/task_4/internal/db/sqlite.go:86-96 | one statement writes its rows in order |
| TopicMatch.MatchTopic | core/auth/auth.go:66-84 | the loop decides the recursive reading of a pattern |
| TopicMatch.SplitJoins | core/auth/auth.go:70-71 | the levels of a name hold no slash and joined with slashes are the name again |
| TopicMatch.SplitOnly | core/auth/auth.go:70-71 | no other levels without slashes are |
| TopicMatch.MatchesIff | core/auth/auth.go:72-83 | a topic matches exactly when, up to the first `#` of the pattern or its end, each level is the topic's or a `+`; after a `#` come any number of levels, otherwise none |
| TopicMatch.MatchIsCoverage | core/auth/auth.go:98-108 | for a filter without `#` matching it as a topic decides exactly whether the pattern covers all its topics |
| TopicMatch.HashFilterIsNotCoveredIff | core/auth/auth.go:98-108 | for a filter with `#` the check lets it through although the pattern does not cover it exactly when the pattern follows the filter level by level up to its first `#` and has a `+` there, a leading `+/#` against a leading `#` excepted |
| TopicMatch.HashFilterIsNotCovered | core/auth/auth.go:98-108 | the shortest such pair: `+` and `#` |
| TopicMatch.RefusedIsNotCovered | core/auth/auth.go:66-84 | a filter the check refuses is never covered |
| TopicMatch.Allowed | core/auth/auth.go:86-108 | an administrator, an empty list or a matching pattern |

## Left out

- Sessions as objects: `handleSubscribe`, `deliverMessage`, `handlePubAck` and the retransmit loop are steps of a transition system on values, since what they promise lies in their interleavings; aliasing of message pointers between channels and inflight table is not captured.
- Several topics and clients at once in `HandOver` and `AtLeastOnce`: one topic and one client id. Deliveries of other topics over the same connection appear as the places they take from its packet id cursor and as the PUBACKs of their copies, one of which can stand for a message of this topic once the cursor has lapped it.
- Concurrent live subscriptions of one client id at QoS 0: `HandOver` has one; at QoS 1 any number is modelled.
- Socket write errors: a session's writes succeed until it disconnects.
- Two overlapping flushes of the write-back store, two Sets at once, a Set between the database read and the cache fill of a Get, and a failed batch whose pairs are lost: one flusher, one Set at a time, atomic Get, commits that succeed.
- SDK `readRemainingLength` on encodings of ten bytes and more, where its 64-bit shift drops bits: `SdkDecodeLength` is unbounded. The SDK's own packet id counter.
- Topic purge, admin server, replay, WebSocket tail, login, TLS, bcrypt, configuration, metrics.
- CONNACK, SUBACK, UNSUBACK and PINGRESP: fixed bytes that nothing in the repository reads back.
- Will messages, retained messages, QoS 2 flows and keep-alive: parsed or ignored by the broker, with no behaviour behind them.
- Registry directories and topic loading: one topic object per name.
- Logs that mix in records of the pre-envelope layout: their decoding is proved, the log theorems are about records written by Publish.
- Badger, Redis and SQLite internals; their operations are contracts over maps, and cache TTL is arbitrary expiry.
- tasks/task_2, tasks/task_3, tasks/task_5 and the benchmark programs.
- Uint64 exhaustion of topic seqs: the models require a seq below 2^64 to be left.
