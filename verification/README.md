# A verified model of protobus-go

protobus-go is an RPC, streaming and event layer over RabbitMQ. Its reliability rests on a few
small concurrent state machines and on two pure pieces, the topic matcher and the envelope codec.
This project models them in Dafny and proves what they promise, for every input and every run.

Concurrent parts are state machines: one action per section under a mutex or per channel operation,
with every interleaving, failure and crash as an action of its own. The code's mutable objects are
also given as classes (`PubChannel`, `Trie`, `ServerStream`, `ClientStream`, `SessionState`,
`Checker`, `Inflight`, `PendingCall`, `Registry`, the broker's `Server`) whose methods, with the
source's loops, are proved equal to the steps of the machines.

| files | what they model |
|---|---|
| `Basics` | what several modules share |
| `PublishConfirms*` | publisher confirms: slots, one writer assigning tags, returns without tags, shutdown |
| `Topics`, `TopicTrie` | topic patterns, the reference matcher, and the trie on the heap |
| `ProtoWire`, `Envelope` | the Protocol Buffers wire format and the five envelopes |
| `Headers`, `RetryHops`, `Routing` | header readers, the retry ladder, the declared topology and where messages go |
| `Settlement*`, `SettlePath` | a late-ack consumer over the broker, with lost acks, ambiguous publishes and dying channels |
| `StreamServer`, `StreamClient`, `StreamEndToEnd`, `StreamBuffers` | server streams from handler to caller, and the allowance the streams share |
| `Session`, `SessionRuns` | readiness, restoration, attaching, and the reconnection delay |
| `Handlers`, `CallTable`, `CancelRegistry` | handler slots and draining, calls awaiting replies, cancel registrations |
| `CustomTypes` | the cached, pruned check of bigints over a cyclic descriptor graph |
| `Broker*` | the in-memory broker: queues, dispatch, prefetch, settlement, channel death |

Three properties the design hopes for are false as they stand, and the exact condition is proved
instead. A tagless return is attributed exactly, throughout a run, if and only if bounces come
first: no older outstanding twin was spared by the broker when a return was read. The same
condition decides whether the verdicts of a run whose confirms have all been read are the broker's
own (`AttributionExactIff`, `VerdictsExactIff`; in the run of `TwinTakesTheBlame` a bounced
publication returns nil). The retry ladder ends if and only if MaxRetries is at most 2^31-1, where
the counter clamps (`LadderEndsIff`). And a stream that drops its buffer returns the bytes to the
shared allowance before the buffer is cleared, so the buffers together may exceed the total for a
moment, under any limits that let a byte be buffered (`AlwaysWithinIff`); they never do while no
drop is under way (`TotalHolds`).

## Model

| member | source | states |
|---|---|---|
| PublishConfirms.PubChannel.constructor | pubchan.go:94-116 | a new channel holds no publication, no slot and the configured capacity |
| PublishConfirms.PubChannel.Settle | pubchan.go:85-92 | the first settlement wins and frees one slot; a second changes nothing |
| PublishConfirms.PubChannel.MarkReturned | pubchan.go:170-192 | the oldest pending mandatory publication with the return's id, exchange and key is marked, and nothing else |
| PublishConfirms.PubChannel.Resolve | pubchan.go:194-211 | a confirm settles exactly the publication under its tag, as acked, nacked or unroutable; unknown tags change nothing |
| PublishConfirms.PubChannel.Shutdown | pubchan.go:213-224 | every pending publication is settled as ambiguous, no other is touched, and nothing stays pending |
| PublishConfirms.PubChannel.Register | pubchan.go:238-262 | the publication is pending under its tag before it is written |
| PublishConfirms.PubChannel.FailWrite | pubchan.go:263-277 | a failed write takes the publication back, but never one a later registration put under the same tag |
| PublishConfirmsInvariant.StepKeepsInv | pubchan.go:118-277 | every step of callers, writer, event loop, drain and broker keeps the invariant of the whole channel |
| PublishConfirmsTheorems.SlotsBound | pubchan.go:306-348 | in every run the slots held are exactly the unsettled publications, at most MaxOutstandingConfirms |
| PublishConfirmsTheorems.SettledOnce | pubchan.go:85-92 | a settlement, a returned result, a mark and the address of a publication never change afterwards, so a slot is freed once |
| PublishConfirmsTheorems.NoSlotLeaks | pubchan.go:213-236 | after shutdown, with no caller or writer in mid-handoff, every slot is free |
| PublishConfirmsTheorems.ConfirmAlwaysFits | pubchan.go:94-116 | the confirm buffer always has room for the next confirm of an open channel |
| PublishConfirmsTheorems.ReturnExactIff | pubchan.go:170-192 | reading one return keeps the attribution exact if and only if no older outstanding twin was accepted |
| PublishConfirmsTheorems.AttributionExactIff | pubchan.go:170-192 | over a whole run, a publication is marked returned iff the broker bounced that one, if and only if bounces come before accepted twins |
| PublishConfirmsTheorems.ResultsMean | pubchan.go:306-385 | nil only if the broker acked this very publication; a bare error only if it was never transmitted; ambiguous by close only if no confirm of it was received |
| PublishConfirmsTheorems.VerdictsTrue | pubchan.go:194-211 | when bounces come first, nil means the broker accepted it and ErrUnroutable means it bounced it |
| PublishConfirmsVerdicts.VerdictsExactIff | pubchan.go:170-211 | in a run whose confirms have all been read, every publication is settled as unroutable, acked or nacked exactly as the broker decided, if and only if bounces come first |
| PublishConfirmsVerdicts.TwinTakesTheBlame | pubchan.go:177-180 | a concrete run in which an accepted publication returns ErrUnroutable and its bounced twin returns nil |
| Topics.SplitOfJoin | internal/topic/trie.go:49-49 | splitting undoes joining words with dots |
| Topics.MatchMeansParse | internal/fakebroker/broker.go:428-440 | the recursive matcher accepts iff the topic cuts into spans, one per pattern word, with * one word and # any number |
| Topics.HashMatchIff | internal/fakebroker/broker.go:432-433 | # followed by p matches iff p matches some suffix |
| TopicTrie.Trie.Add | internal/topic/trie.go:44-54 | the registration is appended and the trie stays a faithful tree of all of them |
| TopicTrie.Trie.Child | internal/topic/trie.go:56-78 | the child for a word, created if missing, with every other path unchanged |
| TopicTrie.Trie.Collect | internal/topic/trie.go:106-127 | what is collected from a node is exactly the entries whose remaining pattern the reference matcher accepts |
| TopicTrie.Trie.CollectHash | internal/topic/trie.go:121-126 | the loop over the words # may absorb reaches exactly the entries behind it |
| TopicTrie.Trie.Match | internal/topic/trie.go:82-103 | after any Adds, dst is extended by the reference list: every matching value once, by first matching registration |
| TopicTrie.ReferenceMembers | internal/topic/trie.go:80-81 | a value is in the reference list iff some pattern registered for it is accepted by the reference matcher |
| TopicTrie.ReferenceOrder | internal/topic/trie.go:93-101 | the reference list is ordered by earliest matching registration |
| ProtoWire.SizeVarintExact | internal/wire/envelope.go:76-78 | the bit-length formula for a varint's size is the number of bytes written, for every 64-bit value |
| ProtoWire.VarintRoundTrip | internal/wire/envelope.go:184-187 | reading undoes writing a varint, whatever follows |
| ProtoWire.FieldSize | internal/wire/envelope.go:76-88 | the computed size of a field is the size written |
| ProtoWire.FieldRoundTrip | internal/wire/envelope.go:80-88 | a written field is read back as its number and bytes, whatever follows |
| Envelope.AppendRequest | internal/wire/envelope.go:102-120 | the bytes appended are the encoding, exactly as many as SizeRequest says |
| Envelope.AppendEvent | internal/wire/envelope.go:167-174 | all three fields are appended, exactly as many bytes as reserved |
| Envelope.AppendResponse | internal/wire/envelope.go:144-165 | one member with a correct nested length prefix; neither or both is refused and nothing is appended |
| Envelope.Walk | internal/wire/envelope.go:182-210 | the loop visits the fields as the recursive reading does, malformed input included |
| Envelope.VisitConcat | internal/wire/envelope.go:182-210 | reading two concatenated messages is reading the first and then the second into it |
| Envelope.RequestRoundTrip | internal/wire/envelope.go:224-238 | decoding undoes appending a request iff its strings are valid UTF-8; otherwise it is refused |
| Envelope.EventRoundTrip | internal/wire/envelope.go:301-315 | decoding undoes appending an event iff its strings are valid UTF-8 |
| Envelope.ResponseRoundTrip | internal/wire/envelope.go:240-298 | decoding undoes appending a response iff its strings are valid UTF-8 |
| Envelope.RequestsMerge | internal/wire/envelope.go:224-238 | concatenated requests merge field by field, the last occurrence winning |
| Envelope.EventsMerge | internal/wire/envelope.go:301-315 | of two concatenated events the later one wins whole, or is refused for invalid UTF-8 |
| Envelope.ResponsesMerge | internal/wire/envelope.go:266-298 | concatenated responses merge, and an error member wins over a result |
| Envelope.MembersMerge | internal/wire/envelope.go:278-285 | two occurrences of a member, result or error, decode as one member with both payloads |
| Envelope.UnknownFieldIgnored | internal/wire/envelope.go:189-196 | a whole unknown field of any wire type, at any field boundary, changes nothing |
| Headers.HeaderIntExact | headers.go:28-70 | a header is read as n iff it stands for n and n is an int64, except the float 2^63, which is read as the smallest |
| Headers.FloatInt | headers.go:65-70 | a float is read iff it is whole and between -2^63 and 2^63, and what is read is an int64 |
| Headers.RetryCountRoundTrip | headers.go:74-125 | a count written as a header is read back, clamped at 2^31-1 |
| Headers.FrameHeadersRoundTrip | headers.go:81-113 | a stream frame's number and final flag are read back exactly |
| RetryHops.HopsKeepPayload | consumer.go:680-727 | over any number of hops the key, body, correlation id, reply-to, carried properties and a non-empty message id stay, and CC and BCC are gone |
| RetryHops.FirstFailureFixed | consumer.go:697-704 | the first hop fixes the first-failure time for all later ones |
| RetryHops.HopsCount | consumer.go:710-716 | n hops add n to the count, through the header, until it clamps |
| RetryHops.LadderEndsIff | headers.go:116-125 | the ladder ends iff MaxRetries is at most 2^31-1 |
| Routing.Targets | internal/fakebroker/broker.go:393-426 | the route loop returns each queue the exchange routes the key to, once |
| Routing.ApplyAllKeeps | service.go:289-313 | whatever components declare, bindings stay those protobus makes and nothing declared is undone |
| Routing.AcceptedIsDone | internal/fakebroker/channel.go:271-365 | a declaration in an accepted list is in force at the end of it |
| Routing.RetryReachesOwnQueue | service.go:289-313 | a message on a component's retry exchange reaches that component's retry queue and no other |
| Routing.RedeliveryReachesOwnQueue | eventlistener.go:106-130 | a message on a listener's redelivery exchange reaches that listener's queue and no other |
| Routing.BusReachesOwnService | service.go:271-287 | a request key of a service reaches that service's queue and no other |
| Routing.ServiceKeysDisjoint | service.go:242-287 | no key belongs to two services |
| Settlement.StartedStaysWired | service.go:271-313 | once started, a component's topology stays in force whatever is declared later |
| SettlePath.Settle | consumer.go:552-618 | the operations sent to the broker are those of the specified path, for every result and every publish failure |
| SettlePath.SettledOnceAndLast | consumer.go:549-604 | a late-ack delivery is settled exactly once, last; an early-acked one never again |
| SettlePath.AckOnlyBehindPublish | consumer.go:549-618 | an ack comes only behind confirmed publishes, and for a failure behind a stored copy; a requeue only after a failed one |
| SettlePath.PathFollowsMachine | consumer.go:552-604 | the path of a consumer with retries is the one the settlement machine takes |
| SettlementProof.RoutesHome | service.go:289-313 | a retry copy reaches the retry queue, a dead letter the DLQ, an expired copy the component's queue, each alone |
| SettlementProof.StepIsOk | consumer.go:479-646 | every step keeps the invariant, changes the number of answerable copies as stated, and touches no queue of another component |
| SettlementProof.NoMessageLost | consumer.go:549-551 | in every run an accepted, unfinished message is in the queue, the retry queue, the DLQ or a handler, and none is ever rejected |
| SettlementProof.ExactlyOnePlace | consumer.go:549-646 | without channel deaths and ambiguous publishes it is in exactly one of them, and in none once finished |
| SettlementProof.OthersUntouched | eventlistener.go:106-130 | in every run retries, expiries and dead letters change no queue of another component |
| SettlementHops.CopiesKeepPayload | consumer.go:680-745 | in every run, whatever fails, each copy in the queue, the retry queue or a handler's hands has the key, body, ids and carried properties of what was accepted, the count its hops made and the first failure's time |
| SettlementLadder.LadderOverRuns | consumer.go:575-618 | without faults, a message that always fails is handed out at most max(0, MaxRetries - n0) + 1 times; when it is dead-lettered it was exactly that often, and its one copy records max(n0, MaxRetries), its key and its body |
| StreamServer.ServerStream.SendMsg | stream.go:41-67 | holds the message back, publishes the previous one, and keeps the first failure |
| StreamServer.ServerStream.Publish | stream.go:70-87 | numbers the frame and advances only when it was confirmed |
| StreamServer.ServerStream.Finish | stream.go:91-114 | publishes the last frame, or the pending one and the error, as final |
| StreamServer.Script | stream.go:16-22 | the frames of a complete stream: one per message and one for an error, numbered from 0, final on exactly the last, one empty frame for the empty stream |
| StreamServer.WireFollowsScript | stream.go:41-114 | for any sends and publish failures the wire carries the messages in order, and a final flag only on a complete stream |
| StreamServer.UnaskedIsSilent | stream.go:71-74 | without a replyTo nothing is published and nothing fails |
| StreamClient.ClientStream.Push | dispatcher.go:515-561 | drops repeats, fails on a gap or a full buffer, otherwise buffers and charges the allowance |
| StreamClient.ClientStream.Fail | dispatcher.go:563-576 | fails an unfinished stream and returns its bytes; a complete one is left to drain |
| StreamClient.ClientStream.Next | dispatcher.go:579-594 | hands out the oldest chunk, the error, or a clean end |
| StreamClient.ClientStream.Release | dispatcher.go:608-621 | ends the stream, returns its bytes, and removes the table entry only if it is its own |
| StreamEndToEnd.StreamEndToEnd | dispatcher.go:515-594 | for every handler run and every loss, repeat and reordering of frames the caller gets an in-order prefix without gaps or repeats, and a clean end only after all of it, the error included |
| StreamEndToEnd.InOrderArrivesWhole | dispatcher.go:515-561 | a complete stream that arrives in order and fits the limits is buffered whole and ended |
| StreamEndToEnd.ChunkDecodes | stream.go:49-49 | a chunk decodes to the message sent |
| StreamBuffers.PushInOneGo | dispatcher.go:545-561 | the reserve, check, undo and drop steps of a push, left alone, are the push |
| StreamBuffers.OthersInOneGo | dispatcher.go:563-621 | and so are the steps of a take, a failure and a release |
| StreamBuffers.AllowanceHolds | dispatcher.go:507-621 | in every interleaving what the streams buffer and have not given back is within the total, each buffer within its own limits, and the counter is exactly that plus what is reserved or being given back |
| StreamBuffers.TotalHolds | dispatcher.go:545-561 | in every interleaving, while no buffer is being dropped, all buffers together are within the total |
| StreamBuffers.AlwaysWithinIff | dispatcher.go:507-513 | they are so at every moment of every run iff the limits let nothing be buffered: a drop lowers the counter before it clears the buffer |
| StreamBuffers.CounterReturnsToZero | dispatcher.go:608-621 | with no stream's lock held the counter is what is buffered, and zero once all streams failed or were released |
| StreamBuffers.ReleasedStays | dispatcher.go:604-606 | a late frame never revives a released stream |
| Session.SessionState.MarkReady | session.go:301-311 | a finished session is never made ready; otherwise the ready channel is closed once |
| Session.SessionState.MarkNotReady | session.go:313-320 | a ready session gets a new ready channel |
| Session.SessionState.Finish | session.go:292-299 | the first reason is kept |
| Session.SessionState.Install | session.go:232-235 | a new connection raises the generation and changes nothing else |
| Session.SessionState.Current | session.go:350-356 | the current generation, and ready only if marked ready and not finished |
| Session.SessionState.Unregister | session.go:336-347 | removes the first equal registration and keeps the order of the rest |
| Session.Backoff | session.go:60-67 | the delay is min(initial * multiplier^(n-1), maximum) plus at most 30 percent |
| Session.BackoffGrows | session.go:57-67 | the base delay never shrinks and never passes the maximum |
| SessionRuns.ReadyMeansRestored | session.go:202-282 | in every interleaving of loss, reconnection, attach, repair, unregister and close, a ready session has restored every registered component on the current connection |
| SessionRuns.FinishedForGood | session.go:292-311 | once finished it stays finished for the same reason, is never ready, and closes no ready channel |
| SessionRuns.NoDoubleClose | session.go:301-320 | no ready channel is closed twice |
| SessionRuns.RestoresAreSerial | bus.go:133-166 | restoring and attaching never overlap |
| SessionRuns.GivesUpAfterMaxRetries | session.go:213-219 | the session gives up only with a limit and after exactly that many attempts |
| Handlers.Inflight.Add | bus.go:261-268 | the count goes up; leaving zero makes a new channel |
| Handlers.Inflight.Done | bus.go:270-277 | the count goes down; reaching zero closes the current channel, each at most once |
| Handlers.HandlersBounded | consumer.go:285-317 | in every run running handlers, abandoned ones included, are at most the slots taken, which are at most the concurrency |
| Handlers.DrainedMeansIdle | bus.go:186-193 | a nil Drain after intake stopped means every delivery is settled or let go and no handler runs |
| Handlers.DrainedStays | bus.go:186-193 | and it stays so |
| CallTable.PendingCall.Resolve | dispatcher.go:58-65 | the first outcome wins |
| CallTable.Dispatcher.Route | dispatcher.go:178-199 | a reply resolves the call under its id and no other, and removes it |
| CallTable.Dispatcher.FailPending | dispatcher.go:202-213 | every registered call is failed and the table is empty |
| CallTable.Dispatcher.Forget | dispatcher.go:461-467 | removes the entry only if it is still this attempt's |
| CallTable.OutcomeIsOwn | dispatcher.go:376-459 | in every run a returned call got only what its own attempt was resolved with, a reply under its own id or a failure, and left the table |
| CallTable.WaitsOnLatest | dispatcher.go:52-56 | a call receives only from its newest attempt |
| CallTable.NoOutcomeDropped | dispatcher.go:58-65 | no pending call is resolved twice, so no outcome is dropped |
| CallTable.EntriesAreAwaited | dispatcher.go:376-467 | every table entry belongs to a call that has not returned |
| CancelRegistry.Registry.Add | cancel.go:35-47 | registers the delivery under its id; an empty id is ignored |
| CancelRegistry.Registry.Remove | cancel.go:48-57 | removes it and keeps no empty set |
| CancelRegistry.Registry.Cancel | cancel.go:62-74 | cancels each delivery registered under the id once, and no other |
| CancelRegistry.NoRegistrationOutlives | consumer.go:59-78 | once released and unlisted a delivery is never registered again, in either order of registering and releasing |
| CancelRegistry.CancelFindsExactly | cancel.go:62-74 | in every run a cancel finds exactly the registered deliveries of that id |
| CustomTypes.Walk | customtypes.go:35-54 | finding means a path to bigint exists; finding nothing leaves a marked set that no field leaves |
| CustomTypes.Checker.ReachesBigint | customtypes.go:26-33 | true iff a path to bigint exists, on any cyclic graph, whatever correct entries are cached |
| CustomTypes.Checker.CheckMessage | customtypes.go:66-98 | accepts iff no bigint at any depth is longer than 32 bytes, as the walk without pruning would |
| CustomTypes.Checker.CheckCustomTypes | customtypes.go:58-64 | the same, with the whole message pruned when its type cannot hold a bigint |
| CustomTypes.ReachableIffFallible | customtypes.go:22-54 | a type reaches bigint iff some message of it can be out of range: pruning is sound and never too timid |
| Broker.FindNext | internal/fakebroker/broker.go:531-543 | the first message of the highest clamped priority |
| BrokerServer.Server.Deliver | internal/fakebroker/channel.go:625-640 | the message leaves the queue under the channel's next tag and is counted against its consumer unless auto-acked |
| BrokerServer.Server.DispatchQueue | internal/fakebroker/broker.go:507-528 | the loop delivers while a message waits and a consumer has room, from the round-robin mark |
| BrokerServer.Server.EnqueueMsg | internal/fakebroker/broker.go:449-462 | stores at the tail, or at the head when requeued, and dispatches; a deleted queue drops it |
| BrokerServer.Server.ReturnAll | internal/fakebroker/channel.go:155-168 | returns a channel's deliveries, the latest tag first |
| BrokerServer.Server.SettleTag | internal/fakebroker/channel.go:555-599 | acks, requeues or rejects the delivery and dispatches what that frees; an unknown tag is reported |
| BrokerTheorems.StepKeepsInv | internal/fakebroker/broker.go:449-543 | every broker step keeps the invariant tying queues, deliveries, counters and the ledger |
| BrokerTheorems.OnePlace | internal/fakebroker/channel.go:144-198 | on every run a message is at one position of one queue, or in one delivery, or gone |
| BrokerTheorems.PrefetchBound | internal/fakebroker/channel.go:620-634 | a consumer with prefetch p > 0 that does not auto-ack never holds more than p |
| BrokerTheorems.DispatchTakesBest | internal/fakebroker/broker.go:507-543 | whatever is handed out goes before everything that stays, by clamped priority and then by position |
| BrokerTheorems.DispatchEnds | internal/fakebroker/broker.go:507-520 | dispatching stops only when nothing waits or nobody has room |
| BrokerRuns.ReturnsInDeliveryOrder | internal/fakebroker/channel.go:144-168 | a dying channel's messages return to the head of their queue in delivery order when nobody else can take them |
| BrokerRuns.ReturnedAreMarked | internal/fakebroker/channel.go:144-168 | after a channel died, every message it held is marked redelivered, unless its queue was deleted |
| BrokerConservation.NothingVanishes | internal/fakebroker/channel.go:555-641 | from every reachable state a step ends a message, for a given reason, exactly when it acks, rejects, expires, auto-acks or deletes that one or returns it to a deleted queue; what was gone stays gone for its reason |
| BrokerConservation.NothingVanishesOnRuns | internal/fakebroker/channel.go:555-641 | the same of every step of every run, for every message ever stored |

## Left out

- Real time: timers, TTLs, idle and processing timeouts and the retirement of wedged channels are actions that may happen at any moment.
- Fairness and liveness: safety, conservation and termination measures are proved, not eventual progress.
- TCP, the AMQP handshake, heartbeats, dialling and logging.
- Protobuf payloads: bodies are opaque bytes; extension fields and the library's reflection are not modelled. ConsumeFieldValue, varints and the group depth limit follow the protowire library as the codec uses it.
- Correlation ids and message ids are assumed fresh.
- Publish confirms: closing the done channel and freeing the slot are one step, and publications are numbered where the code compares pointers. The broker's policy of withholding returns and confirms out of order is not modelled; a return precedes the confirm of the same publication.
- A float header of exactly 2^63 is read as the smallest int64, as on amd64; the text forms of numbers are abstracted to what strconv.ParseInt yields.
- Queue MessageTTL, durability and auto-delete flags of the declared topology, and requests whose key does not match the service's binding: conservation is not claimed for those.
- Settlement: the world has one late-ack component with retries; replies go to callback queues that are not part of it, and the early-ack and no-retry paths appear only in SettlePath.
- SettlementProof.ExactlyOnePlace: requires runs without channel deaths and without publishes that fail after being stored, because a redelivery then duplicates by design.
- RetryHops.FirstFailureFixed: assumes a clock that does not read zero.
- StreamEndToEnd.StreamEndToEnd: covers one handler attempt of at most 2^63-1 frames; a redelivered request starts its frames again at zero.
- StreamBuffers: byte counts are unbounded integers, since the limits keep them far below 2^63.
- The iterator around a client stream (idle timer, context, cancel notice), stream entries of the reply table, and the repair of the reply channel.
- Session: the connection itself is only a generation number, and taking restoreMu and reading the registrations are one step.
- CustomTypes: descriptors are identified by full name, as the cache does, and messages follow their descriptors.
- TopicTrie: slices.SortFunc is modelled by an insertion sort on the same keys.
- Broker: acknowledging multiple tags at once, exclusive queues and consumers, restart, and the confirm policies; dead-lettering names its target queues, which Routing.Targets computes.
- Service and event-listener dispatch to user code, contract lookup, error sanitising, interceptors, configuration parsing, code generation, the CLI and schema loading: case analysis or text plumbing.
