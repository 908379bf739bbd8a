# Lightning: verified models of eight event loops

This project models eight components of the Lightning node in Dafny and proves what they promise
over every run. Each component is a loop over mutable state. It appears here three times over:

- as a value-level state machine: a state, a step function for every event, and runs;
- as invariants of that machine, one small lemma per event, and the guarantees that follow from them;
- as a class whose methods update fields in place as the node does. The larger objects carry a ghost
  list of the events so far, and `Valid()` says that their fields are the state of that run, so the
  guarantees about runs are postconditions of the methods.

Sockets, clocks, randomness, hashing, signatures and library serialisation come in as events,
parameters or arbitrary functions. Concurrency is modelled by interleaving events; a crash is an
event that loses everything but the durable state.

| component | files |
|---|---|
| shared | `Common` |
| handshake proxy | `ServiceFraming`, `HandshakeProxy`, `ProxySafety`, `ProxyGuarantees`, `ProxyProgress`, `ProxyObject` |
| gossip broadcast | `Interner`, `MessageRing`, `Subscribers`, `PendingStore`, `RetryDiscipline`, `PendingObject`, `BroadcastContext`, `BroadcastSafety`, `BroadcastDelivery`, `BroadcastGuarantees`, `BroadcastProgress`, `BroadcastObject` |
| checkpointer | `Quorum`, `AggregateBuilder`, `CheckpointNetwork`, `CheckpointDisagreement`, `CheckpointerObject` |
| rate limiter | `TokenBucket`, `BucketBudget`, `RateLimiting`, `RateLimitingGuarantees`, `RateLimitBudget`, `PolicyMigration`, `RateLimiterObject` |
| origin fetcher | `Fetcher`, `FetcherObject` |
| committee beacon | `CommitteeBeacon`, `BeaconLimits`, `BeaconListener` |
| acknowledgment aggregator | `DackAggregator`, `DackObject` |
| archive | `BlockCodec`, `BlockExecution`, `Archive` |

`dafny verify dfyconfig.toml` checks everything.

## Where the code does less than its plainest reading

Each of these is stated with the exact condition, for all inputs. Where the code can receive the
input, a lemma exhibits it.

- A rate limit of zero requests lets one through after every silence longer than its period
  (`ZeroRuleAccepts`, `BoundedExactlyWhenPositive`, `ShortcutIsClampedRefill`).
- Every check of a rate limit drops the fraction of a millisecond since the last one, so calls that are
  a period divided by the maximum apart can be refused (`HalfMillisecondsEarnNothing`,
  `EvenIntervalsPassExactly`).
- A copy of a gossiped message that arrives after the only copy so far was marked invalid is not
  published: the emptied queue keeps the digest occupied until the next verdict on it, and no
  subscriber holds anything to give one on (`CopyAfterRejectionIsHeldBack`, `PublishesExactly`,
  `ProcessedDigestAwaitsVerdict`).
- A client whose transport is replaced while both places are taken is not told
  (`NewTransportTakesItsPlace`).
- A trip through the global rate limiting mode drops empty rule lists (`EmptyListIsDropped`,
  `TripIsLosslessExactly`).
- The fetcher stops when a fetch finishes that everybody has left, or a requester is gone before it
  gets its receiver (`LonelyFetchStops`, `StopsExactly`). A fetcher of capacity zero never starts
  anything (`StuckWithoutCapacity`, `NeverStuckExactly`). A fetch task that panics leaves its uri
  pending for good (`PanickedFetchHangs`, `ChannelsAreLiveExactly`); this can be observed only in a
  build that unwinds, since the release profile aborts the process on a panic (Cargo.toml:154).
- A beacon commit that executes a round late cannot be revealed, because the chain checks the
  reveal against the current round and does not check the commit (`LateCommitCannotBeRevealed`,
  `AcceptedExactlyInItsRound`).
- A crash between drawing a beacon value and saving it makes the node draw again; only saved values
  are ever sent (`CrashDrawsTwice`, `DrawsAgainOnlyAfterCrash`, `NeverEquivocates`).
- A crash between submitting and removing acknowledgments submits them again (`CrashSubmitsTwice`,
  `ExactlyOnceExactly`).
- The commodity of an aggregate is the exact sum only below 2^128 (`SumWrapsToZero`,
  `EveryTransactionIsRight`).
- Agreement on checkpoints needs fewer faulty eligible nodes than two quorums share; with more there
  is a run in which a correct node holds two different roots (`DisagreementRun`, `AgreesExactly`).
- A client payload of 2^32 bytes or more would be announced short (`EncodeParseExact`). The proxy
  cannot receive one: the TCP transport frames its input by 32-bit lengths and the other transports
  limit it further.

## Model

| member | source | states |
|---|---|---|
| `ServiceFraming.HeaderOpensPayload` | core/handshake/src/proxy.rs:251-273 | against the reference length-prefix parse, four more bytes at a payload boundary open exactly one payload of that length |
| `ServiceFraming.BodyGrowsPayload` | core/handshake/src/proxy.rs:275-277 | body bytes, up to the number missing, extend exactly the last payload and nothing else |
| `ServiceFraming.HeaderSyncs` | core/handshake/src/proxy.rs:268-271 | taking a header off the buffer keeps the proxy's counters equal to the parse of what it has consumed |
| `ServiceFraming.BodySyncs` | core/handshake/src/proxy.rs:275-277 | so does taking body bytes, whatever part of the payload has arrived |
| `ServiceFraming.MissingIsLastShortfall` | core/handshake/src/proxy.rs:251-277 | bytes are missing exactly when the last parsed payload is shorter than announced, and by that many |
| `ServiceFraming.EncodeParseRoundTrip` | core/handshake/src/proxy.rs:459-464 | parsing what was written to the service gives back every client payload, in order, if each length fits the header |
| `ServiceFraming.EncodeParseExact` | core/handshake/src/proxy.rs:459-464 | any list of payloads is parsed back if and only if each is shorter than 2^32 bytes |
| `ProxySafety.SendAllInOrder` | core/handshake/src/proxy.rs:509-524 | a flush between payloads leaves the client's stream intact and delivers the queue oldest first |
| `ProxySafety.DrainKeeps` | core/handshake/src/proxy.rs:249-289 | the inner read loop, with a write failing at any point, keeps the whole invariant of the proxy |
| `ProxySafety.DrainSyncs` | core/handshake/src/proxy.rs:388-435 | the inner read loop stays in sync with the reference parse |
| `ProxySafety.ConnectKeeps` | core/handshake/src/proxy.rs:205-233 | joining, replacing or terminating a transport in the middle of a payload keeps the invariant |
| `ProxySafety.DisconnectKeeps` | core/handshake/src/proxy.rs:195-202 | so does losing one |
| `ProxySafety.StepKeeps` | core/handshake/src/proxy.rs:173-444 | every event of every connection state keeps the invariant |
| `ProxySafety.RunKeeps` | core/handshake/src/proxy.rs:96-133 | the invariant and the sync hold after every run |
| `ProxyGuarantees.PayloadOwnership` | core/handshake/src/proxy.rs:173-444 | in every run each payload is opened on one transport; what a client reassembles is exactly the payloads opened on it, byte for byte and in order, and only a transport that is gone may have its last one cut short; no frame ever starts inside an unfinished payload |
| `ProxyGuarantees.FrameSync` | core/handshake/src/proxy.rs:249-289 | in every run bytes consumed and bytes buffered are the bytes read, the frames seen are the reference parse of the consumed bytes, and the proxy waits for exactly the bytes that parse says are missing |
| `ProxyGuarantees.DrainLeavesShortHeader` | core/handshake/src/proxy.rs:388-435 | a read that switches no state leaves the buffer empty, or between payloads with fewer than four bytes |
| `ProxyGuarantees.TokenResponses` | core/handshake/src/proxy.rs:446-524 | in every run a client gets only responses it asked for itself, in the order it asked; the attached primary is owed exactly the queue; a live proxy without a primary has none queued |
| `ProxyGuarantees.ServiceReceivesClientPayloads` | core/handshake/src/proxy.rs:446-490 | in every run the service parses back the accepted payloads if and only if each length fits the header; what a failed write leaves behind comes after them, and only once the proxy has ended |
| `ProxyGuarantees.DroppedTransportStaysSilent` | core/handshake/src/proxy.rs:173-444 | in every continuation of every run a dropped transport gets nothing more and stays dropped |
| `ProxyProgress.DrainOpens` | core/handshake/src/proxy.rs:388-435 | the inner read loop opens every payload on the secondary if there is one, and else on the only transport |
| `ProxyProgress.PayloadsAreOpenedOnSecondary` | core/handshake/src/proxy.rs:392-411 | in every run each new payload is opened on the secondary attached when its header is read, or else on the only transport, whatever the previous payload was doing; nothing but a read opens one |
| `ProxyProgress.NothingIncomingIsLost` | core/handshake/src/proxy.rs:446-490 | in every run the bytes parsed are those of the reads, and the payloads passed to the service are those that arrived unbroken on an attached transport, read off the events, in order |
| `ProxyProgress.RequestsAreRecorded` | core/handshake/src/proxy.rs:471-479 | in every run the responses a transport is due are those of the access token frames it sent as the primary |
| `ProxyProgress.ServiceGetsTheClientsPayloads` | core/handshake/src/proxy.rs:459-464 | in every run the service parses back exactly the payloads the clients sent, if and only if each length fits the header |
| `ProxyProgress.DrainAnswers` | core/handshake/src/proxy.rs:396-403 | when the loop opens a payload, every response the primary is due has been sent |
| `ProxyProgress.ResponsesGoOutBetweenPayloads` | core/handshake/src/proxy.rs:509-524 | in every run a request of the attached primary is answered at once with all it is due, unless a payload opened on it is unfinished, and everything due is sent before a read opens a payload |
| `ProxyProgress.NewTransportTakesItsPlace` | core/handshake/src/proxy.rs:205-233 | in every run a transport that joins gets its place and leaves the other alone; the one it replaces is told if and only if it was the only one |
| `ProxyProgress.ClientFramesAndPlaces` | core/handshake/src/proxy.rs:446-490 | in every run a lost transport or a refused frame costs exactly its own place, and only a payload the service does not take ends the proxy |
| `ProxyProgress.FailedWriteCostsItsOwner` | core/handshake/src/proxy.rs:418-433 | in every run a read costs at most the owner of the last payload its place, and does when the rest of an unfinished payload cannot be written |
| `ProxyProgress.EveryClientLearnsTheReason` | core/handshake/src/proxy.rs:241-247 | in every run that ends with clients each is told: the service has ended if its stream stops between payloads, an internal error otherwise |
| `ProxyObject.Proxy.constructor` | core/handshake/src/proxy.rs:64-90 | a new proxy is at the start of a run |
| `ProxyObject.Proxy.MaybeFlushPrimaryQueue` | core/handshake/src/proxy.rs:509-524 | the popping loop is the flush of the state machine |
| `ProxyObject.Proxy.ReadHeader` | core/handshake/src/proxy.rs:392-411 | resets both flags, sends the queue to an attached primary, and opens the payload on the secondary if there is one, else on the only transport |
| `ProxyObject.Proxy.OpenNext` | core/handshake/src/proxy.rs:268-271 | opens the payload on the current sender |
| `ProxyObject.Proxy.SplitBody` | core/handshake/src/proxy.rs:275-277 | splits off the bytes of the current payload and updates the count |
| `ProxyObject.Proxy.WriteChunk` | core/handshake/src/proxy.rs:284-288 | forwards them to the owner of the payload |
| `ProxyObject.Proxy.FailChunk` | core/handshake/src/proxy.rs:388-435 | a failed write drops the owner and discards the rest |
| `ProxyObject.Proxy.DoRead` | core/handshake/src/proxy.rs:238-291 | the whole read arm, loop included, is the read step |
| `ProxyObject.Proxy.OnRead` | core/handshake/src/proxy.rs:238-291 | after a read the fields are those of the run with one more read, in sync with the reference parse, every client is whole, no byte is lost, new payloads are opened on the secondary if there is one, without a switch nothing usable is left in the buffer, and at the end of the stream each client is told the right reason |
| `ProxyObject.Proxy.Terminate` | core/handshake/src/proxy.rs:295-296 | terminates every attached transport, the secondary first |
| `ProxyObject.Proxy.HandleFrame` | core/handshake/src/proxy.rs:446-490 | an unbroken service payload is accepted and its length and body are appended to the service stream; a broken one ends the proxy; a token request of the primary is queued; every other frame drops its transport exactly if the source says so, with a service write that may break after any byte |
| `ProxyObject.Proxy.DoRecv` | core/handshake/src/proxy.rs:186-204 | the receive arm is the receive step |
| `ProxyObject.Proxy.OnRecv` | core/handshake/src/proxy.rs:186-204 | after a frame every client is whole, no payload or token request is lost, the primary is owed exactly the queue and nothing unless its own payload is unfinished, and at most the transport of the frame has lost its place |
| `ProxyObject.Proxy.OnTransportLost` | core/handshake/src/proxy.rs:195-202 | losing a transport is the disconnect step |
| `ProxyObject.Proxy.DoConnect` | core/handshake/src/proxy.rs:205-233 | the new connection arm is the connect step |
| `ProxyObject.Proxy.OnConnect` | core/handshake/src/proxy.rs:205-233 | after a transport joins or replaces another it has its place, the other place is as before, and every client is whole |
| `ProxyObject.Proxy.OnFailure` | core/handshake/src/proxy.rs:234-247 | a closed listener or failed read ends the proxy with every client whole and told of an internal error |
| `Quorum.QuorumsShareCorrectNode` | core/checkpointer/src/aggregate_builder.rs:57-58 | two sets of ⌊2n/3⌋+1 eligible nodes share a correct node if fewer are faulty than the two sets must share |
| `Quorum.ThirdIsEnough` | core/checkpointer/src/aggregate_builder.rs:57-58 | at most (n-1)/3 faulty nodes are fewer than that |
| `Quorum.QuorumsMayShareOnlyFaulty` | core/checkpointer/src/aggregate_builder.rs:57-58 | in any eligible set, from that many faulty nodes on, some two quorums share none but faulty ones |
| `AggregateBuilder.BuildAggregate` | core/checkpointer/src/aggregate_builder.rs:42-110 | for every order of the attestations an aggregate results if and only if some root has more than ⌊2n/3⌋ attesters, and it names exactly ⌊2n/3⌋+1 of them with their signatures |
| `AggregateBuilder.SupermajorityRootIsUnique` | core/checkpointer/src/aggregate_builder.rs:42-78 | when only eligible nodes attested, no two roots have a supermajority |
| `CheckpointNetwork.StepKeepsOwn` | core/checkpointer/src/epoch_change_listener.rs:121-180 | no event, crash or stale read makes a correct node's stored attestation change |
| `CheckpointNetwork.StepKeepsInv` | core/checkpointer/src/attestation_listener.rs:86-148 | every event keeps the network invariant: stored attestations are vouched for and aggregates are quorums of them |
| `CheckpointNetwork.CorrectNodeAttestsOnce` | core/checkpointer/src/epoch_change_listener.rs:121-180 | in every run a correct node broadcasts at most one attestation per epoch |
| `CheckpointNetwork.Agreement` | core/checkpointer/src/aggregate_builder.rs:42-78 | in every run the aggregates any two correct nodes ever hold for one epoch have the same state root |
| `CheckpointDisagreement.DisagreementRun` | core/checkpointer/src/aggregate_builder.rs:42-78 | for every configuration with a correct node and too many faulty ones, every epoch and any two roots, a run in which that node holds one aggregate and later the other |
| `CheckpointDisagreement.AgreesExactly` | core/checkpointer/src/aggregate_builder.rs:42-78 | a network with a correct node agrees in every run if and only if it has fewer faulty eligible nodes than two quorums must share |
| `CheckpointerObject.Checkpointer.constructor` | core/checkpointer/src/rocks/database.rs:32-48 | starts with an empty database |
| `CheckpointerObject.Checkpointer.SetAttestation` | core/checkpointer/src/rocks/database.rs:54-64 | stores one attestation under epoch and node and changes nothing else |
| `CheckpointerObject.Checkpointer.BuildAndSaveAggregateIfSupermajority` | core/checkpointer/src/aggregate_builder.rs:42-78 | saves an aggregate of the stored attestations if and only if there is one |
| `CheckpointerObject.Checkpointer.HandleEpochChanged` | core/checkpointer/src/epoch_change_listener.rs:121-180 | signs, stores and sends exactly if the node is eligible and holds no attestation of its own for the epoch |
| `CheckpointerObject.Checkpointer.HandleIncoming` | core/checkpointer/src/attestation_listener.rs:86-132 | stores an attestation exactly if its node is eligible and its signature valid, then aggregates |
| `Interner.InsertHolds` | core/broadcast/src/interner.rs:38-51 | after any insertion the table holds exactly the last 65,536 digests, each under its own id |
| `Interner.LookupIsExact` | core/broadcast/src/interner.rs:54-56 | an id finds its digest while the insertion is recent, and afterwards the digest that took the id over |
| `Interner.DigestInterner.InsertDigest` | core/broadcast/src/interner.rs:38-51 | the in-place insertion with its 16-bit wrap-around |
| `Interner.DigestInterner.Lookup` | core/broadcast/src/interner.rs:54-56 | the lookup, and that it finds every recent digest |
| `MessageRing.PushHolds` | core/broadcast/src/ring.rs:31-48 | after any push the ring holds exactly the newest messages, each in its slot |
| `MessageRing.RecvIsOldestUnseen` | core/broadcast/src/ring.rs:51-85 | a receiver gets the oldest unseen message still there under its own index, and nothing exactly if it has seen all |
| `MessageRing.RecvBuffer.Insert` | core/broadcast/src/recv_buffer.rs:28-54 | the loop answers each parked channel exactly once with the new message, the one parked last first, closed receivers included |
| `MessageRing.RecvBuffer.RespondToRecvRequest` | core/broadcast/src/recv_buffer.rs:56-67 | answers with the oldest unseen message or parks the channel |
| `Subscribers.StepKeeps` | core/broadcast/src/pubsub.rs:85-125 | every push, request, answer and departure keeps the invariant of topic and subscribers |
| `Subscribers.AnswersAreOldestUnseen` | core/broadcast/src/pubsub.rs:85-125 | in every run indices strictly increase and every answer is max(last seen + 1, next - capacity) with the message pushed there |
| `Subscribers.SubscriberMissesOnlyOverwritten` | core/broadcast/src/pubsub.rs:85-125 | in every run an index a subscriber has passed was taken or already overwritten |
| `Subscribers.ParkedWaiterGetsNext` | core/broadcast/src/recv_buffer.rs:28-67 | in every run a parked waiter has seen everything, and the next push reaches it as last seen + 1 |
| `Subscribers.RequestIsServed` | core/broadcast/src/recv_buffer.rs:56-67 | in every run a request is answered at once with the oldest unseen of the messages inserted so far that the ring can hold, or parked if all are seen |
| `Subscribers.PushedIsInserted` | core/broadcast/src/recv_buffer.rs:28-54 | the messages of a run are those inserted by its events |
| `Subscribers.TakenIsSeen` | core/broadcast/src/pubsub.rs:85-125 | what a subscriber takes is what it was sent, and it asks for the one after it next |
| `Subscribers.HandlesKeepTheirPlace` | core/broadcast/src/pubsub.rs:30-52 | a new handle starts at the first message, a clone where the original stands, and one that gives up stays where it is |
| `PendingStore.WeightsFavourFastPeers` | core/broadcast/src/pending.rs:104-155 | every sampling weight is at least one, and a faster peer never has the smaller weight |
| `PendingObject.PendingRequests.SelectReceivers` | core/broadcast/src/pending.rs:104-186 | for any draw selects exactly the due messages somebody has, each from an allowed peer |
| `PendingObject.PendingRequests.RecordRequests` | core/broadcast/src/pending.rs:64-82 | in any order, the loop records all selected requests and takes their peers off |
| `PendingObject.PendingRequests.TickOnce` | core/broadcast/src/pending.rs:64-82 | a tick asks for exactly the messages that are offered and whose last request, by the events of the run so far, has timed out |
| `RetryDiscipline.StoreRemembers` | core/broadcast/src/pending.rs:49-102 | after any events the store holds exactly the newest 1000 requests of each message since its removal, the peers that offered it since they were asked, and the averages, all read off the events |
| `RetryDiscipline.TicksAskExactly` | core/broadcast/src/pending.rs:104-186 | every tick of every run asks for a message if and only if somebody offers it and its last request has timed out, and asks the last peer again only if nobody else offers it |
| `RetryDiscipline.RetriesNeverExceedAdvertisements` | core/broadcast/src/pending.rs:49-186 | in every run ticks ask a peer for a message at most as often as it advertised it, and request lists stay within 1000 |
| `RetryDiscipline.RetriesWaitAndRotate` | core/broadcast/src/pending.rs:104-186 | between two consecutive requests of a run for one message at least the first peer's timeout passes, and the second goes to the same peer only if nobody else has offered it |
| `BroadcastContext.StepReady` | core/broadcast/src/db.rs:25-77 | no event can reach the panics of the database writers |
| `BroadcastSafety.StepKeepsIdentity` | core/broadcast/src/ev.rs:286-438 | every event keeps database entries true: the id was interned for the digest and the message has it |
| `BroadcastSafety.StepKeepsWants` | core/broadcast/src/ev.rs:137-176 | every event keeps peer mappings and sent wants backed by that peer's own advertisement |
| `BroadcastSafety.StepKeepsPending` | core/broadcast/src/ev.rs:487-497 | every event keeps a mapping for every pending peer |
| `BroadcastDelivery.StepKeepsBound` | core/broadcast/src/ev.rs:192-282 | every event keeps the delivery bound of every digest |
| `BroadcastDelivery.StepKeepsAdverts` | core/broadcast/src/ev.rs:440-475 | every event keeps advertised messages in the database until evicted |
| `BroadcastGuarantees.OutgoingWantsAreSound` | core/broadcast/src/ev.rs:137-176 | in every run with at most 65,536 interned digests each want, first or retried, carries the id that very peer advertised for the digest held under the local id |
| `BroadcastGuarantees.RetryLookupNeverMisses` | core/broadcast/src/ev.rs:487-497 | in every run each request of a tick becomes a want to the peer selected |
| `BroadcastGuarantees.IncomingWantsAnsweredRight` | core/broadcast/src/ev.rs:178-190 | in every run a want for an id given fewer than 65,536 insertions ago is answered with a message of that digest whenever it is in the database |
| `BroadcastGuarantees.AdvertisedIdIsServedExactly` | core/broadcast/src/ev.rs:294-405 | in every run an advertised, unevicted digest is served under its id if and only if the interner still holds it there |
| `BroadcastGuarantees.BoundedLocalDelivery` | core/broadcast/src/ev.rs:192-436 | in every run an unevicted digest is published at most 1 + clean-ups + invalid marks times |
| `BroadcastGuarantees.AcceptedOnArrival` | core/broadcast/src/ev.rs:192-236 | in every run each accepted message passed all checks in the state in which it arrived, by the key directory of that moment |
| `BroadcastGuarantees.PublishedWasVerified` | core/broadcast/src/ev.rs:192-282 | in every run everything published came in a message that, when it arrived, had an interned id, was not stored, and was signed by the key of its own origin |
| `BroadcastGuarantees.NoRetryAfterPropagation` | core/broadcast/src/ev.rs:367-405 | in every run without wrap a propagated, unevicted message is never selected again |
| `BroadcastProgress.ProcessingIsTheCopiesInHand` | core/broadcast/src/ev.rs:254-436 | in every run the copies being processed are those the events say: verified copies queued, clean-up and propagation clear, each invalid mark drops the oldest |
| `BroadcastProgress.PublishesExactly` | core/broadcast/src/ev.rs:192-278 | in every run an event publishes exactly one message, with its digest, origin and payload, on ring 0 to 4 by topic, if it is a verified copy of an awaited digest not being processed or marks a copy invalid with another behind it; every other event publishes nothing |
| `BroadcastProgress.ProcessedDigestAwaitsVerdict` | core/broadcast/src/ev.rs:254-275 | in every continuation of a run a digest being processed is not published again before the next verdict on it |
| `BroadcastProgress.CopyAfterRejectionIsHeldBack` | core/broadcast/src/ev.rs:412-435 | a copy that comes after the only one was marked invalid is not published, and would have been had it come before |
| `BroadcastProgress.MappingsAreTheOffers` | core/broadcast/src/ev.rs:165-175 | in every run the id mappings of a peer are its last offers of messages not stored |
| `BroadcastProgress.FirstAdvertisementIsAnswered` | core/broadcast/src/ev.rs:147-164 | in every run an advertisement is answered, with a want to its sender by the sender's id, if and only if the digest is unknown, which then has the next id |
| `BroadcastProgress.OwnMessageIsAdvertised` | core/broadcast/src/ev.rs:294-348 | in every run a message of our own is stored and advertised once, to the filter or to all but the peers that offered it, under an id the interner finds it by, unless its digest is stored already |
| `BroadcastProgress.PropagatedMessageIsAdvertised` | core/broadcast/src/ev.rs:367-411 | in every run propagating stores the oldest copy in hand unless a message is stored, and advertises it, and otherwise does nothing |
| `BroadcastProgress.DatabaseChangesOnlySo` | core/broadcast/src/ev.rs:110-436 | in every run no other event but an eviction changes the database |
| `BroadcastProgress.TickSendsItsRequests` | core/broadcast/src/ev.rs:487-497 | in every run each request of a tick goes out as a want by the id under which that peer offered the message |
| `BroadcastProgress.StoreFollowsTheRun` | core/broadcast/src/ev.rs:137-436 | in every run of the loop the pending store is that of the run of store events the loop's events mean, so the retry guarantees hold of the loop |
| `BroadcastProgress.HistoryCountsTheEvents` | core/broadcast/src/ev.rs:349-435 | the clean-ups, invalid marks and evictions of a run are those of its events |
| `BroadcastProgress.DeliveriesAreBounded` | core/broadcast/src/ev.rs:192-436 | in every run a digest never evicted is published at most 1 + its clean-up events + its invalid-mark events times |
| `BroadcastObject.Gossip.constructor` | core/broadcast/src/ev.rs:82-103 | starts at the beginning of a run |
| `BroadcastObject.Gossip.HandleAdvertisement` | core/broadcast/src/ev.rs:137-176 | the first advertisement of a digest gives it the next id and is answered with a want to its sender; later ones only add the mapping, as long as no message is stored |
| `BroadcastObject.Gossip.HandleWantRequest` | core/broadcast/src/ev.rs:178-190 | one want event; an id of a recently interned digest is answered with a message of that digest if one is stored |
| `BroadcastObject.Gossip.HandleIncomingMessage` | core/broadcast/src/ev.rs:192-282 | a message is published, with its digest, origin and payload, on the ring of its topic, if and only if its digest has an id, no message is stored, it is not being processed and its own origin's key verifies it |
| `BroadcastObject.Gossip.HandleSendCommand` | core/broadcast/src/ev.rs:294-348 | unless a message is stored already, the message is stored and advertised to the filter, or else to all but the peers that offered it, under an id the interner finds it by |
| `BroadcastObject.Gossip.HandleCleanUpCommand` | core/broadcast/src/ev.rs:349-366 | a digest with an id is no longer processed and no longer asked for; nothing is sent or published |
| `BroadcastObject.Gossip.HandlePropagateCommand` | core/broadcast/src/ev.rs:367-411 | the oldest copy in hand is stored unless a message already is, and advertised; without an id or a copy nothing happens |
| `BroadcastObject.Gossip.HandleMarkInvalidCommand` | core/broadcast/src/ev.rs:412-435 | the copy behind the one marked invalid is published if there is one, and otherwise nothing |
| `BroadcastObject.Gossip.EvictFromCache` | core/broadcast/src/db.rs:6-23 | the cache dropping entries is one eviction event of the run |
| `BroadcastObject.Gossip.SendWants` | core/broadcast/src/ev.rs:487-497 | the loop sends one want for every selected id with a mapping, in any order |
| `BroadcastObject.Gossip.HandlePendingTick` | core/broadcast/src/ev.rs:487-497 | one tick event; each selected message becomes one want to the peer selected |
| `TokenBucket.ShortcutIsClampedRefill` | core/firewall/src/rate_limiting.rs:258-286 | on one check the shortcut after a silent period equals the clamped refill if and only if the rule allows a request or the silence was no longer than a period; what a refill lets through over any call times is `BucketBudget.GrantsExactlyWithinBudget` |
| `TokenBucket.CheckStaysInRange` | core/firewall/src/rate_limiting.rs:258-286 | a check keeps the allowance between zero and the maximum under exactly that condition |
| `TokenBucket.CheckSpendsCredit` | core/firewall/src/rate_limiting.rs:258-286 | an accepted check costs one token of what the bucket could have earned |
| `TokenBucket.AcceptedSpendsCredit` | core/firewall/src/rate_limiting.rs:258-286 | for any call times the bucket stays in range and its acceptances are paid for by credit and time |
| `TokenBucket.WindowBound` | core/firewall/src/rate_limiting.rs:247-286 | for a positive rule and any call times, acceptances in any window of T ms are at most max + max·T/period |
| `TokenBucket.BoundedExactlyWhenPositive` | core/firewall/src/rate_limiting.rs:247-286 | the bound holds in every window of every history if and only if the rule allows at least one request |
| `TokenBucket.ZeroRuleAccepts` | core/firewall/src/rate_limiting.rs:262-267 | a rule for no requests accepts one after a silence longer than its period and goes to -1 |
| `BucketBudget.LevelIsLeast` | core/firewall/src/rate_limiting.rs:272-286 | for any call times the allowance before a call is the least of what is left since any earlier call, and equals the one since the call that last found it full |
| `BucketBudget.GrantsExactlyWithinBudget` | core/firewall/src/rate_limiting.rs:258-286 | for any call times a positive rule lets a call through if and only if, since every earlier call, the calls let through and this one are at most max + max·(whole ms between the calls)/period |
| `BucketBudget.GrantsExactly` | core/firewall/src/rate_limiting.rs:258-286 | every rule, zero included, lets through exactly the calls it should |
| `BucketBudget.FarApartIsNeverRefused` | core/firewall/src/rate_limiting.rs:269-279 | calls whose whole milliseconds apart earn a request are never refused |
| `BucketBudget.EvenIntervalsPassExactly` | core/firewall/src/rate_limiting.rs:258-286 | calls at an even interval are never refused if and only if the whole milliseconds of the interval, times the maximum, reach the period |
| `BucketBudget.HalfMillisecondsEarnNothing` | core/firewall/src/rate_limiting.rs:260-260 | a rule of 2000 a second refuses some of the calls made every half millisecond |
| `RateLimiting.CheckFromMeaning` | core/firewall/src/rate_limiting.rs:195-206 | a list passes a request exactly if every rule does; rules up to the first refusal are charged, later ones untouched, and the error names the refusing rule |
| `RateLimitingGuarantees.RequestMeaning` | core/firewall/src/rate_limiting.rs:192-228 | a request checks its own list, made from the global rules if there is none and kept only if it passes; no other list and nobody's rules change |
| `RateLimitingGuarantees.StepKeepsHealth` | core/firewall/src/rate_limiting.rs:60-228 | every request and command keeps all positive buckets in range |
| `RateLimitingGuarantees.EveryRuleBoundsEveryWindow` | core/firewall/src/rate_limiting.rs:192-286 | in every run, and every stretch of it that leaves the address's rules alone, the requests let through obey the window bound of each positive rule at once, lazily made global lists included |
| `RateLimitBudget.RuleSeesItsCalls` | core/firewall/src/rate_limiting.rs:195-206 | each rule of a list sees exactly the calls that all rules before it let through |
| `RateLimitBudget.ListFollowsRequests` | core/firewall/src/rate_limiting.rs:192-228 | in every run the list of an address goes through its own requests and nothing else while its rules are left alone |
| `RateLimitBudget.OwnRulesDecideExactly` | core/firewall/src/rate_limiting.rs:60-87 | from the moment an address is given rules, each of its requests passes if and only if every rule should grant it |
| `RateLimitBudget.GlobalRulesDecideExactly` | core/firewall/src/rate_limiting.rs:207-226 | the same for the global rules from the first request of an address on, which makes its list exactly if it passes |
| `PolicyMigration.ListsAreNeverMixed` | core/firewall/src/rate_limiting.rs:60-228 | in every run each list is all-global or all-specific |
| `PolicyMigration.GlobalChangeKeepsSpecific` | core/firewall/src/rate_limiting.rs:92-111 | in every run a change of the global rules keeps exactly the non-empty specific lists, unchanged |
| `PolicyMigration.TripRestoresRules` | core/firewall/src/rate_limiting.rs:117-165 | from per-address mode to global and back, with any requests and global changes between, restores exactly the non-empty rule sets |
| `PolicyMigration.EmptyListIsDropped` | core/firewall/src/rate_limiting.rs:129-143 | the trip forgets an address with an empty list |
| `PolicyMigration.TripIsLosslessExactly` | core/firewall/src/rate_limiting.rs:117-165 | the trip restores every rule set if and only if none was empty |
| `RateLimiterObject.RateLimiter.CheckPolicies` | core/firewall/src/rate_limiting.rs:195-206 | the loop with its early exit is the list check |
| `RateLimiterObject.RateLimiter.Check` | core/firewall/src/rate_limiting.rs:192-228 | a request passes exactly if every rule in force lets it pass, which is exactly if it is within the budget of each, counted over the calls that reached the rule since it was made; it changes nobody's rules, and every window of the run so far obeys its rules |
| `RateLimiterObject.RateLimiter.SetPolicyFor` | core/firewall/src/rate_limiting.rs:60-87 | the address has exactly the given rules, no other address is touched, and without limits the mode is reported |
| `RateLimiterObject.RateLimiter.SetGlobalRules` | core/firewall/src/rate_limiting.rs:92-111 | addresses with non-empty rules of their own keep them, all others are under the new rules; other modes are reported |
| `RateLimiterObject.RateLimiter.SetPolicyType` | core/firewall/src/rate_limiting.rs:117-165 | in every change of mode exactly the addresses with non-empty rules of their own keep their rules |
| `RateLimiterObject.RateLimiter.Clear` | core/firewall/src/rate_limiting.rs:168-180 | the address falls back to the global rules and no other is touched |
| `Fetcher.StepKeepsScheduled` | core/fetcher/src/origin.rs:43-97 | every event keeps the schedule, and an ended task takes exactly itself out of the fetches in progress |
| `Fetcher.StepKeepsAnswered` | core/fetcher/src/origin.rs:43-97 | every event keeps each request either answered or waiting on the channel of its uri |
| `Fetcher.Schedule` | core/fetcher/src/origin.rs:38-109 | in every run tasks stay within capacity, a queue means full capacity, fetches start in the order admitted, and the uris in progress are distinct and exactly the open channels that are not lost |
| `Fetcher.ChannelsAreLiveExactly` | core/fetcher/src/origin.rs:66-86 | the open channels are exactly the uris in progress if and only if no task has panicked |
| `Fetcher.CompletionMakesProgress` | core/fetcher/src/origin.rs:66-92 | in every run each completion lowers the fetches in progress by exactly one and keeps their order |
| `Fetcher.FinishAnswersTheWaiters` | core/fetcher/src/origin.rs:66-84 | in every run a finished task finds its channel and gives its outcome to exactly the requests for its uri since the fetch began that have not left, if there are any |
| `Fetcher.StopsExactly` | core/fetcher/src/origin.rs:63-84 | in every run an event stops the fetcher if and only if a requester is gone before it got its receiver, or a fetch finishes that everybody has left |
| `Fetcher.LonelyFetchStops` | core/fetcher/src/origin.rs:71-80 | a run that stops |
| `Fetcher.PanickedFetchHangs` | core/fetcher/src/origin.rs:85-85 | a run that leaves a uri pending for good |
| `Fetcher.OneAnswerOfTheSharedFetch` | core/fetcher/src/origin.rs:45-86 | in every run an answered request is answered once, by one shared fetch |
| `Fetcher.AllAnsweredWhenIdle` | core/fetcher/src/origin.rs:66-92 | with capacity, once nothing is in progress every request that has not left, on a uri not lost, has its answer |
| `Fetcher.NeverStuckExactly` | core/fetcher/src/origin.rs:54-58 | an idle fetcher has an empty queue in every run if and only if its capacity is not zero |
| `Fetcher.RequestsAndFindingsAreKept` | core/fetcher/src/origin.rs:45-84 | in every run every request is taken up, and every hash found is published with the pointer it was fetched by, once and in order |
| `FetcherObject.OriginFetcher.constructor` | core/fetcher/src/origin.rs:22-36 | starts at the beginning of a run |
| `FetcherObject.OriginFetcher.OnRequest` | core/fetcher/src/origin.rs:45-65 | one request event; the request is subscribed and the schedule holds |
| `FetcherObject.OriginFetcher.OnLeave` | core/fetcher/src/origin.rs:72-79 | one waiter dropping its receiver; the schedule holds |
| `FetcherObject.OriginFetcher.OnFinished` | core/fetcher/src/origin.rs:66-92 | one completion event; a hash found is published with its pointer, the fetcher stops exactly if everybody has left, and otherwise takes exactly that fetch out |
| `FetcherObject.OriginFetcher.OnPanicked` | core/fetcher/src/origin.rs:85-91 | one join error event; it takes exactly that fetch out |
| `FetcherObject.OriginFetcher.StartQueued` | core/fetcher/src/origin.rs:87-91 | starts the oldest queued fetch if there is room |
| `CommitteeBeacon.StepKeepsInv` | core/committee-beacon/src/listener.rs:80-333 | every step of node or chain, and every crash, keeps the invariant of database, handler and chain |
| `CommitteeBeacon.NeverEquivocates` | core/committee-beacon/src/listener.rs:205-248 | in every run with crashes all commits sent for one epoch and round are equal |
| `CommitteeBeacon.KeepsItsPreimages` | core/committee-beacon/src/listener.rs:86-101 | in every run each commit sent for the current epoch has a preimage in the database that opens it |
| `CommitteeBeacon.RevealsOpenTheirCommits` | core/committee-beacon/src/listener.rs:261-333 | in every run each reveal sent opens its commit, which had been on chain and is the node's own |
| `CommitteeBeacon.ChainHoldsOwnCommit` | core/application/src/state/executor/epoch_change.rs:110-206 | in every run the commit on chain is one the node sent |
| `CommitteeBeacon.AcceptedExactlyInItsRound` | core/application/src/state/executor/epoch_change.rs:214-302 | without hash collisions the chain accepts a looked-up reveal if and only if the node's database has the commit on chain for the current round |
| `CommitteeBeacon.DrawsAgainOnlyAfterCrash` | core/committee-beacon/src/listener.rs:205-220 | in every run the draws for an epoch and round are at most one more than the draws lost to crashes before saving |
| `BeaconLimits.LateCommitCannotBeRevealed` | core/application/src/state/executor/epoch_change.rs:110-302 | a run in which a commit lands one round late, is looked up and is refused |
| `BeaconLimits.CrashDrawsTwice` | core/committee-beacon/src/listener.rs:213-218 | a run in which a crash makes the node draw twice |
| `BeaconListener.Listener.constructor` | core/committee-beacon/src/rocks/database.rs:39-59 | starts with empty tables |
| `BeaconListener.Listener.ClearBeaconsBefore` | core/committee-beacon/src/rocks/database.rs:83-102 | the two loops remove exactly the entries of older epochs |
| `BeaconListener.Listener.Persevere` | core/committee-beacon/src/listener.rs:228-248 | sends the same transaction once, and once more for each timed-out look at the chain before one finds it landed |
| `BeaconListener.Listener.HandleCommitPhase` | core/committee-beacon/src/listener.rs:166-251 | in the commit phase of its epoch a member that may commit and has no beacon on chain sends the commit saved for the round, or saves and sends that of the value drawn, once plus once per timeout; otherwise nothing is sent or saved |
| `BeaconListener.Listener.HandleRevealPhase` | core/committee-beacon/src/listener.rs:261-333 | in the reveal phase of its epoch, with an unrevealed commit on chain and its value saved, exactly that value is revealed, once plus once per timeout; otherwise nothing is sent |
| `BeaconListener.Listener.HandleExecutedBlock` | core/committee-beacon/src/listener.rs:80-156 | a block makes the listener do its duty in the phase it finds and no more, clears older epochs at an epoch change, loses no saved commit of this epoch or a later one, and sends only what is in the tables |
| `BeaconListener.BlockDoesItsDuty` | core/committee-beacon/src/listener.rs:80-333 | for every state and reading of the chain, the effect of a block is the duty of its phase: which transactions are sent, how often, and what is saved or cleared |
| `BeaconListener.RetriesAreTimeouts` | core/committee-beacon/src/listener.rs:309-330 | the number of resends is the number of timed-out looks before the first that finds the transaction landed |
| `BeaconListener.HandlerIsRun` | core/committee-beacon/src/listener.rs:80-333 | from any idle state, the effect of a block is that of a run of the state machine, so its guarantees hold of the listener |
| `DackAggregator.TakeIsUnique` | core/dack-aggregator/src/dack_aggregator.rs:123-144 | how much a tick takes is determined by the queue |
| `DackAggregator.TakeFits` | core/dack-aggregator/src/dack_aggregator.rs:123-144 | a tick takes the longest prefix with at most 1000 acknowledgments per service, and something if there is anything |
| `DackAggregator.Conservation` | core/dack-aggregator/src/dack_aggregator.rs:95-184 | in every run, whatever fails, the entries written are those that have left the queue and then those still in it, in order, and every batch's transactions are the per-service sums of its entries |
| `DackAggregator.ExactlyOnceExactly` | core/dack-aggregator/src/dack_aggregator.rs:173-180 | in every run every entry is in exactly one batch or still queued if and only if every tick removed all it had taken |
| `DackAggregator.CrashSubmitsTwice` | core/dack-aggregator/src/dack_aggregator.rs:146-180 | a run in which a crash before removal submits a proof twice |
| `DackAggregator.EveryTransactionIsRight` | core/dack-aggregator/src/dack_aggregator.rs:123-154 | in every run each transaction has between 1 and 1000 proofs, carries its service's proofs and metadata in queue order, and the exact sum of commodities if and only if that is below 2^128 |
| `DackAggregator.SumWrapsToZero` | core/dack-aggregator/src/dack_aggregator.rs:131-131 | two acknowledgments whose sum wraps to zero |
| `DackAggregator.MetadataKeepsOrder` | core/dack-aggregator/src/dack_aggregator.rs:132-137 | a service's metadata is that of its acknowledgments from first to last, and absent exactly if none has any |
| `DackAggregator.EveryProofIsSentOnceInOrder` | core/dack-aggregator/src/dack_aggregator.rs:118-180 | in every run, per service, the proofs sent are those of the entries submitted in order; while ticks remove what they took, they and the proofs queued are all proofs |
| `DackAggregator.TickMakesProgress` | core/dack-aggregator/src/dack_aggregator.rs:173-180 | a tick on a non-empty queue takes something, and shortens the queue unless its removals fail |
| `DackObject.Aggregator.constructor` | core/dack-aggregator/src/dack_aggregator.rs:81-93 | starts with whatever the queue file holds |
| `DackObject.Aggregator.OnDack` | core/dack-aggregator/src/dack_aggregator.rs:99-117 | conservation holds after an acknowledgment, whether or not it could be written |
| `DackObject.Aggregator.Collect` | core/dack-aggregator/src/dack_aggregator.rs:119-144 | the loop takes what a tick should and its totals hold each service's proofs, wrapped sum and metadata in order |
| `DackObject.Assemble` | core/dack-aggregator/src/dack_aggregator.rs:146-154 | one transaction for each service among the entries, and none for others |
| `DackObject.Aggregator.RemoveTaken` | core/dack-aggregator/src/dack_aggregator.rs:173-180 | the loop removes a prefix, all that was taken if no removal fails |
| `DackObject.Aggregator.OnTick` | core/dack-aggregator/src/dack_aggregator.rs:118-181 | conservation holds after a tick, with any removals failing; something is taken if there is anything |
| `BlockCodec.RequestRoundTrip` | core/types/src/transaction.rs:220-256 | a transaction is read back through its trailing magic byte |
| `BlockCodec.RequestsRoundTrip` | core/types/src/transaction.rs:273-315 | any list of transactions is read back wherever it stands |
| `BlockCodec.BlockRoundTrip` | core/types/src/transaction.rs:258-323 | every block is read back, bytes behind it being ignored |
| `BlockCodec.BlockCutShort` | core/types/src/transaction.rs:284-323 | every proper prefix of an encoded block is out of bounds |
| `BlockCodec.InfoRoundTrip` | core/archive/src/archive.rs:367-404 | block and receipt are read back |
| `BlockCodec.InfoCutShort` | core/archive/src/archive.rs:384-404 | every proper prefix is out of bounds |
| `BlockCodec.DecodeRequests` | core/types/src/transaction.rs:299-315 | the decoder's loop with its running position is the recursive parse, errors and panic included |
| `BlockExecution.RunBlock` | core/application/src/env.rs:81-176 | the receipt loop gives one receipt per transaction in order and the epoch flag exactly if some transaction changed the epoch; roots, registry changes, sub-dag reset and era follow the code |
| `BlockExecution.ReceiptsMatch` | core/application/src/env.rs:107-141 | the receipts of every executed block carry its digest and its transactions' hashes and positions |
| `BlockExecution.NumbersAreConsecutive` | core/application/src/env.rs:88-105 | in every chain block numbers are consecutive and each block names its predecessor |
| `Archive.StoreIndexes` | core/archive/src/archive.rs:274-324 | after any list of executed blocks with distinct numbers and hashes, gaps allowed, the four indexes hold exactly its blocks, hashes, ends and last receipts |
| `Archive.LookupsAgreeWithList` | core/archive/src/archive.rs:182-230 | for any such list, lookups by number, hash, earliest, latest, finalized, safe and pending agree with a scan of it |
| `Archive.ChainIsReadable` | core/archive/src/archive.rs:194-217 | a chain without gaps is such a list, and a number finds the block counted from its first tip |
| `Archive.TransactionIsFoundExactly` | core/archive/src/archive.rs:118-137 | for any such list, a transaction is found if and only if some block holds one with the hash, it has that hash, and it is the last such |
| `Archive.ArchiveIndex.constructor` | core/archive/src/archive.rs:159-169 | starts with no blocks archived |
| `Archive.ArchiveIndex.OnBlock` | core/archive/src/archive.rs:274-324 | after the puts the indexes are those of the blocks archived so far |
| `Archive.ArchiveIndex.StoreReceipts` | core/archive/src/archive.rs:318-322 | the loop keeps the last receipt of each hash |
| `Archive.ArchiveIndex.BlockByHash` | core/archive/src/archive.rs:182-191 | finds exactly the archived block with the hash |
| `Archive.ArchiveIndex.TransactionByHash` | core/archive/src/archive.rs:118-137 | finds a transaction exactly if an archived block holds one with the hash |

## Left out

- Sockets, QUIC, HTTP and WebRTC transports, tokio tasks and channels, RocksDB, queue files and serde: events, maps and arbitrary functions stand for them.
- Cryptography: digests and beacon commits are arbitrary functions, signatures are ideal, and a BLS aggregate is the set of its signatures.
- Floating point: rates, allowances and round-trip averages are reals; the moving average may take any value.
- Liveness in general: what an event does is stated for every run, but not that events come: that transports make progress, that subscribers give verdicts or that retry loops end is not claimed.
- Proxy buffer growth, the connection timer and token lifetimes; a timeout is an event that may come whenever there is no connection.
- Broadcast: metrics, frame serialisation, the wall clock and debug assertions, which are no-ops here as in a release build; the cache may evict entries between any two events, not within one.
- PendingRequests: one clock reading per tick, where the code reads the clock for each message.
- RecvBuffer: channels are numbers, and a closed receiver only loses its answer.
- Checkpointer: the eligible set is fixed; epochs with changing sets are not related to each other. Correct nodes may compute different roots.
- RateLimiting: the conversion of a 64-bit maximum to floating point.
- CommitteeBeacon: stake, slashing and committee membership on the chain; the node's transactions may execute in any order, or never.
- DackAggregator: whether a submitted transaction is ordered; a submission that fails later is lost as in the code.
- BlockCodec: allocation for an announced number of transactions; transaction receipts are stored as values.
- Archive: a database write that fails in the middle of a block, historical epoch states, checkpoints and pruning.
- core/blockstore-server, core/pool, core/consensus, the remaining application executor, the forwarder, pinger, indexer, notifier, command line and configuration: they would add mostly easy members or depend on code outside the repository.
