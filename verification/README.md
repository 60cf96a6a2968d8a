# TomP2P, modelled and proved

A model of the parts of TomP2P whose correctness is not visible from any single
method, with proofs over all inputs, all interleavings and all runs:

- **Identifiers** (`Bits`, `Digits`, `Number160`, `HexNumber`, `Metric`): five 32-bit
  limbs refine naturals below 2^160; xor, order, bit length and the byte and
  text forms agree with the number; the class of two ids is an ultrametric.
- **Structured broadcast** (`Bags`, `Broadcast`, `BroadcastExact`): a step system of peers,
  messages in flight and seen-sets. Every delivery order reaches every peer
  exactly once, the hop limit cuts nothing off, and with redundancy one the
  regions of the messages partition the network.
- **Routing table** (`ClosePeers`, `PeerMap`, `PeerMapObject`, `Eviction`,
  `TableEffects`): the bag walk refines
  sort-and-take; the table invariant holds over every sequence of events, and
  exactly which timeouts evict a peer; where every report and every failure leaves it.
- **Iterative lookup** (`ForkJoin`, `RoutingMechanism`, `Lookup`, `LookupOutcome`): launch loop, fork-join and
  continuation interleaved with completing requests; safety, a bound on the
  requests that does not depend on the network, termination, and the only reasons for
  a lookup to end.
- **Connection permits and futures** (`Reservation`, `ReservationOrder`, `OpenChannels`, `BulkShutdown`, `PermitRuns`,
  `ChannelCreator`, `BaseFuture`): the two-level semaphore scheme and the listener protocol as event
  machines, with the exact conditions under which the permits bound the channels.
- **Wire codec** (`Wire`, `PeerAddress`, `MessageCodec`, `Decoder`, `DecoderRoundTrip`,
  `MapRoundTrip`, `MessageStream`, `StreamCuts`, `StreamPrefixes`, `StreamArrival`,
  `WireLayout`, `Refusals`, `DecoderObject`): a resumable decoder, a
  round trip for any number of messages cut in any way, and the exact condition
  under which a cut makes a difference.
- **Counting Bloom filter** (`CountingBloomFilter`): it never undercounts.

`Wrappers`, `Orders`, `Arithmetic`, `Sequences` and `AssociationLists` hold what several of them share.

Where the source updates an object in place the model has a class whose methods
are proved against functions on values (`View()`, `State()`); whole-run theorems are
about those functions. A protocol with several threads is an event machine: one
event is one lock-protected section, one semaphore operation or one listener call.

`dafny verify dfyconfig.toml` checks the project.

## Model

| member | source | states |
|---|---|---|
| Number160.FromLimbs | core/src/main/java/net/tomp2p/peers/Number160.java:80-89 | Right-aligned limbs: the key stands for the number the limbs spell; more than five limbs are refused, nothing else is |
| Number160.XorKeys | core/src/main/java/net/tomp2p/peers/Number160.java:228-234 | Limb-wise xor is the bitwise xor of the two 160-bit numbers |
| Number160.CompareTo | core/src/main/java/net/tomp2p/peers/Number160.java:378-389 | -1, 0 and 1 exactly for smaller, equal and larger as unsigned 160-bit numbers |
| Number160.IsZero | core/src/main/java/net/tomp2p/peers/Number160.java:309-316 | True exactly for the number zero |
| Number160.BitLength | core/src/main/java/net/tomp2p/peers/Number160.java:323-333 | The position of the highest set bit of the 160-bit number, at most 160 |
| Number160.ValueInjective | core/src/main/java/net/tomp2p/peers/Number160.java:378-389 | Two keys stand for the same number exactly when all limbs agree, so order 0 means equality |
| Number160.ToByteArray | core/src/main/java/net/tomp2p/peers/Number160.java:259-272 | Writes the twenty big-endian bytes at the offset and touches nothing else; too short an array is refused |
| Number160.FromBytes | core/src/main/java/net/tomp2p/peers/Number160.java:165-174 | Any slice of up to twenty bytes is read as the big-endian number it spells; longer slices are refused |
| Number160.BytesRoundTrip | core/src/main/java/net/tomp2p/peers/Number160.java:165-174 | A key read from the bytes written for a key is that key |
| Wire.KeyRoundTrips | core/src/main/java/net/tomp2p/peers/Number160.java:484-495 | Buffer form: twenty bytes out, the same key back in |
| HexNumber.ToHex | core/src/main/java/net/tomp2p/peers/Number160.java:427-441 | The hexadecimal digits of a limb, all eight or without leading zeros |
| HexNumber.ToString | core/src/main/java/net/tomp2p/peers/Number160.java:292-302 | The text of a key, with leading zeros removed across limb borders when asked |
| HexNumber.FromString | core/src/main/java/net/tomp2p/peers/Number160.java:98-120 | Accepts exactly the well-formed texts and yields the number they spell |
| HexNumber.HexRoundTrip | core/src/main/java/net/tomp2p/peers/Number160.java:292-302 | Parsing the printed text gives the number back, with and without leading zeros, zero included |
| HexNumber.AcceptsExactly | core/src/main/java/net/tomp2p/peers/Number160.java:98-120 | A text is accepted exactly when it has at most 42 characters, begins with 0x and goes on with hexadecimal digits of either case |
| HexNumber.TextShape | core/src/main/java/net/tomp2p/peers/Number160.java:292-302 | The printed text is 0x and small digits: forty of them, or none that is a leading zero |
| Metric.ClassMember | core/src/main/java/net/tomp2p/peers/PeerMap.java:814-816 | Class of two keys is the bit length of their xor minus one; -1 exactly for equal keys |
| Metric.IsKadCloser | core/src/main/java/net/tomp2p/peers/PeerMap.java:721-727 | Orders two keys by xor distance to a third; 0 only for equal keys |
| Metric.ClassUltrametric | core/src/main/java/net/tomp2p/peers/PeerMap.java:814-816 | Class is an ultrametric: the third class equals the larger of two different ones and is no larger than two equal ones |
| Metric.ClassSiblings | core/src/main/java/net/tomp2p/peers/PeerMap.java:814-816 | Two peers in one class of a third are closer to each other than to it |
| Metric.ClassOrdersDistance | core/src/main/java/net/tomp2p/peers/PeerMap.java:739-743 | A smaller class means a smaller xor distance |
| Metric.CompareXorOrder | core/src/main/java/net/tomp2p/peers/PeerMap.java:721-727 | The xor comparator is a strict total order that is 0 only for equal ids |
| Metric.CompareRttOrder | core/src/main/java/net/tomp2p/p2p/RTTPeerStatisticComparator.java:34-57 | The four-level comparator is antisymmetric and 0 only for equal ids, and chains through three statistics exactly when the outer two belong to different peers |
| Metric.CompareDirections | core/src/main/java/net/tomp2p/p2p/RTTPeerStatisticComparator.java:34-57 | A smaller class comes first; within a class a measured peer before an unmeasured one, of two measured ones the faster, and otherwise the nearer |
| Metric.RttBeforeTotal | core/src/main/java/net/tomp2p/p2p/RTTPeerStatisticComparator.java:34-57 | With one statistic for each peer the comparator is a strict total order |
| Metric.CompareRttSnapshots | core/src/main/java/net/tomp2p/p2p/RTTPeerStatisticComparator.java:34-57 | Two snapshots of one peer with different round-trip times break the chain: a concrete triple |
| Bags.FromEachBag | core/src/main/java/net/tomp2p/peers/PeerMap.java:624-646 | Exactly the first n peers of every bag below the bucket or all it has, n being the argument: how many, each one and at which place; a negative n gives everybody |
| Bags.All | core/src/main/java/net/tomp2p/peers/PeerMap.java:607-617 | Every peer of every bag, bag by bag, each at its place |
| Bags.NrFilledBags | core/src/main/java/net/tomp2p/peers/PeerMap.java:918-928 | The number of classes with a non-empty bag |
| Bags.FromBagsComplete | core/src/main/java/net/tomp2p/peers/PeerMap.java:624-646 | With n at least one, every non-empty bag below the bucket is represented |
| Broadcast.Handler.TwiceSeen | core/src/main/java/net/tomp2p/p2p/StructuredBroadcastHandler.java:107-115 | True exactly for a key seen before, and the key is remembered |
| Broadcast.Handler.Receive | core/src/main/java/net/tomp2p/p2p/StructuredBroadcastHandler.java:60-96 | A duplicate sends nothing and counts nothing; a first copy sends to exactly the first peers of every bag below its bucket, up to the redundancy, and to nobody when there have been as many hops as filled bags |
| Broadcast.Handler.SendAll | core/src/main/java/net/tomp2p/p2p/StructuredBroadcastHandler.java:131-168 | One message per selected peer, with hop raised by one and the class of the peer as bucket |
| Broadcast.SendsFanOut | core/src/main/java/net/tomp2p/p2p/StructuredBroadcastHandler.java:82-168 | A first copy with an effective bucket b goes to exactly min(redundancy, bag size) peers of each class below b, with one hop more and the class as bucket |
| Broadcast.HopLimitHarmless | core/src/main/java/net/tomp2p/p2p/StructuredBroadcastHandler.java:82-93 | For every message of the kind reachable runs produce, the hop-limit branch sends exactly what sending without a limit would |
| Broadcast.HopLimit | core/src/main/java/net/tomp2p/p2p/StructuredBroadcastHandler.java:82-93 | In every state of every run a message with hop k and bucket b finds at least k filled bags at b or above, so the limit never cuts anything off |
| Broadcast.RunInv | core/src/main/java/net/tomp2p/p2p/StructuredBroadcastHandler.java:60-168 | Every step of every run, in every delivery order, keeps the invariant that the first message into a subtree of height h came in with bucket at least h |
| Broadcast.Coverage | core/src/main/java/net/tomp2p/p2p/StructuredBroadcastHandler.java:60-168 | In a network with complete tables, when nothing is in flight any more every peer has processed the message exactly once, for every redundancy from one on and every order of delivery |
| Broadcast.Terminates | core/src/main/java/net/tomp2p/p2p/StructuredBroadcastHandler.java:60-168 | Every run is finite, with a bound on its length |
| Broadcast.Progress | core/src/main/java/net/tomp2p/p2p/StructuredBroadcastHandler.java:60-168 | A run with a message in flight can always go on |
| BroadcastExact.Partition | core/src/main/java/net/tomp2p/p2p/StructuredBroadcastHandler.java:131-168 | Redundancy one: at every moment each peer has either acted or lies in the region of exactly one message in flight |
| BroadcastExact.MessageCount | core/src/main/java/net/tomp2p/p2p/StructuredBroadcastHandler.java:131-168 | Redundancy one: n peers cost exactly n - 1 messages |
| ClosePeers.FillSet | core/src/main/java/net/tomp2p/peers/PeerMap.java:900-908 | Under any comparator that is 0 only for equal ids: merges a bag into the sorted result and reports whether enough peers are there |
| ClosePeers.ClosePeers | core/src/main/java/net/tomp2p/peers/PeerMap.java:533-572 | Through all return paths and for any comparator, xor when none is given: the result is sorted by it, every stored peer left out is strictly farther in xor distance than every one returned, it is large enough or complete, and it ends exactly at the first check that finds enough peers |
| ClosePeers.SortAndTake | core/src/main/java/net/tomp2p/peers/PeerMap.java:533-572 | Under the xor comparator any such result is a prefix of the whole table sorted by distance |
| PeerMap.PeerFoundOk | core/src/main/java/net/tomp2p/peers/PeerMap.java:270-384 | Keeps the table invariant: right bag, never self or zero, verified bag within its size, verified and overflow apart, verified apart from offline and shutdown, nothing flagged unreachable, failures below the limit |
| PeerMap.EvictOk | core/src/main/java/net/tomp2p/peers/PeerMap.java:396-444 | A failure that is not a timeout keeps the table invariant |
| PeerMap.TimeoutCases | core/src/main/java/net/tomp2p/peers/PeerMap.java:404-443 | A timeout either evicts the peer or counts one failure, in the verified or in the overflow bag, and keeps the invariant |
| PeerMap.RunOk | core/src/main/java/net/tomp2p/peers/PeerMap.java:270-444 | The invariant holds after every sequence of found, failed and expiry events; self and zero are in neither map |
| TableEffects.ReliableReportVerifies | core/src/main/java/net/tomp2p/peers/PeerMap.java:334-360 | On any well-formed table: a reliable report of a peer not yet verified puts it into the verified bag of its class when there is room, with the reported address, no failures and one check, takes it out of the overflow bag and answers true |
| TableEffects.ReportOfVerified | core/src/main/java/net/tomp2p/peers/PeerMap.java:318-332 | A first-hand report of a verified peer keeps it there with the new address; any other changes nothing and answers false |
| TableEffects.OtherReportOverflows | core/src/main/java/net/tomp2p/peers/PeerMap.java:363-384 | Every other report that passes puts the peer into the overflow bag, if that has a place, with the statistic it had there or a fresh one |
| TableEffects.RefusedReportStoresNothing | core/src/main/java/net/tomp2p/peers/PeerMap.java:288-315 | A report of self or zero, or one that does not pass, stores nothing and answers false |
| TableEffects.AnswerExactly | core/src/main/java/net/tomp2p/peers/PeerMap.java:270-384 | The answer is true exactly in the storing cases |
| TableEffects.OtherPeersStay | core/src/main/java/net/tomp2p/peers/PeerMap.java:270-384 | A report changes no other stored peer, except that the eldest of a full overflow bag makes place |
| TableEffects.ReportForgives | core/src/main/java/net/tomp2p/peers/PeerMap.java:277-286 | A reliable report, and no other, takes the peer off the offline and shutdown lists; nothing else changes in the three lists |
| TableEffects.FailureIsRemembered | core/src/main/java/net/tomp2p/peers/PeerMap.java:396-443 | A failure that is no timeout takes the peer out of both maps and puts it on the list of its cause, which gains nothing else |
| TableEffects.TimeoutIsRemembered | core/src/main/java/net/tomp2p/peers/PeerMap.java:404-443 | A timeout that evicts a peer puts it on the offline list; any other timeout lists nobody |
| TableEffects.FailureSparesOthers | core/src/main/java/net/tomp2p/peers/PeerMap.java:396-443 | A failure changes no other peer |
| TableEffects.FailedDoNotReappear | core/src/main/java/net/tomp2p/peers/PeerMap.java:385-443 | A peer that failed, or that a timeout evicted, is in neither map after any continuation in which no expiry concerns it and every report of it is third-hand |
| TableEffects.ExpiredMayReturn | core/src/main/java/net/tomp2p/peers/PeerMap.java:306-315 | Once the lists have forgotten it, any report of it that is not filtered out and does not call it unreachable brings it back |
| Eviction.CounterIsSince | core/src/main/java/net/tomp2p/peers/PeerMap.java:270-444 | In every run the failure counter of a stored peer is the number of its timeouts since its last reset: a report of it that passes all checks and is first-hand, enters it anew, or moves it into a verified bag with room |
| Eviction.TimeoutEvictsExactly | core/src/main/java/net/tomp2p/peers/PeerMap.java:404-443 | In every run a timeout of a stored peer removes it from both maps if and only if it is at least the offline-limit-th since the last reset |
| Eviction.QuietRun | core/src/main/java/net/tomp2p/peers/PeerMap.java:404-443 | With no reset in between, a peer still stored has exactly one failure more per timeout |
| Eviction.TimeoutsEvict | core/src/main/java/net/tomp2p/peers/PeerMap.java:404-443 | As many timeouts as the offline limit with no reset in between leave the peer in neither map, whatever else is reported |
| Eviction.ReentryForgets | core/src/main/java/net/tomp2p/peers/PeerMap.java:362-443 | No successful check is not enough: in every configuration with an overflow bag and an offline limit of at least two, a peer that leaves the table on an exception, is forgotten by the exception cache and is mentioned again survives any number of timeouts unchecked |
| Eviction.PushOutForgets | core/src/main/java/net/tomp2p/peers/PeerMap.java:362-380 | The same for a peer pushed out of a one-place overflow bag by another one |
| PeerMap.FeedsClosePeers | core/src/main/java/net/tomp2p/peers/PeerMap.java:533-572 | Every table reachable this way is consistent in the sense `closePeers` needs |
| PeerMapObject.RoutingTable.constructor | core/src/main/java/net/tomp2p/peers/PeerMap.java:80-103 | An empty table that satisfies the invariant |
| PeerMapObject.RoutingTable.PeerFound | core/src/main/java/net/tomp2p/peers/PeerMap.java:270-384 | The object does what the value-level `peerFound` does, whose effects are those of `TableEffects`, and stays valid |
| PeerMapObject.RoutingTable.PeerFailed | core/src/main/java/net/tomp2p/peers/PeerMap.java:396-444 | The object does what the value-level `peerFailed` does, whose effects are those of `TableEffects`, and stays valid |
| PeerMapObject.RoutingTable.UpdateVerified | core/src/main/java/net/tomp2p/peers/PeerMap.java:842-855 | Counts a failure of a verified peer and tells whether it reached the limit |
| ForkJoin.JoinOutcome | core/src/main/java/net/tomp2p/futures/FutureForkJoin.java:99-170 | For any slots, empty ones included, any threshold and any order: OK exactly when enough successes came in, failed exactly when every slot reported and they did not |
| ForkJoin.EvaluatedAreEmptied | core/src/main/java/net/tomp2p/futures/FutureForkJoin.java:149-170 | The slots emptied are exactly those of the futures evaluated before the decision, each once, in that order |
| ForkJoin.FutureForkJoin.Evaluate | core/src/main/java/net/tomp2p/futures/FutureForkJoin.java:149-170 | One report of a finished future on the shared array; the listeners are to be notified exactly at the decision |
| ForkJoin.FutureForkJoin.CountEmpty | core/src/main/java/net/tomp2p/futures/FutureForkJoin.java:116-136 | An empty slot counts as a failure |
| ForkJoin.FutureForkJoin.Finish | core/src/main/java/net/tomp2p/futures/FutureForkJoin.java:193-200 | Only the first decision stands |
| RoutingMechanism.Mechanism.PollFirst | core/src/main/java/net/tomp2p/p2p/RoutingMechanism.java:212-219 | Removes the first peer of the queue in its order, or reports that it is empty |
| RoutingMechanism.Mechanism.PollAny | core/src/main/java/net/tomp2p/p2p/RoutingMechanism.java:221-229 | Removes some peer of the queue |
| RoutingMechanism.Mechanism.FilterPeers | core/src/main/java/net/tomp2p/p2p/RoutingMechanism.java:305-323 | Keeps, in order, exactly the peers the filter does not reject |
| RoutingMechanism.Mechanism.Merge | core/src/main/java/net/tomp2p/p2p/RoutingMechanism.java:389-407 | The unasked peers join the queue; true exactly when one of them comes before the whole queue |
| RoutingMechanism.Mechanism.IsNew | core/src/main/java/net/tomp2p/p2p/RoutingMechanism.java:418-424 | True exactly when the item is not queued and nothing queued comes before it |
| RoutingMechanism.Mechanism.EvaluateDirectHits | core/src/main/java/net/tomp2p/p2p/RoutingMechanism.java:339-349 | Records a hit with a non-empty digest and tells whether there are enough |
| RoutingMechanism.Mechanism.EvaluateInformation | core/src/main/java/net/tomp2p/p2p/RoutingMechanism.java:364-374 | News reset the counter, anything else raises it; true exactly when the counter reaches its limit |
| RoutingMechanism.Mechanism.Success | core/src/main/java/net/tomp2p/p2p/RoutingMechanism.java:276-303 | The fields and the verdict are those of the value-level evaluation, whose whole effect is `LookupOutcome.AnswerEffect` |
| RoutingMechanism.Mechanism.Failed | core/src/main/java/net/tomp2p/p2p/RoutingMechanism.java:272-274 | Counts a failed round and finishes beyond the limit |
| RoutingMechanism.SuccessCases | core/src/main/java/net/tomp2p/p2p/RoutingMechanism.java:276-303 | An answer that lets new requests start costs a unit of the budget; finishing needs enough direct hits or the last running request; direct hits stay within their bound |
| LookupOutcome.AnswerEffect | core/src/main/java/net/tomp2p/p2p/RoutingMechanism.java:276-303 | The whole effect of an answer: hits, counters, the queue gaining exactly the reported peers that are neither asked nor rejected, and in which cases new requests stop and the lookup ends |
| LookupOutcome.FailureEffect | core/src/main/java/net/tomp2p/p2p/RoutingMechanism.java:272-274 | The whole effect of a round in which every request failed |
| LookupOutcome.DoneForAReason | core/src/main/java/net/tomp2p/p2p/DistributedRouting.java:245-335 | Over every run with at least one slot: a lookup that is done has its direct hits, more successes than asked for, too many answers without news, too many failed rounds, or nobody left to ask |
| LookupOutcome.PollsInOrder | core/src/main/java/net/tomp2p/p2p/DistributedRouting.java:245-283 | Over every run: a polled peer is the first of the queue, unless no answer has been looked at yet in a random search |
| LookupOutcome.NoAnswerLost | core/src/main/java/net/tomp2p/p2p/DistributedRouting.java:285-335 | Over every run: a result that comes in, between two joins or during one, waits in its slot until one join takes it; that join succeeds with exactly this answer, or counts a failure |
| LookupOutcome.AskedExactly | core/src/main/java/net/tomp2p/p2p/DistributedRouting.java:245-283 | Over every run: the asked peers are the local one and those a request was sent to |
| LookupOutcome.StartEffect | core/src/main/java/net/tomp2p/p2p/DistributedRouting.java:142-243 | A lookup with enough data of its own or nobody to ask is over at once; any other starts with the given peers queued |
| Lookup.LaunchAll | core/src/main/java/net/tomp2p/p2p/DistributedRouting.java:245-283 | The launch loop on the shared slots is a run of launch steps through all of them |
| Lookup.JoinsOnSuccess | core/src/main/java/net/tomp2p/p2p/DistributedRouting.java:291-295 | The joins of the lookup are fork-joins looking for one success in the shared slots |
| Lookup.RunInv | core/src/main/java/net/tomp2p/p2p/DistributedRouting.java:245-335 | Every run keeps the round structure, the peer bookkeeping, the account of requests and the bound on requests |
| Lookup.Safety | core/src/main/java/net/tomp2p/p2p/DistributedRouting.java:142-335 | Over every run: no peer is polled twice, direct hits are potential hits and at most max(maxDirectHits, 1), each request is in one slot or was consumed by one join, the routing future is set exactly once, and requests are left behind only when there are enough direct hits |
| Lookup.RequestBound | core/src/main/java/net/tomp2p/p2p/DistributedRouting.java:245-335 | At most parallel * (1 + maxSuccess + maxFailures) requests, whatever the network and the interleaving |
| Lookup.Terminates | core/src/main/java/net/tomp2p/p2p/DistributedRouting.java:245-335 | Every run is finite; its length is bounded by the limits alone, although a failed round clears the stop flag |
| Lookup.NeverStuck | core/src/main/java/net/tomp2p/p2p/DistributedRouting.java:245-335 | A lookup that is not done can always move, if only by a request completing |
| Reservation.StepInv | core/src/main/java/net/tomp2p/connection/BulkReservation.java:172-376 | Every step of every thread keeps the permit account and the state of all creators consistent |
| Reservation.PermitConservation | core/src/main/java/net/tomp2p/connection/BulkReservation.java:326-376 | In every interleaving, interrupts and repeated shutdowns included: available permits, those of creators that have not released, those of the reservation in progress, those the shutdown took and those lost add up to the maximum; lost are exactly the blocks granted while no local address could be found |
| Reservation.ShutdownReturnsAll | core/src/main/java/net/tomp2p/connection/BulkReservation.java:216-287 | When the reservation reports that it is shut down, no creator holds a permit, also on the empty-list path, and every channel is closed of creators whose shutdown was called once |
| Reservation.BlockedByCreator | core/src/main/java/net/tomp2p/connection/BulkReservation.java:326-347 | A blocked reservation has a creator holding a permit of the kind it waits for if and only if available and lost permits do not add up to the maximum; always when the permits not lost would satisfy it, in particular when an address was found at every grant, never when at none |
| PermitRuns.BlockedByNobody | core/src/main/java/net/tomp2p/connection/BulkReservation.java:326-376 | For every configuration with UDP permits and any size of the loss: a run that ends blocked with no holder |
| Reservation.BlockedForGood | core/src/main/java/net/tomp2p/connection/BulkReservation.java:326-347 | A reservation that needs more than the maximum less what is lost is blocked in every continuation |
| ReservationOrder.ServedInOrder | core/src/main/java/net/tomp2p/connection/BulkReservation.java:172-209 | Over every run without shutdown, interrupt or missing address: the creators built, the request being acquired and those waiting are the requests within the limits, in the order they came, each with three more UDP permits for a TCP connection |
| PermitRuns.UnknownSourceLeaks | core/src/main/java/net/tomp2p/connection/BulkReservation.java:348-376 | For every configuration and every block that can be asked for: a grant without a local address takes it for good |
| OpenChannels.OpenChannelsBounded | core/src/main/java/net/tomp2p/connection/ChannelCreator.java:335-363 | In every run in which nobody calls shutdown on a creator a second time before the bulk shutdown, the channels open over all creators never exceed the maximum |
| OpenChannels.OpenOnceBounded | core/src/main/java/net/tomp2p/connection/ChannelCreator.java:335-363 | In any run, the channels of creators shut down at most once never exceed the maximum |
| PermitRuns.SecondShutdownOverruns | core/src/main/java/net/tomp2p/connection/ChannelCreator.java:335-363 | With second calls there is no bound: in every configuration that can grant a permit of the kind, any number of channels can be open |
| PermitRuns.OverrunExactly | core/src/main/java/net/tomp2p/connection/ChannelCreator.java:335-363 | Some run exceeds the maximum exactly when a permit of the kind can be granted at all |
| PermitRuns.ShutdownReportedEarly | core/src/main/java/net/tomp2p/connection/BulkReservation.java:216-269 | One call by the caller and then the bulk shutdown: it reports that it is complete while a channel is open, in every configuration |
| BulkShutdown.ShutdownCanComplete | core/src/main/java/net/tomp2p/connection/BulkReservation.java:216-269 | With nothing lost, every shutdown that has begun and is undecided has a continuation in which it completes |
| BulkShutdown.ShutdownCompletesExactly | core/src/main/java/net/tomp2p/connection/BulkReservation.java:238-269 | A shutdown that waits for creators can complete if and only if no block of permits was lost |
| BulkShutdown.RunCounts | core/src/main/java/net/tomp2p/connection/BulkReservation.java:238-269 | In every run each creator of the list is still to be subscribed to, still to count or has counted, exactly one of these |
| BulkShutdown.NothingNewAfterShutdown | core/src/main/java/net/tomp2p/connection/BulkReservation.java:183-236 | From the bulk shutdown on, in every continuation, no request is queued, none is in progress and no creator is built |
| ChannelCreator.Creator.constructor | core/src/main/java/net/tomp2p/connection/ChannelCreator.java:101-112 | A creator with all its permits |
| ChannelCreator.Creator.CreateUdp | core/src/main/java/net/tomp2p/connection/ChannelCreator.java:212-253 | Refused exactly after shutdown, otherwise a channel exactly when a permit is left |
| ChannelCreator.Creator.CreateTcp | core/src/main/java/net/tomp2p/connection/ChannelCreator.java:269-302 | Refused exactly after shutdown, otherwise a channel exactly when a permit is left |
| ChannelCreator.Creator.ChannelClosed | core/src/main/java/net/tomp2p/connection/ChannelCreator.java:136-162 | A closed channel gives back its permit |
| ChannelCreator.Creator.Shutdown | core/src/main/java/net/tomp2p/connection/ChannelCreator.java:335-363 | The first call sets both flags, a second completes the shutdown future at once |
| ChannelCreator.Creator.GroupClosed | core/src/main/java/net/tomp2p/connection/ChannelCreator.java:352-360 | With every permit back the shutdown future completes |
| BaseFuture.StepInv | core/src/main/java/net/tomp2p/futures/BaseFutureImpl.java:228-424 | Every step keeps the balance: calls made, owed and to come are the registrations |
| BaseFuture.FirstCompletionWins | core/src/main/java/net/tomp2p/futures/BaseFutureImpl.java:228-271 | In every interleaving the type is that of the first completion |
| BaseFuture.CalledExactlyOnce | core/src/main/java/net/tomp2p/futures/BaseFutureImpl.java:319-400 | No listener is called before completion or more often than registered, and in the end each exactly as often |
| BaseFuture.CallsAreRegistrations | core/src/main/java/net/tomp2p/futures/BaseFutureImpl.java:319-400 | In every interleaving the calls of a listener, in the end, are its additions less the removals made before completion that had something to remove |
| BaseFuture.RemovesFirst | core/src/main/java/net/tomp2p/futures/BaseFutureImpl.java:393-400 | A removal takes the first occurrence and keeps the order of the rest |
| BaseFuture.NotificationProgress | core/src/main/java/net/tomp2p/futures/BaseFutureImpl.java:371-390 | Until every owed call is made some step lowers what is owed |
| BaseFuture.Future.constructor | core/src/main/java/net/tomp2p/futures/BaseFutureImpl.java:53-68 | The initial state of the event machine |
| BaseFuture.Future.CompletedAndNotify | core/src/main/java/net/tomp2p/futures/BaseFutureImpl.java:263-271 | True exactly for the first completion |
| BaseFuture.Future.Finish | core/src/main/java/net/tomp2p/futures/BaseFutureImpl.java:228-238 | A run of the event machine: a second completion changes nothing; the first fixes the type and calls every listener in order |
| BaseFuture.Future.NotifyListeners | core/src/main/java/net/tomp2p/futures/BaseFutureImpl.java:371-390 | A run of the event machine that calls every listener once, in order, and empties the list |
| BaseFuture.Future.AddListener | core/src/main/java/net/tomp2p/futures/BaseFutureImpl.java:319-333 | A run of the event machine: called at once on a completed future, otherwise kept |
| BaseFuture.Future.RemoveListener | core/src/main/java/net/tomp2p/futures/BaseFutureImpl.java:393-400 | A run of the event machine that takes out the first occurrence unless the future is complete |
| PeerAddress.SocketRoundTrip | core/src/main/java/net/tomp2p/peers/PeerSocketAddress.java:67-265 | Sockets of both families, with and without the IP, are read back |
| PeerAddress.HeaderRoundTrip | core/src/main/java/net/tomp2p/peers/PeerAddress.java:394-505 | The three-byte header is restored exactly when it has at most seven relays and kinds and is not both slow and hole punching |
| PeerAddress.AddressRoundTrip | core/src/main/java/net/tomp2p/peers/PeerAddress.java:369-505 | For all mixes of relays, sockets and skipped IPs everything transmitted is restored, and the bytes written are the size computed from the header alone |
| WireLayout.SocketLayout | core/src/main/java/net/tomp2p/peers/PeerSocketAddress.java:67-265 | The IP unless it is skipped, then UDP, TCP and UDT port, each in two bytes |
| WireLayout.HeaderLayout | core/src/main/java/net/tomp2p/peers/PeerAddress.java:394-505 | Which bit of the three-byte header stands for which flag, for the relay count and for the relay kinds |
| WireLayout.AddressLayout | core/src/main/java/net/tomp2p/peers/PeerAddress.java:475-495 | Header, relays, IPv4, internal and IPv6 socket and the id, each at its offset |
| WireLayout.RelayLayout | core/src/main/java/net/tomp2p/peers/PeerAddress.java:475-495 | Relay i stands behind the relays before it |
| PeerAddress.DecodeExtend | core/src/main/java/net/tomp2p/peers/PeerAddress.java:369-391 | Decoding reads nothing beyond that size |
| PeerAddress.ComputeSize | core/src/main/java/net/tomp2p/peers/PeerAddress.java:414-429 | The size loop computes the sum over relays and sockets |
| PeerAddress.Write | core/src/main/java/net/tomp2p/peers/PeerAddress.java:475-495 | Appends the encoding to the buffer |
| PeerAddress.Read | core/src/main/java/net/tomp2p/peers/PeerAddress.java:364-391 | Decodes the address and moves the reader by exactly its size |
| MessageCodec.EncodeContentTypes | core/src/main/java/net/tomp2p/message/MessageHeaderCodec.java:157-168 | Eight types packed four bits each, within 32 bits |
| MessageCodec.DecodeContentTypes | core/src/main/java/net/tomp2p/message/MessageHeaderCodec.java:178-189 | Unpacks eight types |
| MessageCodec.KindsRoundTrip | core/src/main/java/net/tomp2p/message/MessageHeaderCodec.java:157-189 | Packing and unpacking the content types is the identity |
| MessageCodec.WriteContents | core/src/main/java/net/tomp2p/message/Encoder.java:66-216 | The loop over the content references appends the contents in order |
| MessageCodec.WriteMessage | core/src/main/java/net/tomp2p/message/Encoder.java:39-64 | Header, sender and contents of an unsigned message are appended to the buffer |
| MessageStream.StaticRoundTrip | core/src/main/java/net/tomp2p/message/MessageHeaderCodec.java:77-121 | The first 34 bytes restore version, type, id, command, recipient, content types and options |
| WireLayout.MessageLayout | core/src/main/java/net/tomp2p/message/MessageHeaderCodec.java:77-102 | Version in 28 bits and type in 4, id, command, recipient, content types from the low end, options, each at its offset |
| WireLayout.KindNumbers | core/src/main/java/net/tomp2p/message/Message.java:52-56 | The number of every modelled content type |
| WireLayout.KeyLayout | core/src/main/java/net/tomp2p/message/Encoder.java:108-127 | Location, domain, content and version key, twenty bytes each |
| WireLayout.LengthLayout | core/src/main/java/net/tomp2p/message/Encoder.java:66-190 | Collections begin with their length, in one byte for neighbours and four for the others |
| Refusals.HeaderRefusals | core/src/main/java/net/tomp2p/message/MessageHeaderCodec.java:104-148 | For any bytes: when the header waits for more, and that type number 15 and a sender without a socket of the family of the connection throw |
| Refusals.NegativeLengths | core/src/main/java/net/tomp2p/message/Decoder.java:279-479 | For any bytes: what each kind of content does with a negative length |
| Refusals.HugeByteMap | core/src/main/java/net/tomp2p/message/Decoder.java:423-456 | A map of bytes that announces 2^30 entries or more throws |
| Decoder.StepProgress | core/src/main/java/net/tomp2p/message/Decoder.java:191-479 | Every unit uses only bytes that are there and either uses some or finishes a content |
| Decoder.StepExtend | core/src/main/java/net/tomp2p/message/Decoder.java:160-479 | A unit that has its bytes does the same whatever follows them |
| Decoder.ChunksDoNotMatter | core/src/main/java/net/tomp2p/message/Decoder.java:80-119 | For every byte stream, well-formed or not, in which map sizes and loop indices agree wherever a call can end: messages, unread bytes and partial state do not depend on how it is cut |
| MessageStream.ContentDecodes | core/src/main/java/net/tomp2p/message/Decoder.java:191-479 | Each modelled content, followed by anything, is read back and its partial state cleared; it stays independent of cuts exactly when it is no map that repeats a key before its last entry |
| MessageStream.MessageRoundTrip | core/src/main/java/net/tomp2p/message/Decoder.java:80-189 | One message followed by anything: it comes out as sent with the IP of the socket, what follows is untouched and every partial field is fresh after `prepareFinish`, repeated map keys or not |
| MessageStream.ChunkedRoundTrip | core/src/main/java/net/tomp2p/message/Decoder.java:80-587 | Any number of messages whose maps repeat no key before their last entry, cut in any way: exactly those messages come out in order, nothing is left unread, the decoder is as new |
| StreamCuts.EncodedStreamArrives | core/src/main/java/net/tomp2p/message/Decoder.java:80-587 | Everything an encoder writes from maps satisfies that, and every content arrives unchanged but for skipped IPs of neighbours |
| StreamArrival.StreamArrives | core/src/main/java/net/tomp2p/message/MessageHeaderCodec.java:104-148 | Whatever an encoder writes and wherever it is cut, field by field: as many messages, each with version, type, id, command, recipient, kinds and options as sent, its contents, and its sender with the ports, other sockets, relays, flags and id it sent and the IP the connection shows |
| StreamPrefixes.PrefixesCutFreeExactly | core/src/main/java/net/tomp2p/message/Decoder.java:80-456 | For every stream of messages: no cut makes a difference in any prefix of it if and only if no map of any message repeats a key before its last entry |
| StreamCuts.CutsMatterExactly | core/src/main/java/net/tomp2p/message/Decoder.java:374-456 | For a whole stream whose last content may repeat keys: every cut gives the same result exactly when that content repeats no key before its last entry |
| MapRoundTrip.BasedOnLimit | core/src/main/java/net/tomp2p/message/Decoder.java:374-422 | A map entry is read exactly when it has at most 127 based-on keys; from 128 to 255 the decoder throws |
| MapRoundTrip.KeysMapDecodes | core/src/main/java/net/tomp2p/message/Decoder.java:374-422 | A map to sets of keys with any repetitions is read as its entries put one by one |
| MapRoundTrip.ByteMapDecodes | core/src/main/java/net/tomp2p/message/Decoder.java:423-456 | A map to bytes with any repetitions is read as its entries put one by one |
| StreamCuts.RepeatedKeyDependsOnTheCut | core/src/main/java/net/tomp2p/message/Decoder.java:374-456 | For every such stream that repeats a key earlier, bytes from a fresh decoder on: in one piece the message arrives, cut before the last entry it never does although all bytes are read |
| DecoderObject.Reader.constructor | core/src/main/java/net/tomp2p/message/Decoder.java:60-78 | All partial fields fresh |
| DecoderObject.Reader.DecodeHeader | core/src/main/java/net/tomp2p/message/Decoder.java:160-189 | Too few bytes leave everything as it was; otherwise header fields, sender as seen and content queue are set |
| DecoderObject.Reader.ReadNeighbors | core/src/main/java/net/tomp2p/message/Decoder.java:239-264 | Resumes the loop over neighbours and leads to the same end as the value-level decoder |
| DecoderObject.Reader.ReadKeyCollection | core/src/main/java/net/tomp2p/message/Decoder.java:279-309 | Resumes the loop over keys |
| DecoderObject.Reader.ReadKeysMap | core/src/main/java/net/tomp2p/message/Decoder.java:374-422 | Resumes the loop over entries with based-on keys |
| DecoderObject.Reader.ReadByteMap | core/src/main/java/net/tomp2p/message/Decoder.java:423-456 | Resumes the loop over byte entries |
| DecoderObject.Reader.ReadBuffer | core/src/main/java/net/tomp2p/message/Decoder.java:457-479 | Takes the buffer when all its bytes are there |
| DecoderObject.Reader.DecodePayload | core/src/main/java/net/tomp2p/message/Decoder.java:191-479 | Fields, unread bytes and status are those of the value-level loop |
| DecoderObject.Reader.Decode | core/src/main/java/net/tomp2p/message/Decoder.java:80-119 | Every call ends with the fields, unread bytes and status of the value-level decoder |
| DecoderObject.Reader.Feed | core/src/main/java/net/tomp2p/message/TomP2PCumulationTCP.java:72-83 | The loop around `decode` and `prepareFinish` hands out exactly the messages, and leaves the fields and unread bytes, that the stream theorems speak of |
| DecoderObject.Reader.PrepareFinish | core/src/main/java/net/tomp2p/message/Decoder.java:567-587 | Hands out the message and resets every partial field but those of the byte map |
| CountingBloomFilter.Filter.constructor | core/src/main/java/net/tomp2p/rpc/CountingBloomFilter.java:52-57 | A filter over existing counters, negative ones included |
| CountingBloomFilter.Filter.Add | core/src/main/java/net/tomp2p/rpc/CountingBloomFilter.java:84-95 | Every counter is what it held at first plus the number of draws that hit it, saturated, repeated draws included |
| CountingBloomFilter.Filter.Clear | core/src/main/java/net/tomp2p/rpc/CountingBloomFilter.java:112-116 | All counters zero and nothing added |
| CountingBloomFilter.Filter.Contains | core/src/main/java/net/tomp2p/rpc/CountingBloomFilter.java:124-132 | True exactly when no counter of the value is zero; with no negative counters to begin with, for every added value |
| CountingBloomFilter.Filter.ApproximateCount | core/src/main/java/net/tomp2p/rpc/CountingBloomFilter.java:229-236 | The smallest counter of the value's draws; with no negative counters to begin with, never below the number of times it was added, up to saturation |
| CountingBloomFilter.HitsCoverOccurrences | core/src/main/java/net/tomp2p/rpc/CountingBloomFilter.java:84-95 | Each draw of a value is hit at least as often as the value was added |

## Where the code and its promises differ

- The comment of `MessageHeaderCodec.encodeHeader` gives a total of 59 bytes; the code needs 63 before it
  looks at a header (lines 50-51), which is what the model does.
- `PeerAddress` documents at most five relays (line 49); the code has three bits and allows seven.
- The based-on length of `MAP_KEY640_KEYS` is written unsigned and read signed: `MapRoundTrip.BasedOnLimit`
  gives the exact limit.
- Timeouts without a successful check do not always evict a peer: one that leaves the table, on an exception that is
  forgotten later or pushed out of its overflow bag, and is mentioned again starts with a clean counter
  (`Eviction.ReentryForgets`, `Eviction.PushOutForgets`). What counts is the timeouts since the last reset of the counter
  (`Eviction.TimeoutEvictsExactly`); a report that a filter rejects, or that is second-hand while the verified bag is
  full, resets nothing.
- The loops over the entries of a map resume at the size of the map, so a map that repeats a key before its last entry
  is decoded differently depending on where the bytes are cut, at the latest at the end of that map
  (`StreamPrefixes.PrefixesCutFreeExactly`); bytes that follow it can undo the difference by coincidence, so for a whole
  stream the statement is about its last content (`StreamCuts.CutsMatterExactly`). A repetition in the last entry is
  harmless, and no encoder writes either.
- A second `ChannelCreator.shutdown()` completes the shutdown future while channels may be open. If a caller makes it,
  the number of open channels is unbounded (`PermitRuns.SecondShutdownOverruns`); if only the bulk shutdown does, the
  bound holds (`OpenChannels.OpenChannelsBounded`) but completion is reported too early
  (`PermitRuns.ShutdownReportedEarly`).
- A grant without a usable local address loses its permits (`PermitRuns.UnknownSourceLeaks`): reservations can be
  blocked by nobody and for good (`PermitRuns.BlockedByNobody`, `Reservation.BlockedForGood`), and the bulk shutdown
  then waits for ever (`BulkShutdown.ShutdownCompletesExactly`).
- A counting Bloom filter over existing data with negative counters can deny a value that was added:
  `CountingBloomFilter.Filter.Contains` gives the exact answer.
- The RTT comparator is no order when one peer is seen with different round-trip times:
  `Metric.CompareRttSnapshots`.
- `prepareFinish` does not reset the byte-map fields (Decoder.java:567-587); after a complete message they are
  fresh anyway, as `MessageStream.MessageRoundTrip` shows.

## Left out

- Cryptography: signatures, public keys and signed messages; the contents `PUBLIC_KEY`, `PUBLIC_KEY_SIGNATURE`.
- The contents `MAP_KEY640_DATA`, `SET_TRACKER_DATA` and `BLOOM_FILTER`: the decoder model fails on them.
- What happens to a connection after the decoder has thrown, and the shortcuts of `TomP2PCumulationTCP` for
  streaming and repeated message ids; the model drives `decode` and `prepareFinish` directly.
- `lastContent`, `bufferTransferred` and the hint flags of the message, which the modelled contents do not use.
- The order in which a receiver iterates over a decoded map: a map is held as its entries in order of arrival.
- `KeyCollection` in its convert form, which writes the same bytes as the plain one.
- Round-trip times inside `PeerMap` and their caches; a lookup sees a comparator that does not change.
- Time: cache expiry in `PeerMap` is an event that may happen at any moment; the broadcast cache evicts nothing
  during one broadcast and no message is lost.
- Map-change listeners, statistics and maintenance in `PeerMap`; the re-check of `peerFound` at lines 339-341, which
  atomic steps cannot reach; a peer's sockets, which are one value `endpoint` there.
- Broadcast: the redundancy is any number from one on instead of the constant; payload and transport are left out.
- Lookup: post-routing filters, two pre-routing filters at once, digests computed locally (they are a parameter), and
  what cancelled requests do after the lookup is done.
- `FutureForkJoin.futuresCompleted` and `cancelAll`.
- Listeners that throw; the await methods and progress listeners of futures.
- `BulkReservation` and its threads are an event machine on values, so lock fairness and executor queues are not
  captured; negative permit arguments are not modelled.
- Netty channels, bootstraps and pipelines: only their events remain.
- CompareRttOrder: two statistics of one peer with different round-trip times are outside its chain, because there the code is not transitive.
- FromString: refuses digits beyond ASCII that `Character.digit` accepts.
- TwiceSeen: the cache neither expires nor evicts, since one broadcast is assumed to be shorter than either.
- FilterPeers: one filter, which may stand for several of which no two reject the same peer; two that do make the original throw.
- Filter.constructor: the number of draws is a parameter instead of the rounded product of floating-point numbers.
