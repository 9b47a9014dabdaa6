# p3com: a verified model

p3com is a gateway that mirrors iceoryx publish/subscribe traffic between devices. This project
models its generic part and proves what it is for:

- **Messages** (`DataWriter`, `Serialization`, `Reassembly`, `Chunks`, `SegmentedMessages`,
  `TransportToIox`, `TwoLocks`, `EndToEnd`, `EndToEndExact`, `MemoryPool`, `MemoryPoolExact`,
  `Delivery`, `ThreadedEndToEnd`, `ThreadedMemoryPool`). A message is cut into datagrams, the
  datagrams travel by copy or by DMA in any order and with losses, and the receiver rebuilds the
  message in a loaned chunk, whose memory iceoryx loans again later, beside a timeout sweep that
  runs in another thread.
- **Discovery and routing** (`Helpers`, `Transports`, `TransportInfos`, `Discovery`, `Routing`,
  `DiscoveryNetwork`, `CrowdedNetwork`, `RoutedNetwork`, `Forwarding`, `TransportForwarder`). Gateways
  announce their subscribers, answer peers they see for the first time, survive failing transports,
  and route and forward messages by what they know.
- **Channels and ownership** (`VectorMaps`, `Gateways`, `SentChunks`). Endpoints follow the needed
  services, and chunks taken for sending are given back.

Objects that the program updates in place are classes here. Each method is proved against a
function on values, and the theorems over whole runs are about state machines built from the same
functions: `EndToEnd` and `TwoLocks` from the operations of `Reassembly` that `TransportToIox`
implements, `DiscoveryNetwork` from the operations of `Routing` and `Discovery`. `EndToEnd` is about
chunks that each have memory of their own, `MemoryPool` about memory that is loaned again;
`ThreadedEndToEnd` and `ThreadedMemoryPool` carry the guarantee over to the interleaved threads.
`Witnesses` holds the inputs on which the code gives less than one might expect.

## Where the code gives less than the plain claim

- **End to end.** With buffers handed to a DMA engine the claim that every publication is a sent
  message fails in two ways. A buffer of a message with no finished segment is taken away (by a
  timeout or channel deletion) while a transfer into it is under way and another segment is still to
  come: that segment restarts the message, and the old transfer's completion is counted for the new
  chunk (`Witnesses.CarelessRun`). Or a chunk is released (by the sweep, channel deletion, an aborted
  transfer, or a full table at a buffer request) while a segment is being written into it: iceoryx
  loans its memory again, and the old write lands in another message (`Witnesses.ReusedMemory`).
  `MemoryPoolExact.GuaranteeHoldsExactly` proves that ruling these out (`MemoryPool.Careful`) is
  exact as long as messages go on being sent, and `Delivery.CarefulMeans` says beforehand which steps
  they are. Messages that arrive by copy need no condition, not even room in the table
  (`Delivery.CopiesNeedNoCare`).
- **Full segment table.** A chunk released by `push` is still copied into (`Witnesses.OverflowRun`),
  and only then (`TwoLocks.CopiesIntoLiveChunks`).
- **Timeout sweep.** A deadline is computed before the push waits for the table, so a sweep that
  begins in between may find one entry more to expire than there were (`Witnesses.LateRun`), but
  no more than one (`TwoLocks.SweepIsBounded`).
- **Deadlines.** The sum of the two sizes is taken modulo 2^32, so an entry of a larger message
  expires early (`Reassembly.ExpiresExactly`).
- **Pending sends.** Only payload segments count, and two pending ones count as none
  (`DataWriter.WriteSegmentedInternal`).
- **Segment count.** It is right exactly if no 32-bit sum wraps (`DataWriter.CountExact`), and the
  receiver's length check accepts exactly lengths below 2^32 (`EndToEnd.DatagramTakenExactly`).
- **Routing cache.** A termination neither clears nor updates it. A cached entry is the lookup on
  the records at the time it was inserted, which may be later than the last clear
  (`Routing.CachedResult`, `Witnesses.CachedAfterTermination`, `Witnesses.CachedBeforeTermination`).
- **Full record table.** The eleventh peer is given the record of another one, device indices
  included (`Routing.IndicesLearnt`). So discovery converges only while the tables have room
  (`DiscoveryNetwork.SmallNetworksConverge`, `DiscoveryNetwork.TooManyNeverAgree`); with twelve
  gateways the answers need not end (`CrowdedNetwork.ExchangeEndsExactly`,
  `CrowdedNetwork.AgreementExactly`).
- **Failing transports.** The last broadcast carries the final bitset on transports that are still
  good, and on a terminating gateway it is the message given (`DiscoveryManager.SendDiscoveryInfo`).
- **Needed channels.** Their union is cut off at MAX_TOPICS (`Discovery.NeededChannelsIsUnion`).
- **Local state.** If the port introspection delivers no sample, the local lists become empty
  (`Discovery.LocalFrom`).
- **Forwarding.** A message of a forwarded service that was not recorded, such as one of a local
  user, is forwarded for the device that the memory past the last record happens to name, since the
  end position is not a null pointer; a recorded message that is never taken hides the next one at
  its address (`TransportForwarder.Forwarder`).
- **Several destinations.** A chunk is given back once for each destination
  (`SentChunks.Sender.WriteSegmented`).

## Model

| member | source | states |
|---|---|---|
| `MemoryPool.EndToEnd` | source/p3com/gateway/transport_to_iox.cpp:56-251 | After any run of messages sent, deliveries, datagrams that arrive cut short or extended, buffer requests, DMA writes, completions, aborts, timeouts, channel deletions and re-creations in any order and interleaving, with losses, failed loans and memory that is loaned again, in which every step is careful: each publication is a different sent message, with its header and payload byte for byte, through the publisher of its service |
| `MemoryPool.MangledChangesNothing` | source/p3com/gateway/transport_to_iox.cpp:61-71 | Bytes with a header that are not as many as it says, whatever they are, change nothing: nothing is copied, counted or published |
| `MemoryPool.CutOrExtended` | source/p3com/gateway/transport_to_iox.cpp:61-71 | A sent datagram that has lost some of its data, or gained any bytes, arrives as such |
| `MemoryPoolExact.GuaranteeHoldsExactly` | source/p3com/gateway/transport_to_iox.cpp:154-251 | After any careful run, a step keeps that guarantee for every careful run to come if it is careful; and only then, as long as some message is still to be sent |
| `MemoryPoolExact.CarefulIsFaithful` | source/p3com/gateway/transport_to_iox.cpp:118-150 | A careful step leaves what has been published as it is, and what it publishes is the message whose segment just arrived, under the device it arrived from |
| `Delivery.CarefulMeans` | source/p3com/gateway/transport_to_iox.cpp:154-251 | Which steps are careful, before they are taken: a buffer request that finds an entry, no channel, no loan or room; a release of a chunk by sweep, abort or channel deletion that nobody is writing into by DMA; a timeout or channel deletion that leaves no transfer of an untouched message that another segment could restart |
| `MemoryPoolExact.ThreatUnsafe` | source/p3com/gateway/transport_to_iox.cpp:154-251 | If a chunk is released while a segment is being written into it by DMA, some careful run publishes another message, in that memory, with bytes of that segment |
| `MemoryPool.WritesStayHome` | source/p3com/gateway/transport_to_iox.cpp:154-220 | In a careful run every DMA write goes into the chunk it was meant for, which the gateway still has |
| `EndToEndExact.StrandedUnsafe` | source/p3com/gateway/transport_to_iox.cpp:164-214 | A message restarted while an old transfer is under way is published with that segment missing, by a careful run that releases nothing |
| `MemoryPool.StepKeeps` | source/p3com/gateway/transport_to_iox.cpp:73-251 | Every careful step keeps the invariant, with memory that is loaned again: nothing is being written into a chunk given up, and what follows |
| `EndToEnd.StepKeeps` | source/p3com/gateway/transport_to_iox.cpp:73-251 | Every careful event keeps the invariant of the chunks: they hold all segments counted for them, counters fit, transfers are accounted for |
| `EndToEnd.PublishedWhole` | source/p3com/gateway/transport_to_iox.cpp:139-150 | A published chunk holds every byte of the message it was loaned for |
| `EndToEnd.LastCount` | source/p3com/generic/segmented_messages.cpp:59-88 | The counter reaches 0 on the completion of the last of submessageCount segments and on no other |
| `EndToEnd.DatagramTakenExactly` | source/p3com/gateway/transport_to_iox.cpp:61-71 | The 32-bit length check accepts a sent datagram exactly if its length is below 2^32 |
| `Reassembly.TakenExactly` | source/p3com/gateway/transport_to_iox.cpp:61-71 | For any bytes with a header: they are received exactly if they are as many as the header says and fewer than 2^32, and otherwise the receiver stays as it is |
| `EndToEnd.TakeNextPlaces` | source/p3com/generic/data_reader.cpp:15-37 | The copy of a segment stays in its buffer and puts the segment in its place |
| `EndToEnd.TakeNextKeeps` | source/p3com/generic/data_reader.cpp:15-37 | and disturbs no other segment of the message, on either side of the header/payload boundary |
| `Delivery.DeliveredExactly` | source/p3com/gateway/transport_to_iox.cpp:73-251 | A message of at least one byte whose channel is open and not closed, whose loan is granted and recorded, whose datagrams pass the length check and whose transfers are not aborted and entry does not expire, among any other events, has been published once and in full exactly when every segment of it has been copied or its transfer completed, and before that not at all |
| `Delivery.CopiesNeedNoCare` | source/p3com/gateway/transport_to_iox.cpp:73-152 | In a run without buffer requests every event that can happen is careful, with the table full or not, and no transfer is ever under way |
| `Witnesses.ReusedMemory` | source/p3com/gateway/transport_to_iox.cpp:154-251 | The buffer of [10, 11] is requested and its entry expires, which is a careful run; the release that follows is not careful, and a careful run after it publishes [20, 21] as [10, 21] |
| `Witnesses.CarelessRun` | source/p3com/gateway/transport_to_iox.cpp:154-251 | Two bytes in two datagrams: the first one's buffer is requested, its entry expires; that run is careful, that expiry is not, and a careful run after it makes a publication that is not the message whose segment arrived |
| `Reassembly.AlwaysConserved` | source/p3com/gateway/transport_to_iox.cpp:73-251 | Over every run of receives, buffer requests and releases, DMA writes, expiries, channel deletions and creations, for any headers whose copies stay inside their buffers and with the table full or not: each chunk is in exactly one of held by one table entry, detached by the sweep, published, released; none is lost, none given up twice |
| `MemoryPool.ArrivalsInBounds` | source/p3com/generic/data_reader.cpp:15-37 | In every careful run each segment that arrives fits the buffer it is copied to |
| `Reassembly.ReceiveConserves` | source/p3com/gateway/transport_to_iox.cpp:73-151 | Whatever the datagram, receive keeps chunks accounted for, full table included |
| `Reassembly.LoanBufferConserves` | source/p3com/gateway/transport_to_iox.cpp:154-220 | loanBuffer keeps chunks accounted for, full table included |
| `Reassembly.ReleaseBufferConserves` | source/p3com/gateway/transport_to_iox.cpp:222-251 | releaseBuffer keeps chunks accounted for |
| `Reassembly.DetachConserves` | source/p3com/generic/segmented_messages.cpp:15-28 | Taking an expired entry out leaves its chunk in the hands of the sweep |
| `Reassembly.GiveBackConserves` | source/p3com/generic/segmented_messages.cpp:29-32 | The sweep gives its chunk back once |
| `Reassembly.DiscardConserves` | source/p3com/generic/segmented_messages.cpp:121-135 | Releasing any group of entries keeps chunks accounted for |
| `Reassembly.FirstSegment` | source/p3com/gateway/transport_to_iox.cpp:83-136 | An entry created by a copied segment with count-1 is the entry with the full count after one completion |
| `Reassembly.PublishedAsItCame` | source/p3com/gateway/transport_to_iox.cpp:139-150 | Each receive or release adds at most one publication, for the service in its header and with the device it came from |
| `Reassembly.ExpiresExactly` | source/p3com/gateway/transport_to_iox.cpp:118-135 | An entry made at time t for n bytes of header and payload, by copy or by request, expires exactly after t + 500 n nanoseconds; from 2^32 bytes on the sum wraps and it expires earlier |
| `Reassembly.DeadlineStays` | source/p3com/generic/segmented_messages.cpp:6-37 | Over any run, as long as an entry is in the table its deadline stays |
| `TransportToIox.Transport2Iceoryx.Receive` | source/p3com/gateway/transport_to_iox.cpp:56-152 | The user data callback on bytes: terminates exactly on a short datagram, leaves the whole state as it is if the length is not what the header says, else does the atomic receive operation; and keeps chunks accounted for |
| `TransportToIox.Transport2Iceoryx.LoanBuffer` | source/p3com/gateway/transport_to_iox.cpp:154-220 | The buffer-needed callback: new state and returned buffer are those of the loan operation |
| `TransportToIox.Transport2Iceoryx.ReleaseBuffer` | source/p3com/gateway/transport_to_iox.cpp:222-251 | The buffer-released callback: count down and publish, or release |
| `TransportToIox.Transport2Iceoryx.DeleteChannel` | source/p3com/gateway/transport_to_iox.cpp:264-273 | Deleting a channel takes out and releases exactly its entries |
| `TransportToIox.Transport2Iceoryx.CheckSegmentedMessages` | source/p3com/generic/segmented_messages.cpp:6-37 | A sweep without interruption takes out and releases exactly the expired entries |
| `TransportToIox.FilterIsDiscard` | source/p3com/generic/segmented_messages.cpp:121-135 | The filtered vectors and released chunks are the filtered map and discarded chunks of the atomic operation |
| `SegmentedMessages.SegmentedMessageManager.Push` | source/p3com/generic/segmented_messages.cpp:39-57 | A new entry, or with the table full the chunk released and the table unchanged |
| `SegmentedMessages.SegmentedMessageManager.FindAndDecrement` | source/p3com/generic/segmented_messages.cpp:59-88 | Counts an entry down, erasing it exactly at 0; nothing changes for an unknown hash |
| `SegmentedMessages.SegmentedMessageManager.Find` | source/p3com/generic/segmented_messages.cpp:90-107 | Finds exactly the entries in the table |
| `SegmentedMessages.SegmentedMessageManager.Release` | source/p3com/generic/segmented_messages.cpp:109-119 | Takes one entry out and releases its chunk |
| `SegmentedMessages.SegmentedMessageManager.ReleaseAll` | source/p3com/generic/segmented_messages.cpp:121-135 | Erasing while walking backwards removes and releases exactly the entries of one publisher and keeps the order of the rest |
| `SegmentedMessages.SegmentedMessageManager.CheckSegmentedMessages` | source/p3com/generic/segmented_messages.cpp:6-37 | Repeated first-match removal is the exact filter on the deadline, order kept |
| `SegmentedMessages.KeepIsFilter` | source/p3com/generic/segmented_messages.cpp:121-135 | Filtering keys and elements in step filters the map they stand for |
| `SegmentedMessages.EraseOne` | source/p3com/generic/segmented_messages.cpp:126-133 | Erasing one entry that has to go changes neither the outcome of the filter nor the chunks finally released |
| `Chunks.ChunkPool.CopySegment` | source/p3com/generic/data_reader.cpp:15-37 | The in-place copy changes one chunk as the placing function says and no other chunk |
| `ThreadedMemoryPool.ThreadedEndToEnd` | source/p3com/gateway/transport_to_iox.cpp:56-251 | At every moment of every interleaving of the three callbacks and the sweep at lock granularity with DMA writes, whose operations are, one after the other, a careful run: each publication is a different sent message, byte for byte, through the publisher of its service |
| `ThreadedEndToEnd.ThreadedEndToEnd` | source/p3com/gateway/transport_to_iox.cpp:73-151 | At every moment of every interleaving of receive and sweep at lock granularity, if what arrives are segments of sent messages, none twice: each publication is a different sent message, with its header and payload byte for byte, through the publisher of its service |
| `TwoLocks.InterleavingsAreAtomic` | source/p3com/gateway/transport_to_iox.cpp:73-251 | Every interleaving of receive, loanBuffer, releaseBuffer and sweep at lock granularity, and of DMA writes, does, one after the other, exactly the atomic operations that its own steps stand for, with the calls that arrived, the loans granted and the times read in them |
| `TwoLocks.CopiesIntoLiveChunks` | source/p3com/gateway/transport_to_iox.cpp:139-150 | In every interleaving a segment is copied into a given-up chunk if and only if its push found the table full; what is published was not given up before |
| `TwoLocks.GivenUpAtMostOnce` | source/p3com/generic/segmented_messages.cpp:29-32 | In every interleaving no chunk is both published and released, nor released twice |
| `TwoLocks.NoDeadlock` | source/p3com/generic/segmented_messages.cpp:14-32 | While a thread is under way some thread can take its next step |
| `TwoLocks.SweepEnds` | source/p3com/generic/segmented_messages.cpp:9-36 | Each pass of the sweep removes one of the entries it has to expire; other threads add none, except one whose deadline was computed before the sweep began |
| `TwoLocks.SweepIsBounded` | source/p3com/generic/segmented_messages.cpp:9-36 | From any moment of a sweep until a pass finds nothing, in any interleaving, it removes at most as many entries as it then had to expire, and one |
| `Witnesses.OverflowRun` | source/p3com/generic/segmented_messages.cpp:39-57 | 65 messages of two segments: an interleaving that ends with a segment about to be copied into a chunk given up once already |
| `Witnesses.LateRun` | source/p3com/generic/segmented_messages.cpp:9-36 | An interleaving in which a sweep under way has nothing to expire and the next push gives it an entry to expire |
| `TwoLocks.StepDoes` | source/p3com/generic/segmented_messages.cpp:6-88 | Each step of either thread is one atomic operation or none |
| `DataWriter.WriteSegmentedInternal` | source/p3com/generic/data_writer.cpp:20-85 | Both loops end and hand the transport exactly the datagrams of the segments, in order, each with its serialized header; the message counts as pending exactly if the transport said so of one payload segment, no more and no fewer |
| `DataWriter.CarriesDatagrams` | source/p3com/generic/data_writer.cpp:43-75 | What is handed to the transport is each segment's datagram, for the one device |
| `DataWriter.DatagramSays` | source/p3com/generic/data_writer.cpp:26-75 | What a receiver reads off such a datagram: the message's hashes, sizes and alignment, the segment's offset and size, the number of segments if no 32-bit sum wraps, and the segment's bytes |
| `DataWriter.SegmentsTile` | source/p3com/generic/data_writer.cpp:36-76 | The segments cover header and payload without gap or overlap, none is empty, too long, or across the header/payload boundary |
| `DataWriter.CountExact` | source/p3com/generic/data_writer.cpp:15-33 | The submessageCount field is the number of datagrams if and only if no 32-bit sum wraps around |
| `DataWriter.CountWrongExample` | source/p3com/generic/data_writer.cpp:15-33 | A header of 2^32-1 bytes in datagrams of 2 bytes is announced as 0 segments |
| `DataWriter.CutsCover` | source/p3com/generic/data_writer.cpp:36-76 | Every byte of the message lies in a segment |
| `DataWriter.CutsDisjoint` | source/p3com/generic/data_writer.cpp:36-76 | Two segments do not overlap |
| `DataWriter.CutsCount` | source/p3com/generic/data_writer.cpp:31-33 | There are as many segments as the two ceilings say |
| `DataWriter.DivideAndRoundUpExact` | source/p3com/generic/data_writer.cpp:15-18 | The rounded division is the ceiling exactly when its sum does not wrap |
| `DataWriter.OffsetsFitIfContentFits` | source/p3com/generic/data_writer.cpp:36-76 | Offsets fit their field for messages of up to 2^32 bytes |
| `Serialization.HeaderRoundTrip` | source/p3com/generic/serialization.cpp:79-126 | Decoding an encoded header followed by any bytes returns it; it is 44 bytes |
| `Serialization.HeaderCanonical` | source/p3com/generic/serialization.cpp:103-126 | Conversely every 44 bytes are the encoding of the header they decode to |
| `Serialization.EncodeHeaderInjective` | source/p3com/generic/serialization.cpp:79-101 | Datagrams with the same bytes carry the same header and the same data |
| `Serialization.HeaderLayout` | source/p3com/generic/serialization.cpp:79-101 | The eleven words of the datagram header at their positions, least significant byte first |
| `Serialization.InfoLayout` | source/p3com/generic/serialization.cpp:22-35 | The positions of the number of services, of each bit of the bitset, of the two hashes and the flag in a discovery message |
| `Serialization.ServiceLayout` | source/p3com/generic/serialization.cpp:24-31 | Each service follows the one before, as three strings that end in a null character |
| `Serialization.InfoRoundTrip` | source/p3com/generic/serialization.cpp:5-77 | Decoding an encoded discovery message followed by any bytes returns the same value and length, which never exceeds the bound |
| `Serialization.InfoCanonical` | source/p3com/generic/serialization.cpp:40-77 | What decodes decodes to a valid message, whose encoding is the bytes read up to the normalised flag |
| `Serialization.StringRoundTrip` | source/p3com/generic/serialization.cpp:46-53 | A string survives exactly if it has no NUL and at most the capacity |
| `Serialization.SerializeInfo` | source/p3com/generic/serialization.cpp:5-38 | The serializer writes exactly the encoding, within the bound, embedded null characters included |
| `Serialization.DeserializeInfo` | source/p3com/generic/serialization.cpp:40-77 | The reading loop computes the decoder, failing where the program terminates |
| `Serialization.SerializeHeader` | source/p3com/generic/serialization.cpp:79-101 | The serializer writes exactly the 44 bytes of the encoding |
| `Serialization.DeserializeHeader` | source/p3com/generic/serialization.cpp:103-126 | The reading loop computes the decoder, failing where the program terminates |
| `VectorMaps.VectorMap.Find` | include/p3com/internal/utility/vector_map.inl:20-32 | find is map lookup |
| `VectorMaps.VectorMap.Emplace` | include/p3com/internal/utility/vector_map.inl:34-40 | emplace is map insertion up to capacity; it leaves a map exactly if the key was not there |
| `VectorMaps.VectorMap.Erase` | include/p3com/internal/utility/vector_map.inl:42-48 | erase removes one key and keeps keys and elements aligned |
| `VectorMaps.VectorMap.Clear` | include/p3com/internal/utility/vector_map.inl:50-55 | clear leaves the empty map |
| `VectorMaps.AsMapWithout` | include/p3com/internal/utility/vector_map.inl:42-48 | Dropping a position of both vectors drops that key from the map |
| `VectorMaps.FirstIsFound` | include/p3com/internal/utility/vector_map.inl:20-40 | emplace under a key that is there already changes no lookup |
| `VectorMaps.AsMapSnoc` | include/p3com/internal/utility/vector_map.inl:34-40 | Appending to both vectors inserts into the map |
| `Helpers.DeleteAllIsDifference` | include/p3com/utility/helper_functions.hpp:80-92 | deleteElements is multiset difference |
| `Helpers.BothEmptyIffPermutation` | source/p3com/generic/discovery.cpp:188-222 | Both differences are empty exactly if the lists are permutations of each other |
| `Helpers.PushUniqueIsUnion` | include/p3com/utility/helper_functions.hpp:102-111 | pushUnique computes the union as long as it has room |
| `Helpers.PushUniqueShape` | include/p3com/utility/helper_functions.hpp:102-111 | pushUnique keeps what was there as a prefix and makes no duplicates |
| `Transports.Transport.HasFailedSetDisabled` | include/p3com/transport/transport.hpp:125-130 | True exactly when the status goes from FAILED to DISABLED |
| `Transports.Transport.SetFailed` | include/p3com/transport/transport.hpp:136-141 | Only a good transport becomes FAILED |
| `TransportInfos.TransportInfo.SendToAll` | include/p3com/transport/transport_info.hpp:69-77 | Every good transport is handed the message once, the others nothing |
| `TransportInfos.TransportInfo.DisableIfFailed` | include/p3com/transport/transport_info.hpp:79-84 | The bit is cleared exactly when the status goes from FAILED to DISABLED; the bitset stays the set of transports not disabled |
| `TransportInfos.TransportInfo.FindMatchingType` | include/p3com/transport/transport_info.hpp:92-113 | The preferred type if both ends have it, else the first good type the other end has |
| `TransportInfos.MatchingType` | include/p3com/transport/transport_info.hpp:92-113 | The one type that matches: the preferred one if both ends have it, else the first of PCIe, UDP, TCP that is good here and that the other end has; none exactly if there is no such type |
| `Discovery.DiscoveryManager.SendDiscoveryInfo` | include/p3com/transport/transport_info.hpp:68-90 | Followed through the fail callback it ends; the callback runs once for each transport disabled; none is left FAILED; every transport still good was last handed a message with the final bitset (the given one if nothing failed or the gateway is terminating); the cache is cleared exactly if a transport was disabled |
| `Discovery.DiscoveryManager.FailCallback` | source/p3com/generic/discovery.cpp:37-44 | Clears the cache and, unless terminating, leaves every good transport with the present state |
| `Discovery.DiscoveryManager.HandleFailure` | include/p3com/transport/transport_info.hpp:79-89 | One turn of the disabling loop, with the callback it may run |
| `Discovery.DiscoveryManager.ReceiveInfo` | source/p3com/generic/discovery.cpp:297-337 | A first-seen peer is answered with the present state; the record then holds the message, with the table full the last record there was; a known peer's record keeps its device indices and learns the sender's; the cache is empty, the needed channels are passed on |
| `Discovery.DiscoveryManager.ReceiveTermination` | source/p3com/generic/discovery.cpp:288-296 | A termination erases the record; the cache stays, and stays sound |
| `Discovery.DiscoveryManager.ReceiveRemoteDiscoveryInfo` | source/p3com/generic/discovery.cpp:265-337 | On bytes: terminates exactly on a malformed message, else brings the records up to date |
| `Discovery.DiscoveryManager.ReadPortSubscriber` | source/p3com/generic/discovery.cpp:148-242 | The local state becomes what the introspection reported, and what was last announced are the services of the user subscribers in it; returns early exactly if both service lists are permutations of the old ones; otherwise passes on the needed channels and announces the subscribers unless they are what was last announced |
| `Discovery.DiscoveryManager.TakeSample` | source/p3com/generic/discovery.cpp:156-180 | The two loops over the sample take over the ports of users, in order, as many as the vectors hold |
| `Discovery.LocalIsReported` | source/p3com/generic/discovery.cpp:156-180 | Publishers, their ids, and subscribers are those of exactly the ports that are neither a gateway's nor the introspection's own, in order; of more than MAX_TOPICS the first |
| `Discovery.ReportedServices` | source/p3com/generic/discovery.cpp:156-180 | With at most MAX_TOPICS user ports in a list, its services are exactly theirs |
| `Discovery.DiscoveryManager.Deinitialize` | source/p3com/generic/discovery.cpp:74-87 | Every transport still good was last handed the termination message |
| `Discovery.DiscoveryManager.ResendDiscoveryInfoToTransport` | source/p3com/generic/discovery.cpp:253-263 | The periodic repetition carries the present state |
| `Discovery.DiscoveryManager.GenerateDeviceIndices` | source/p3com/generic/discovery.cpp:339-370 | Nothing for own or unknown publishers; for a service not cached, each gateway that subscribes to it, once, over the type that matches, and no other; for a cached one, a list that has the fresh lookup as a subsequence and beyond it only destinations of gateways terminated since |
| `Discovery.DiscoveryManager.GenerateDeviceIndicesForwarding` | source/p3com/generic/discovery.cpp:399-445 | Each subscribed gateway that shares no type with the source device's gateway, once, over the type that matches, and no other; nothing if the source is not known |
| `Discovery.DiscoveryManager.AddGatewayPublisher` | source/p3com/generic/discovery.cpp:447-451 | Records one more own publisher |
| `Discovery.DiscoveryManager.DiscardGatewayPublisher` | source/p3com/generic/discovery.cpp:453-457 | Forgets one |
| `Discovery.NeededChannelsIsUnion` | source/p3com/generic/discovery.cpp:105-120 | The needed channels are the union of local publishers and subscribers and remote subscribers, without duplicates, if and only if the union fits MAX_TOPICS |
| `Discovery.AnnouncedElements` | source/p3com/generic/discovery.cpp:89-103 | The announced services are those of the subscribers, each once |
| `Discovery.GatewayPortsExcluded` | source/p3com/generic/discovery.cpp:156-180 | The gateway's own ports never count as user publisher ports |
| `Routing.RecordsAfterMeaning` | source/p3com/generic/discovery.cpp:274-327 | One record for each gateway, holding its last message, and none after a termination; the other records are untouched if and only if the message needs no new record or finds room for one |
| `Routing.IndicesLearnt` | source/p3com/generic/discovery.cpp:298-327 | The record of a known gateway keeps its device indices and gains the sender's exactly if it had none of that type; a new record has that one; with the table full a new gateway takes over the last record and the indices in it |
| `Routing.KnownStays` | source/p3com/generic/discovery.cpp:274-327 | A known device of a gateway stays known unless the message costs the gateway its record, by its termination or by a takeover |
| `Routing.DevicesStayKnown` | source/p3com/generic/discovery.cpp:274-327 | Over any run of messages a device once learnt is known for as long as its gateway has a record |
| `Routing.OneIndexPerTypeKept` | source/p3com/generic/discovery.cpp:314-326 | A record has at most one device index for each type |
| `Routing.WhoReceives` | source/p3com/generic/discovery.cpp:372-397 | The lookup names each gateway with a subscriber of the class, once and in record order, by its index of the type that matches, and nothing else |
| `Routing.WhoIsForwarded` | source/p3com/generic/discovery.cpp:399-445 | So does the forwarding lookup, for the gateways that share no type with the last record that has the source device, if that has a bitset |
| `Routing.CachedResult` | source/p3com/generic/discovery.cpp:357-370 | Against a fresh lookup a cached one has extra destinations only in gateways terminated since, and is equal exactly if none of them was a destination |
| `Routing.TerminationsOnlyRemove` | source/p3com/generic/discovery.cpp:372-397 | Removing records removes exactly their destinations from a lookup and keeps the order |
| `Routing.TerminationKeepsSound` | source/p3com/generic/discovery.cpp:288-296 | Erasing a record without clearing the cache keeps that relation |
| `Witnesses.CachedAfterTermination` | source/p3com/generic/discovery.cpp:288-296 | One peer terminates, then a lookup is cached: it is not the lookup on the records of the last clear |
| `Witnesses.CachedBeforeTermination` | source/p3com/generic/discovery.cpp:288-296 | A lookup is cached, then the peer terminates: the cached destination is gone from a fresh lookup |
| `Routing.QueryKeepsSound` | source/p3com/generic/discovery.cpp:357-366 | So does caching a lookup on the present records |
| `DiscoveryNetwork.Convergence` | source/p3com/generic/discovery.cpp:47-103 | In every run of any number of gateways on one reliable transport with FIFO channels in which each first message finds room for a record, once no message is in flight each running gateway knows exactly the present subscribers of each other running one and nothing of a stopped one |
| `DiscoveryNetwork.PeersKnowSamples` | source/p3com/generic/discovery.cpp:148-331 | In the same runs, once no message is in flight, what a running gateway has recorded of another running one are the services of the user subscribers in the last sample that one took |
| `RoutedNetwork.MessagesReachSubscribers` | source/p3com/generic/discovery.cpp:148-397 | In the same runs over one transport, once no message is in flight, a running gateway sends a message to another one if and only if that one is running and its last sample has a user subscriber of the class |
| `DiscoveryNetwork.Announcement` | source/p3com/generic/discovery.cpp:89-103 | At a start, a repetition, a change of subscribers and a stop every other running gateway gets one more message, with the hash, the bitset and the present subscribers |
| `DiscoveryNetwork.SmallNetworksConverge` | source/p3com/generic/discovery.cpp:265-331 | With at most MAX_DEVICE_COUNT + 1 gateways every run is such a run |
| `DiscoveryNetwork.TooManyNeverAgree` | source/p3com/generic/discovery.cpp:298-311 | While a gateway has more than MAX_DEVICE_COUNT running peers there is no agreement, whatever has happened |
| `DiscoveryNetwork.StepKeeps` | source/p3com/generic/discovery.cpp:265-331 | Start, local change, repetition, stop and delivery, if its message finds room, keep the invariant: the last message under way or the record is up to date, and of two gateways each knows the other, or is about to |
| `DiscoveryNetwork.DeliveryReducesChatter` | source/p3com/generic/discovery.cpp:299-309 | Every delivery, with the answers it causes, makes a measure smaller |
| `DiscoveryNetwork.DeliveriesAreBounded` | source/p3com/generic/discovery.cpp:299-309 | No run of deliveries alone is longer than that measure |
| `DiscoveryNetwork.Settles` | source/p3com/generic/discovery.cpp:265-331 | From every reachable state of at most MAX_DEVICE_COUNT + 1 gateways delivering what is in flight ends, in agreement |
| `DiscoveryNetwork.RoomInEveryRun` | source/p3com/generic/discovery.cpp:307-308 | Among at most MAX_DEVICE_COUNT + 1 gateways the unchecked emplace_back never overflows, in any run |
| `DiscoveryNetwork.RecordAfter` | source/p3com/generic/discovery.cpp:274-327 | A message that finds room decides what is recorded of its sender and nothing else |
| `DiscoveryNetwork.ChangeOf` | source/p3com/generic/discovery.cpp:148-242 | What readPortSubscriber does to a discovery manager is what a local change does to a gateway of the network: its state, and whether it broadcasts |
| `DiscoveryNetwork.DeliverTo` | source/p3com/generic/discovery.cpp:265-331 | What a received message does to a discovery manager is what a delivery does to a gateway of the network: its records, and whether it answers |
| `CrowdedNetwork.ExchangeEndsExactly` | source/p3com/generic/discovery.cpp:298-311 | After every run the exchange of announcements ends, in whatever order they are delivered, if and only if there are at most MAX_DEVICE_COUNT + 1 gateways |
| `CrowdedNetwork.AgreementExactly` | source/p3com/generic/discovery.cpp:298-311 | After every run some deliveries lead to agreement if and only if there are at most MAX_DEVICE_COUNT + 1 gateways |
| `CrowdedNetwork.RingTurns` | source/p3com/generic/discovery.cpp:298-311 | Three gateways that each know one of the others only, their tables full: three deliveries lead to the same with the order reversed |
| `Forwarding.ForwardingIsLoopFree` | source/p3com/generic/discovery.cpp:399-445 | Across any number of gateways a message is transmitted at most three times and reaches no gateway twice |
| `Forwarding.ThreeTypesEnd` | include/p3com/transport/transport_type.hpp:18-28 | A chain of forwards over three transport types has at most four gateways |
| `Forwarding.FourTypesCircle` | include/p3com/transport/transport_type.hpp:18-28 | With a fourth type chains of any length exist, going round |
| `Forwarding.HopShares` | include/p3com/transport/transport_info.hpp:92-113 | A transmission uses a type in the bitsets of both ends |
| `Forwarding.ForwardSkips` | source/p3com/generic/discovery.cpp:404-428 | A forward goes to a gateway that shares no type with the one before |
| `TransportForwarder.Forwarder.Push` | source/p3com/generic/transport_forwarder.cpp:51-60 | Records the source device of a published message of a forwarded service, while there is room; an earlier record for the same payload hides it |
| `TransportForwarder.Forwarder.TakeToForward` | source/p3com/generic/transport_forwarder.cpp:97-108 | A recorded message goes on to the devices named for its source, and its record goes; one never recorded, or of a service that is not forwarded, goes on as if it came from some arbitrary device |
| `Gateways.Gateway.UpdateChannels` | include/p3com/internal/gateway/gateway.inl:10-48 | Afterwards there is exactly one endpoint for each needed service; those that were there are the same objects |
| `Gateways.UpdateCallback` | source/p3com/gateway/gateway_app.cpp:73-77 | After the update callback the channels of both gateways are the union of what local and remote users need, if it fits MAX_TOPICS |
| `Gateways.Gateway.RouteSample` | source/p3com/generic/discovery.cpp:339-355 | What any publisher the gateway ever had has sent, of deleted endpoints too, gets no destination |
| `Gateways.Gateway.ReadPorts` | source/p3com/generic/discovery.cpp:148-213 | As long as the port introspection names the gateway's own ports with its node name, no id it ever had is among the user publisher ports |
| `Gateways.Gateway.AddChannel` | include/p3com/internal/gateway/gateway.inl:50-65 | A new endpoint, with its publisher recorded; with the table full none |
| `Gateways.Gateway.DiscardChannel` | include/p3com/internal/gateway/gateway.inl:68-82 | The endpoint and its publisher id go |
| `Gateways.RoomForOne` | include/p3com/internal/gateway/gateway.inl:40-47 | Because deletions come first no set-up finds the table full |
| `Gateways.Gateway.OwnPublishersKnown` | source/p3com/generic/discovery.cpp:346-350 | The recorded publisher ids are exactly those of the live endpoints |
| `SentChunks.Sender.Route` | source/p3com/gateway/iox_to_transport.cpp:128-157 | A chunk with at most one destination is given back exactly once more, and with more exactly once more only if refused early; whatever the callbacks do in between, and however often its address was used before |
| `SentChunks.Sender.WriteSegmented` | source/p3com/generic/data_writer.cpp:89-140 | The chunk is written to each destination in turn, and each one dealt with gives it back once: sent at once, pending, failed pending, not sent, or refused; what is pending after that is its subscriber's |
| `SentChunks.Sender.WriteAnnounced` | source/p3com/generic/data_writer.cpp:102-131 | Push, transmit, and release if the send is not pending after all: one return in each case |
| `SentChunks.Sender.AwaitPending` | source/p3com/gateway/iox_to_transport.cpp:69-80 | Waiting until nothing is pending ends, without losing or adding a return |
| `SentChunks.PendingMessageManager.Push` | source/p3com/generic/pending_messages.cpp:60-76 | Refuses exactly a payload already pending and any when full |
| `SentChunks.PendingMessageManager.Release` | source/p3com/generic/pending_messages.cpp:17-45 | Gives the chunk back exactly when the counter reaches 0 |
| `SentChunks.PendingMessageManager.AnyPending` | source/p3com/generic/pending_messages.cpp:47-58 | True exactly if some pending message is the subscriber's |

## Left out

- Alignment of chunks in memory: the datagram header carries it (DataWriter.DatagramSays), and a loan is taken to honour it.
- Sockets, sessions and interface enumeration of the UDP and TCP transports: a transport is a status, a log of what it was handed, and sends that may fail at any time.
- The PCIe transport is not part of this model; the DMA engine is taken to place a segment at its offset in the buffer that loanBuffer returned.
- iceoryx: chunks are ids with owner and buffers, loans may fail, class hashes are an arbitrary function; the identifier capacity of 100, the four class hash words and an `emplace_back` that leaves a full vector as it is are those of iceoryx v2.0.3.
- Command line, TOML configuration, logging, introspection publishing, thread start-up and join.
- NEON assembly: modelled as the byte copy it replaces.
- Message and gateway hashes are taken to be distinct; a gateway that restarts counts as another one.
- Messages with neither header nor payload: no datagram is sent for them, and nothing is claimed of them.
- Races of channel deletion with the release of expired or pending messages, and between computing needed services and running the update callback: each is one step.
- Reassembly.AlwaysConserved: only over runs whose copies stay inside their buffers, as those of sent datagrams do by MemoryPool.ArrivalsInBounds; past the end of a buffer the program's copy is undefined.
- TransportToIox.Transport2Iceoryx.Receive: requires that a segment fits the chunk it is copied to, which MemoryPool.ArrivalsInBounds proves of sent datagrams; the program does not check it for any other, and its copy is then undefined.
- Routing.CachedResult: relates an entry to the records at its insertion, because the relation to those at the last clear does not hold.
- DiscoveryNetwork.Convergence: for one shared transport; several transports would only repeat messages, as far as subscribers go.
- Gateways.Gateway.UpdateChannels: requires class hashes that tell the services concerned apart, as the program does when it files endpoints by hash.
- Gateways.Gateway.AddChannel: requires that no endpoint is filed under the class hash, which updateChannelsInternal looks up first; two needed services with one class hash are excluded as for UpdateChannels.
- Gateways.UpdateCallback: requires the same of the needed services.
- DataWriter.WriteSegmentedInternal: requires that no segment starts at or beyond 2^32; there the 32-bit offset wraps and the program reads outside the payload.
- SentChunks.Sender.AwaitPending: requires that each pending message has its callback outstanding; for one without, the program waits for ever.
- SentChunks.Sender.WriteSegmented: the transport is taken to keep its word on pending sends; the datagrams themselves are in DataWriter.WriteSegmentedInternal.
- Where a chunk lies in its memory: chunks with buffers of the same sizes are taken to be laid out alike, and what a stray write does to a chunk of other sizes is left open; memory is reused for chunks of the gateway, not of other publishers.
- Two receiving threads inside different callbacks at once: the endpoints mutex lets one in at a time, which TwoLocks takes as given.
- findMatchingType for a transport index past the enumeration, and `terminate` of the transports.
