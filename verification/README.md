# Proofs about the FOXSI-4 formatter

This project models two parts of the formatter's software and proves what they promise.

**The lock-free queue** that carries every uplink and downlink element (`include/moodycamel/concurrentqueue.h`), as the
formatter uses it: tokenless `enqueue` and `try_dequeue` with their bulk forms, hence `ImplicitProducer`, its block index,
the free list of blocks, and the hash from threads to producers. Each atomic operation is one step of a transition system; runs are
arbitrary interleavings of any number of threads. `DequeueCounters` and `FreeList` stand by themselves, and so does the
hash (`ProducerHash`, `ProducerHashSafety`, `ProducerRuns`, `ProducerTables`); `BlockIndex`, `SubQueue`, their safety proofs and `BlockPool`
together are the queue with all its producers over one pool of blocks; a call of `enqueue_bulk` is a job of several
elements there, interleaved like any other. `WaitFree` is about what its calls are sure of: that nothing but a failure makes
an enqueue come to nothing, and that every call is over in a bounded number of its own steps. `PoolOnFreeList` puts that pool together from the array of initial blocks and
the steps of `FreeList`. `EnqueueBulk` is the same operation once more, as a class with the source's
loops over linked blocks. Indices are unbounded; `CircularIndex` relates them to the stored ones.

**The read-out pipeline and its emulator.** `CommandDeck` builds RMAP packets (ECSS-E-ST-50-52C; the code of its section
5.2 is `RmapCrc`), `Foxsimile` parses and answers them against memory maps, `RmapMemory` composes the two;
`MessageAccumulator` is the emulator's reassembly of TCP chunks, `Conversation` the emulator behind it as a client knows it;
`RingPointer` and `CmosRing` are its ring write pointers; `Buffers` joins
packets to frames and cuts frames into downlink packets; `Transport` polls a ring buffer and drains the queue,
`TransportRuns` is about all runs of such polls, `WriteRetry` about the retry loop of writes; `Ground` is the reassembler
of `util/logudp.py`; `EndToEnd` puts everything together. Classes follow the source's classes; each method is proved equal
to a function of the old state, and the theorems are about these functions.

Sockets are oracles. What reading from one yields is a script of attempts, each a timeout or at most as many bytes as
asked for, with timeouts for ever after; nothing else is supposed of it unless a theorem says so.

## Where code and description differ

The model follows the code.

- `push_to_frame` never cuts the first packet of a frame to size (src/Buffers.cpp:373-385); an oversized one makes the next
  push throw. `Buffers.PushIsTakeExactly` and `TransportRuns.OverflowsExactly` give the exact conditions.
- The two copies of `get_reply_data` differ by one byte in the length they demand
  (`RmapMemory.SpaceWireGetReplyData`).
- A template patched for reading always gets the version `f` code, whatever version the system is configured with
  (`CommandDeck.PatchedTemplateIsDirect`).
- `make_reply` takes the packet size from bytes 7 to 10 of the header, one before the field it means, and echoes a byte
  past the transaction id; the first is kept as it is, the second is an arbitrary byte everywhere.
- A message whose first chunk is two bytes long, the first not zero, is taken for a housekeeping message
  (`MessageAccumulator.HandedExactly`).
- `make_reply` and `identify_sender` throw C strings; `get_response` catches `std::exception` only. Such a throw leaves the
  accumulator uncleared, leaves `context.run()`, and ends the emulator (`MessageAccumulator.MessagesAnsweredExactly`;
  `Foxsimile.ThrowsExactly` says for which messages).
- A reply with a bad status is always logged as "retrying"; the command is sent again only if the latest read before it was
  not silent (`WriteRetry.BadStatusIsResentExactly`).
- A poll that ends early leaves its bytes in the framer; the next frame begins with them
  (`EndToEnd.PollQueuesMemory` says what is queued then).
- Draining drops, unsent, the element of system 0x05 that stops it (`Transport.DrainConserves`).
- A ring of 980 frames has 981 pointer values; at the last one an advance names the same frame again
  (`RingPointer.AdvanceNamesNextFrame`).
- The emulator stores cmos write pointers high byte first, like all others; the formatter reads them low byte first, as the
  cameras store them. Polled against the emulator it reads at the reversed address (`CmosRing.CmosPollReadsReversed` says
  when that is the right one, `CmosRing.CmosStartIsMisread` that it is not at the start of the ring of frames).
- The reads of a frame are a SpaceWire payload apart and an ethernet payload long; where the two differ they overlap or leave
  gaps (`EndToEnd.HeldByteByByte`).
- A dequeue among others may find nothing although something is there that another consumer has drawn and will hand back
  (`DequeueCounters.TakesLessOnlyIfDrawn` says what must have been drawn).

## Model

| member | source | states |
|---|---|---|
| `CircularIndex.CircularLessThanIsLess` | include/moodycamel/concurrentqueue.h:477-482 | the wrapping comparison is the true order of indices less than half the range apart |
| `CircularIndex.CircularLessThanLimit` | include/moodycamel/concurrentqueue.h:477-482 | within half the range either way it is right exactly unless the second is half the range ahead |
| `CircularIndex.AvailableIsDifference` | include/moodycamel/concurrentqueue.h:2780-2797 | the wrapped computation of what is left yields tail less unreturned tickets, or nothing |
| `CircularIndex.AvailableIsCircularTest` | include/moodycamel/concurrentqueue.h:2551-2562 | the single form's wrapped comparison finds something to take exactly when the bulk form's wrapped difference does |
| `DequeueCounters.NextKeepsInv` | include/moodycamel/concurrentqueue.h:2550-2619 | every atomic operation of every thread keeps the counters' invariant, bulk and single dequeues alike |
| `DequeueCounters.HeadNeverPassesTail` | include/moodycamel/concurrentqueue.h:2550-2619 | in every run headIndex plus the claims still to be made never exceeds tailIndex |
| `DequeueCounters.TicketsConserved` | include/moodycamel/concurrentqueue.h:2550-2879 | in every run dequeueOptimisticCount is headIndex plus dequeueOvercommit plus the tickets in threads' hands |
| `DequeueCounters.ClaimsArePermanent` | include/moodycamel/concurrentqueue.h:2551-2562 | an index once claimed keeps its one claimant for the rest of the run |
| `DequeueCounters.HeldIndicesAreExclusive` | include/moodycamel/concurrentqueue.h:2550-2619 | what two consumers hold is disjoint, recorded as claimed by each of them, and enqueued |
| `DequeueCounters.QuietBalance` | include/moodycamel/concurrentqueue.h:2550-2619 | with no dequeue in flight the optimistic count less the overcommit is headIndex |
| `DequeueCounters.UndisturbedDequeue` | include/moodycamel/concurrentqueue.h:2780-2879 | an undisturbed dequeue of a non-empty sub-queue takes its oldest elements, as many as asked for and there; of an empty one, nothing, at no cost |
| `DequeueCounters.TakesLessOnlyIfDrawn` | include/moodycamel/concurrentqueue.h:2780-2800 | among any others a dequeue takes fewer than asked for only if what it takes and what was drawn by some moment of it, less what had been handed back by an earlier one, covers all that was enqueued at that earlier one |
| `FreeList.WordOperations` | include/moodycamel/concurrentqueue.h:1459-1550 | the word arithmetic on freeListRefs is the intended arithmetic on flag and count |
| `FreeList.NextKeepsInv` | include/moodycamel/concurrentqueue.h:1449-1550 | every atomic operation of add and try_get keeps the free list's invariant |
| `FreeList.NoAba` | include/moodycamel/concurrentqueue.h:1473-1514 | when the head's compare-and-swap succeeds, the next value read before is the present successor |
| `FreeList.AssertionKeepsHolding` | include/moodycamel/concurrentqueue.h:1491-1498 | the assertion after it holds whenever it is evaluated, whatever other threads have done since |
| `FreeList.ListHasNoDuplicates` | include/moodycamel/concurrentqueue.h:1449-1550 | the linked nodes are, each once, exactly those free and linked |
| `FreeList.NoNodeIsLost` | include/moodycamel/concurrentqueue.h:1449-1550 | with no call in progress the nodes added and not taken are exactly those in the list, and every reference word says so |
| `FreeList.TakersAreExclusive` | include/moodycamel/concurrentqueue.h:1459-1514 | a node about to be returned belongs to its taker alone and nobody is adding it |
| `FreeList.RefinesPool` | include/moodycamel/concurrentqueue.h:1449-1550 | each atomic operation is nothing, or one put, or one take, on an abstract pool |
| `FreeList.TakenOnlyAfterAdded` | include/moodycamel/concurrentqueue.h:1449-1550 | in every run a node taken was added and not taken since |
| `FreeList.CountFits` | include/moodycamel/concurrentqueue.h:1544-1545 | with fewer than 2^31 - 2 threads the count never reaches the flag bit |
| `FreeList.UndisturbedGet` | include/moodycamel/concurrentqueue.h:1473-1514 | an undisturbed try_get of a list that is not empty takes its first node, of an empty one none |
| `FreeList.UndisturbedAdd` | include/moodycamel/concurrentqueue.h:1458-1471 | an undisturbed add links the node at the front, unless others hold references to it: then the last of them is left to |
| `FreeList.EmptyHandedOnlyIfEmpty` | include/moodycamel/concurrentqueue.h:1473-1514 | in every run a try_get comes back with nothing only if the list was empty at some moment while it was on |
| `ProducerHashSafety.NextKeepsInv` | include/moodycamel/concurrentqueue.h:3388-3533 | every step of every thread's lookup, migration, growth and insertion keeps the tables' invariant |
| `ProducerRuns.TablesHaveRoom` | include/moodycamel/concurrentqueue.h:3388-3533 | at every moment every table is less than three quarters full, also when allocations fail and the count is taken back |
| `ProducerRuns.ProbeLoopsTerminate` | include/moodycamel/concurrentqueue.h:3388-3533 | no probe loop visits more slots than its table has, whatever others do meanwhile |
| `ProducerRuns.ReturnsOwnProducer` | include/moodycamel/concurrentqueue.h:3388-3533 | a call returns the producer created for its thread, and for no other |
| `ProducerRuns.OneProducerPerThread` | include/moodycamel/concurrentqueue.h:3388-3533 | two calls return the same producer exactly if the same thread made them, across growth |
| `ProducerRuns.FailsOnlyWithoutMemory` | include/moodycamel/concurrentqueue.h:3417-3533 | in every run a call returns null only if an allocation of that same call failed, and only if its thread has no producer yet |
| `ProducerRuns.CallAloneReturns` | include/moodycamel/concurrentqueue.h:3388-3533 | from any moment of any run at which nobody is resizing, a call left alone, with memory, comes to its producer |
| `ProducerTables.TablesAreSmall` | include/moodycamel/concurrentqueue.h:3455-3475 | in every run each table but the first has at most four times as many slots as threads have called, and three: growth waits until a table is half drawn and stops at twice what was |
| `BlockIndexSafety.OldestIsFree` | include/moodycamel/concurrentqueue.h:2901-2916 | an entry is reused only if never used, or that of the ring's oldest number, whose block is gone |
| `BlockIndexSafety.GrowthLeavesRoom` | include/moodycamel/concurrentqueue.h:2966-3008 | doubling loses no entry, and the assertion on the next slot holds |
| `BlockIndexSafety.LookupFindsBlock` | include/moodycamel/concurrentqueue.h:2948-2964 | through any header a consumer may hold, lookup reaches the entry with the index's base and block |
| `SubQueueSafety.StepKeepsInv` | include/moodycamel/concurrentqueue.h:2487-2879 | every step of enqueue, enqueue_bulk and its two rollbacks, dequeue and dequeue_bulk keeps the invariant of a producer and its blocks |
| `BlockPool.NextKeepsInv` | include/moodycamel/concurrentqueue.h:2487-3114 | so does every step of any of the producers that share the pool |
| `BlockPool.LookupAssertionsHold` | include/moodycamel/concurrentqueue.h:2948-2964 | in every run both lookup assertions hold and the block found is that of the claimed index |
| `BlockPool.EveryBlockOfClaimFound` | include/moodycamel/concurrentqueue.h:2803-2869 | so is every later block of a bulk claim that spans several |
| `BlockPool.EachElementOnce` | include/moodycamel/concurrentqueue.h:2562-2600 | moving out an index yields what was enqueued there, to its claimant, for the first time |
| `BlockPool.ClaimsDelivered` | include/moodycamel/concurrentqueue.h:2780-2871 | a finished dequeue has exactly the elements of the indices it claimed |
| `BlockPool.CountStaysInBlock` | include/moodycamel/concurrentqueue.h:1616-1633 | the assertion of set_many_empty holds in every run |
| `BlockPool.BlocksHaveOneHolder` | include/moodycamel/concurrentqueue.h:3056-3114 | no block is ever in use by two producers, or in use and in the pool |
| `BlockPool.BlocksAccountedFor` | include/moodycamel/concurrentqueue.h:3056-3114 | no block is lost: each of the initial pool's is in the pool or has a holder, failed calls or not |
| `BlockPool.ReturnedWhenEmpty` | include/moodycamel/concurrentqueue.h:2565-2608 | a block is given back only when all its elements are moved out, by one consumer, and leaves its producer with that step |
| `BlockPool.EmptiedIsReturned` | include/moodycamel/concurrentqueue.h:2565-2608 | a block whose elements are all finished is returned, or in the hands of the one consumer about to return it; with no consumer at work it is returned |
| `BlockPool.ReturnedOnce` | include/moodycamel/concurrentqueue.h:2565-2608 | a block number in use keeps its block, and is never given back twice |
| `BlockPool.StepRefinesQueue` | include/moodycamel/concurrentqueue.h:2487-2879 | each atomic operation appends all elements of one call, or hands the oldest few to one consumer, or leaves a FIFO queue alone |
| `BlockPool.EnqueueCarriesElement` | include/moodycamel/concurrentqueue.h:2487-2774 | what is appended is what enqueue or enqueue_bulk was called with |
| `BlockPool.FailedEnqueueLeavesQueue` | include/moodycamel/concurrentqueue.h:2487-2774 | an enqueue or bulk enqueue that fails at any point, among any consumers, leaves contents and tail, ends with the blocks it began with, and keeps none back |
| `BlockPool.UndoLookupAssertionsHold` | include/moodycamel/concurrentqueue.h:2667-2674 | each lookup a rollback makes, from a tail already moved back, finds the number's entry still pointing at its block, whatever consumers do |
| `BlockPool.DestroysWhatItBuilt` | include/moodycamel/concurrentqueue.h:2728-2752 | after a throwing constructor exactly the elements built are destroyed, each once |
| `BlockPool.UndoneBlockReturned` | include/moodycamel/concurrentqueue.h:2675-2678 | a rolled-back block was this call's alone and goes back to the pool in the step that ends that |
| `WaitFree.UnfailedEnqueueStores` | include/moodycamel/concurrentqueue.h:2487-2774 | in every run, among any consumers, a call of enqueue or enqueue_bulk that no allocation, constructor or full range fails has appended its elements, all and in order, when it ends |
| `WaitFree.EnqueueIsWaitFree` | include/moodycamel/concurrentqueue.h:2487-2774 | in every run a call of enqueue or enqueue_bulk, its undoing included, takes no more steps than a bound known when it is first looked at, whatever consumers do |
| `WaitFree.DequeueIsWaitFree` | include/moodycamel/concurrentqueue.h:2550-2879 | so does every call of dequeue and dequeue_bulk on a sub-queue, from its first load to its last block given back, whatever others do |
| `PoolOnFreeList.NextKeepsInv` | include/moodycamel/concurrentqueue.h:3056-3114 | every step of the queue, of the initial array and of any call inside the free list keeps the three together |
| `PoolOnFreeList.ListRealisesPool` | include/moodycamel/concurrentqueue.h:3056-3114 | in every run the atomic pool is what is left of the array and what the free list has: add finds its block in nobody else's call, and the node try_get unlinks is one the pool has and becomes its caller's |
| `EnqueueBulk.GrowthKeeps` | include/moodycamel/concurrentqueue.h:2966-3008 | growing in the middle of a bulk enqueue keeps every number's entry |
| `EnqueueBulk.FreeSlotIsApart` | include/moodycamel/concurrentqueue.h:2901-2916 | a slot the insertion may take is not that of a block in use |
| `EnqueueBulk.ImplicitProducer.InsertBlockIndexEntry` | include/moodycamel/concurrentqueue.h:2901-2933 | an entry is inserted under its key, possibly after growing, all others found as before; or nothing changes |
| `EnqueueBulk.ImplicitProducer.AllocateBlocks` | include/moodycamel/concurrentqueue.h:2639-2704 | all blocks needed are indexed in order and linked in order, or, exactly if one cannot be had, none and all given back |
| `EnqueueBulk.ImplicitProducer.UndoBlocks` | include/moodycamel/concurrentqueue.h:2662-2678 | undoing, each lookup being made from a tail already moved back, restores the index and gives each block back once |
| `EnqueueBulk.ImplicitProducer.FillBlocks` | include/moodycamel/concurrentqueue.h:2706-2768 | walking the links, each element is built in the cell its index is looked up in, up to the one whose constructor throws, and no other cell changes |
| `EnqueueBulk.ImplicitProducer.DestroyBlocks` | include/moodycamel/concurrentqueue.h:2732-2748 | the second walk destroys exactly what the first built |
| `EnqueueBulk.ImplicitProducer.EnqueueBulk` | include/moodycamel/concurrentqueue.h:2626-2774 | the contents gain exactly the items in order; or, if an allocation fails or a constructor throws, contents, tail index and tail block are as before, nothing built is left, and each block obtained is given back once |
| `Bytes.ValueOfSplat` | src/Utilities.cpp:352-387 | splitting a number that fits into bytes loses nothing |
| `Bytes.SplatToNBytes` | src/Utilities.cpp:352-361 | the loop computes the big-endian bytes |
| `Bytes.UnsplatFrom4Bytes` | src/Utilities.cpp:363-377 | the loop computes what the first four bytes denote, zero for fewer |
| `RmapCrc.CrcLinear` | src/Utilities.cpp:128-173 | the bit-serial code is linear over exclusive or |
| `RmapCrc.CodeWordIsZero` | src/DataLinkLayer.cpp:303-317 | data followed by their code have code zero |
| `RmapCrc.OddErrorsDetected` | src/DataLinkLayer.cpp:303-317 | any odd number of flipped bits changes the code |
| `RmapCrc.BurstsDetected` | src/DataLinkLayer.cpp:303-317 | any error within 8 consecutive bits changes the code |
| `RmapCrc.TableIsCode` | include/DataLinkLayer.h:300-333 | every entry of both tables is the bit-serial code of its index |
| `RmapCrc.CalculateCrcF` | src/Utilities.cpp:128-173 | the table loop computes the bit-serial code of every byte string |
| `RmapCrc.SpaceWireCrc` | src/DataLinkLayer.cpp:303-317 | so does the other copy, for version f; other versions give zero |
| `CommandDeck.GetSysForCode` | src/Commanding.cpp:524-537 | lookup finds the first system with the code, else the null system |
| `CommandDeck.MakeSpwHeader` | src/Commanding.cpp:567-627 | the header has the standard's layout behind the target path, with its code |
| `CommandDeck.MakeSpwPacket` | src/Commanding.cpp:629-662 | so has the packet, data and their code included, behind the bridge's size field |
| `CommandDeck.GetReadCommandAtAddressAndTransactionId` | src/Commanding.cpp:1131-1166 | the direct builder makes the read command with the standard's layout |
| `CommandDeck.PatchedTemplateIsDirect` | src/Commanding.cpp:717-765 | a patched template is the direct builder's packet byte for byte exactly if its instruction is 0x4d and the code version is f, or the code zero |
| `CommandDeck.CommandReadBack` | src/Commanding.cpp:567-662 | from every packet of a configured command the bridge's size, the target path, each field of the header, and the data can be read back at the standard's places |
| `CommandDeck.ReadReadBack` | src/Commanding.cpp:1131-1166 | so can those of the direct builder's packets, the transaction id among them |
| `CommandDeck.CommandCodesAreGood` | src/Commanding.cpp:645-646 | with version f the header with its code, and the data of every write with theirs, have code zero; with any other version both codes are zero bytes |
| `Foxsimile.IdentifySender` | src/Foxsimile.cpp:292-345 | the scan finds the earliest manager's address and accepts it only with protocol id and key in place |
| `Foxsimile.Responder.WriteMemory` | src/Foxsimile.cpp:519-552 | the write loop changes exactly the addressed bytes that exist, and throws exactly if some do not |
| `Foxsimile.Responder.MakeReply` | src/Foxsimile.cpp:367-598 | the responder's answer and memory, branch by branch, on every message |
| `Foxsimile.ThrowsExactly` | src/Foxsimile.cpp:292-312 | a message makes the responder throw exactly if it is too short, does not begin with 0, claims more than it has, or a manager's address is below 10; memory is untouched then |
| `RmapMemory.GetReplyData` | src/TransportLayer.cpp:1368-1436 | the data field of a reply, or nothing when the reply is too short for it |
| `RmapMemory.SpaceWireGetReplyData` | src/DataLinkLayer.cpp:319-378 | the other copy agrees except on replies one byte short |
| `RmapMemory.IdentifiedByKey` | src/Foxsimile.cpp:292-345 | a packet of the deck's is known for its target exactly if its key is 2 |
| `RmapMemory.ParsedAsBuilt` | src/Foxsimile.cpp:399-506 | parsing inverts building, for every path, address and length |
| `RmapMemory.ReplyCarriesData` | src/Foxsimile.cpp:554-591 | taking the data out of a reply inverts putting them in; codes and status are good |
| `RmapMemory.ReplyReadBack` | src/Foxsimile.cpp:554-598 | a reply names what it answers: initiator, responder, instruction as a reply's with the same path length, transaction, length, and the bridge's size field |
| `RmapMemory.ReadEndToEnd` | src/Commanding.cpp:1131-1186 | building, parsing, answering and extracting yields exactly the memory's bytes at any address and length inside the map, in a reply that names the command |
| `RmapMemory.ReadThrowsExactly` | src/Foxsimile.cpp:292-300 | a read command of the deck's is thrown out exactly if its paths and address together are shorter than 9 bytes, or a manager's address is below 10 |
| `RmapMemory.WriteEndToEnd` | src/Foxsimile.cpp:519-552 | a write packet changes exactly the addressed bytes of its target's map, and when it is acknowledged |
| `RmapMemory.LatestWriteWins` | src/Foxsimile.cpp:519-552 | after any writes each byte is what the latest over it put there |
| `RmapMemory.ReadAfterWrites` | src/Foxsimile.cpp:367-591 | a read after any sequence of write packets gets what a plain byte memory would hold |
| `MessageAccumulator.Receiver.AwaitFullBuffer` | src/Foxsimile.cpp:149-280 | what one chunk does to the accumulator, the messages handed over, memory, and whether the emulator goes on |
| `MessageAccumulator.HandedExactly` | src/Foxsimile.cpp:149-240 | a message cut anyhow is handled as if it came whole exactly if no cut leaves two bytes of which the first is not zero |
| `MessageAccumulator.ChunkInvariance` | src/Foxsimile.cpp:149-280 | messages cut into chunks are handled as if each came whole, in order, at its last chunk and not before, through the first that stops the emulator |
| `MessageAccumulator.HandedUntilOneStops` | src/Foxsimile.cpp:265-280 | messages are handed over up to and including the first whose answer does not return; all, exactly if every answer returns |
| `MessageAccumulator.MessagesAnsweredExactly` | src/Foxsimile.cpp:149-280 | with memory maps, every message is handed over and the accumulator ends empty exactly if all are answerable; else it ends at the first that is not, uncleared |
| `MessageAccumulator.LearnedNeverStops` | src/Foxsimile.cpp:265-280 | with learned responses every message is handed over, and exactly those learned for them are sent, in order |
| `Conversation.ConversationIsMemory` | src/Foxsimile.cpp:149-598 | commands to any of the detectors, one after another over one connection, each cut anyhow, are answered in order, once each: every read with what memory holds after the writes before it, every write acknowledged when it should be, and memory ends changed by exactly the writes |
| `RingPointer.AdvanceWritePointer` | src/Foxsimile.cpp:634-682 | advancing writes the next pointer into the map in place, nothing else, and when it throws |
| `RingPointer.PointerStaysInRing` | src/Foxsimile.cpp:634-682 | over every run of advances, polls and other writes the pointer is at place k plus the number of advances, modulo 981 |
| `RingPointer.FrameAddressInRing` | src/TransportLayer.cpp:783-797 | the stepped-back address always names a whole frame inside the ring |
| `RingPointer.PollNamesWholeFrame` | src/TransportLayer.cpp:716-797 | so does what a poll over RMAP anywhere in such a run reports |
| `RingPointer.AdvanceNamesNextFrame` | src/Foxsimile.cpp:668-671 | an advance names the ring's next frame exactly if the pointer was not at place 980, where it names the same again |
| `CmosRing.CmosPointerStaysInRing` | src/Foxsimile.cpp:648-658 | over every such run a cmos pointer is at place k plus the number of advances, modulo 33 |
| `CmosRing.CmosPollReadsReversed` | src/TransportLayer.cpp:760-797 | a poll of it anywhere in such a run reads at the stored address with its bytes reversed, which is that address exactly if outer and inner bytes agree |
| `CmosRing.CmosStartIsMisread` | src/TransportLayer.cpp:760-766 | at the start of the emulator's own ring of frames it is another address |
| `Buffers.PacketFramer.PushToFrame` | src/Buffers.cpp:315-395 | one push, its stripping, truncation and failure, on every framer state |
| `Buffers.PushIsTakeExactly` | src/Buffers.cpp:315-403 | pushing packets takes frame-size bytes of their joined payloads exactly if the first payload fits |
| `Buffers.DownlinkBufferElement.GetPacket` | src/Buffers.cpp:151-180 | a packet is header and payload, or nothing when too large |
| `Buffers.PacketReadBack` | src/Buffers.cpp:151-180 | from every packet that fits, the system, number of packets, number, type, frame counter and payload can be read back, numbers modulo 2^16 with the high byte first |
| `Buffers.FramePacketizer.PopBufferElement` | src/Buffers.cpp:548-579 | popping takes the next piece off the frame under the next number |
| `Buffers.FrameIsCutWhole` | src/Buffers.cpp:548-585 | a frame is cut into exactly packets_per_frame elements numbered from 1, the k-th with the k-th piece, each packet within the maximum |
| `Ground.Logger.Reframe` | util/logudp.py:84-108 | one packet's effect on the ground's queue, with Python's slices and negative indices |
| `Ground.AnyOrderRebuilds` | util/logudp.py:87-108 | a frame's packets in any order with duplicates rebuild it; completion is first reported exactly when the last missing one comes |
| `Ground.LogIsFrames` | util/logudp.py:112-186 | frames sent one after another are logged in order |
| `Transport.AttemptSucceeds` | src/TransportLayer.cpp:396-416 | a reply gets through when fewer attempts before it time out than are made |
| `Transport.TransportLayerMachine.Read` | src/TransportLayer.cpp:396-416 | the retry loop returns the first non-empty attempt and keeps the read error bit |
| `Transport.TransportLayerMachine.ReadFrameLoop` | src/TransportLayer.cpp:809-846 | the frame loop's requests, framer and error bits, and how it ends, for every script |
| `Transport.TransportLayerMachine.QueueFrame` | src/TransportLayer.cpp:850-873 | a complete frame goes to the queue in pieces, then counter, framer and error bits are made ready |
| `Transport.TransportLayerMachine.SyncRemoteBufferTransaction` | src/TransportLayer.cpp:693-877 | the transaction, exit by exit, for every state and script; other types' counters are untouched |
| `Transport.PointerIsAnnounced` | src/TransportLayer.cpp:760-797 | the four bytes of a write pointer lead to the number they denote, low byte first for the cameras and high byte first for all others, and for cdte to one frame before it |
| `Transport.CamerasByName` | src/TransportLayer.cpp:760-766 | in a deck whose names and codes are all different the cameras are cmos1 and cmos2 |
| `Transport.DrainConserves` | src/TransportLayer.cpp:1194-1218 | draining sends the packets before the first uplink element in order, leaves those after it, drops that one |
| `Transport.TransportLayerMachine.SyncUdpSendAllDownlinkBuffer` | src/TransportLayer.cpp:1194-1218 | the drain loop does this |
| `TransportRuns.WholeFrameOrNothing` | src/TransportLayer.cpp:693-877 | a transaction returns a new pointer exactly when it has queued one whole frame under the current counter; else queue and counter are as before |
| `TransportRuns.FaultsTell` | src/TransportLayer.cpp:736-877 | the error bits a poll leaves tell exactly what kept it from queueing a frame; with none set it has queued one, or the pointer is where it was |
| `TransportRuns.OverflowsExactly` | src/TransportLayer.cpp:841-842 | the framer can be made to throw exactly if the first packet's data exceed the frame |
| `TransportRuns.ReadsAreBounded` | src/TransportLayer.cpp:807-846 | the loop ends, having sent no more requests than fill the frame |
| `TransportRuns.EveryRunQueuesWholeFrames` | src/TransportLayer.cpp:693-877 | in every run each channel's elements are whole frames, as many as polls returned a new pointer, under counters 0, 1, 2, ... modulo 2^16 |
| `TransportRuns.ElementInFrames` | src/Buffers.cpp:563-585 | the i-th element of frame f is numbered i of n and carries counter f modulo 2^16 |
| `TransportRuns.CountersOnTheWire` | src/Buffers.cpp:151-180 | in every run the i-th datagram of a channel's frame f says so: number i of n, counter f modulo 2^16 |
| `TransportRuns.NoPollThrows` | src/TransportLayer.cpp:693-877 | no poll of any run throws when the first packet's data fit |
| `WriteRetry.SyncSendSpaceWireCommand` | src/TransportLayer.cpp:946-1028 | the retry loop, and the single send of reads and unconfirmed writes |
| `WriteRetry.WriteIsRetriedWithRestraint` | src/TransportLayer.cpp:958-1013 | one to eight sends, none after acceptance or right after silence; write_again reflects the latest wrong-size reply; what acceptance means |
| `WriteRetry.BadStatusIsResentExactly` | src/TransportLayer.cpp:988-1008 | in every trace a bad status is followed by another send exactly if the latest read before it was not silent |
| `WriteRetry.CommandIsSent` | src/TransportLayer.cpp:946-1028 | every command is sent: reads and writes without reply once, others up to eight times, and nothing but its packet; a write without reply waits for none |
| `WriteRetry.ReadGetsFirstReply` | src/TransportLayer.cpp:1016-1028 | a read gets the first reply within its tries and is reported invalid exactly if that is of another size; with none in time, missing and invalid |
| `WriteRetry.LateReplyIsAwaited` | src/TransportLayer.cpp:958-1011 | a good reply that is late is accepted without a second send exactly if fewer attempts time out before it than eight times the configured tries |
| `EndToEnd.FrameFromReplies` | src/TransportLayer.cpp:807-846 | fed with replies carrying data piecewise, the loop ends with the framer's bytes followed by the data, one request for each piece |
| `EndToEnd.PollQueuesMemory` | src/TransportLayer.cpp:693-877 | a poll answered by the emulator queues what memory holds at the pointer, after what an aborted poll may have left |
| `EndToEnd.PollReadsAnnounced` | src/TransportLayer.cpp:760-846 | a poll whose pointer reply announces an address requests the frame from there and nowhere else, and returns that address or the one it was given |
| `EndToEnd.PollReadsRingFrame` | src/TransportLayer.cpp:716-846 | a poll anywhere in a run of a cdte ring reads the whole frame before the pointer's present place |
| `EndToEnd.PointerAsked` | src/TransportLayer.cpp:716-728 | the first request is an RMAP read of the pointer's field, at its address and of its width |
| `EndToEnd.PieceAsked` | src/TransportLayer.cpp:811-815 | the n-th request of a frame is an RMAP read of an ethernet payload, n SpaceWire payloads after where the pointer leads |
| `EndToEnd.HeldByteByByte` | src/TransportLayer.cpp:811-815 | byte k of a frame is the memory's byte at the stride its read was made with, k after the pointer if stride and length agree |
| `EndToEnd.DetectorToGround` | src/TransportLayer.cpp:693-877 | over any number of polls, those that find the pointer unmoved included, whatever stride and length of reads, the ground's log is the detector's memory at the addresses its pointer's bytes announce, frame after frame |

## Left out

- PoolOnFreeList.NextKeepsInv: the array hands out its blocks in any order, where the source counts an index up.
- Weak memory: the queue's steps are sequentially consistent; fences and relaxed loads are not modelled.
- The form of the queue's classes: except in `EnqueueBulk`, `concurrentqueue.h` is modelled on values, one step function for each atomic operation, because its methods' bodies are interleaved; a step does not capture aliasing of blocks beyond their identifiers.
- EnqueueBulk.ImplicitProducer.EnqueueBulk: stated for a producer that has a block index, while consumers are at rest; among consumers the operation is part of `SubQueue`, where the chain of blocks is followed by block numbers instead of links.
- Element types that cannot throw on construction are enqueued in the order of a bulk enqueue of one element; element types whose assignment throws on the way out are not modelled.
- Thread exit: recycling of producers (the build without thread-exit listeners), explicit producers and tokens, moving and swapping queues, the debug variants.
- Foxsimile.Responder.MakeReply: the second byte of the echoed transaction id is an arbitrary byte, since the source reads it past the slice it took.
- Foxsimile.IdentifySender: requires that every manager has a SpaceWire interface, which the source dereferences unasked.
- Sessions, timers and sockets of the emulator. Where the source's behaviour is undefined (a read past the end of a memory map, say), the emulator's status is `Lost` and nothing more is promised.
- RingPointer.PointerStaysInRing: for cdte systems with 980 frames; `CmosRing` has the cameras' rings.
- RingPointer.AdvanceWritePointer: requires the pointer's field to lie inside the map, which the source does not check.
- Transport.TransportLayerMachine.SyncRemoteBufferTransaction: requires replies at least as long as what is stripped off them, and an ethernet interface beside the SpaceWire one; the source checks neither.
- Memory that changes under a read of the frame itself: `EndToEnd.DetectorToGround` lets it change anywhere else between requests.
- The downlink queue in `Transport` is a sequence; `BlockPool.StepRefinesQueue` is what justifies this for the one thread that fills it.
- Buffers.FramePacketizer.PopBufferElement: the count of remaining packets is an integer, where the source wraps modulo 2^64; only its low 16 bits are used.
- The float quotient of the packetizer's constructor is integer ceiling, which it equals for frame sizes below 2^24.
- Mixing of different frames' packets on the ground, which ignores the frame counter.
- `handle_intercept_cmd`, UART, SPI and ethernet commands, uplink parsing, JSON loading, logging, and `Circle`'s scripts of sleeps and polls.
- Superseded code: `RingBufferInterface`, `Fragmenter`, `pop_from_frame`, `pop_packet`, `check_packet_complete`, the hard-coded command builders.
