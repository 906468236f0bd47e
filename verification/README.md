# Dory in Dafny

Dory is a daemon that takes messages from local clients and delivers them to Kafka. This project models
its hard core and proves what that core promises:

- **Metadata** (`Metadata`, `Packing`, `Regrouping`, `MetadataBuilder`, `MetadataCheck`, `MetadataCompare`): the
  builder packs per-broker partition lists into one shared vector and then permutes the brokers. Every legal
  sequence of builder calls gives metadata that passes the daemon's own sanity check and says exactly what the calls
  said; the sanity check and `operator==` decide exactly sanity and logical equality.
- **Routing** (`KeyRouting`, `RoundRobin`, `Routing`, `BrokerMerge`, `Dispatching`, `BatchLimits`, `Batching`,
  `Accounting`, `Router`): a state machine over the metadata, the batcher and the dispatcher's queues. Over every run
  each message is in exactly one place, keeps its topic's order until its batch is complete, goes only where it may go,
  is discarded only for a reason, and no step dies.
- **Capped memory** (`CappedChains`, `CappedPool`, `CappedBlob`, `CappedWriter`, `CappedReader`, `CappedStore`): linked
  blocks in one storage area behave, over every run, like plain byte strings with a block budget; failed writes leave
  no trace.
- **Stream framing** (`BigEndian`, `Framing`, `StreamBuffer`, `StreamReader`, `WireFormat`, `InputStream`): reading in
  pieces agrees with parsing at once; client encoder and daemon decoder are inverses; storage is bounded.
- **Message states** (`TrackerStats`, `StateTracker`), **rate limits** (`RateLimit`, `RateLimiter`) and **anomaly
  reports** (`RecentItems`, `AnomalyReports`, `AnomalyTracker`): incremental counters against counting from scratch.

`Options`, `Sorting`, `Arithmetic` and `Messages` hold shared definitions. `dafny verify dfyconfig.toml` checks the
whole project.

How things are represented. Metadata never changes once built, so it is a value; the builder, router, pool, writers,
blobs, readers, buffers and trackers are classes. Messages have one owner at a time, so lists of messages are values.
A block pointer is the block's place in the pool's storage. `std::sort` and `std::shuffle` are "some ordered
permutation" and "some permutation". Clock readings, read results and verdicts of the rate limiter inside the router
are inputs. Each operation under a lock is one step. A `Die` call, and a dispatch to a
broker without a queue, is a `faulted` flag that is proved never to be set.

Where code and documentation disagree, the model follows the code:

- `src/dory/metadata.h:201-212` promises the first in-service partition for a key; the code tests whether the broker is
  in service. `KeyRouting.DocumentedRuleIff` says exactly when the two agree.
- `src/capped/writer.h:79-80` says that the cursor is null iff the last block is; a write of no bytes to an empty
  writer sets it. The model anchors the writer on its block list.
- `DoSanityCheck` logs, but does not fail on, in-service brokers that are not grouped first
  (`src/dory/metadata.cc:700-704`); grouping is proved of the builder directly.

## Model

| member | source | states |
|---|---|---|
| MetadataBuilder.Builder.constructor | src/dory/metadata.cc:50-52 | a new builder holds nothing and is ready for its first call |
| MetadataBuilder.Builder.OpenBrokerList | src/dory/metadata.cc:54-57 | the phase moves on and the builder stays sound for the calls made so far |
| MetadataBuilder.Builder.AddBroker | src/dory/metadata.cc:59-71 | a repeated broker id is ignored; otherwise the broker joins the list, out of service |
| MetadataBuilder.Builder.CloseBrokerList | src/dory/metadata.cc:73-76 | the phase moves on and the builder stays sound for the calls made so far |
| MetadataBuilder.Builder.OpenTopic | src/dory/metadata.cc:78-97 | a repeated topic name is refused and changes nothing; otherwise an empty topic is opened |
| MetadataBuilder.Builder.AddPartitionToTopic | src/dory/metadata.cc:99-150 | duplicate partitions and partitions on unknown brokers are ignored; others go to the usable or the out-of-service list |
| MetadataBuilder.Builder.CloseTopic | src/dory/metadata.cc:152-233 | closing a topic packs its usable partitions per broker and keeps the whole structure consistent with the calls made |
| MetadataBuilder.Builder.Build | src/dory/metadata.cc:235-247 | the metadata passes every sanity check, has its in-service brokers first, and says exactly what the calls said; the builder is empty again |
| MetadataBuilder.Builder.Reset | src/dory/metadata.h:244-246 | the builder is as new from any phase |
| MetadataBuilder.BuildFrom | src/dory/metadata.cc:50-316 | every legal sequence of builder calls, with duplicates and unknown brokers, and every sort and shuffle outcome, yields well-formed metadata whose logical content is that of the calls |
| MetadataBuilder.BrokerFromFirstCall | src/dory/metadata.cc:59-77 | a broker is known exactly if some call names it, with the host and port of the first such call |
| MetadataBuilder.PartitionFromFirstCall | src/dory/metadata.cc:99-150 | a partition is listed, as usable or not, exactly as the first call for it on a known broker says |
| MetadataBuilder.Perform | src/dory/metadata.cc:54-233 | each call takes a sound builder to a sound builder, and the abstract draft to the draft after the call |
| MetadataBuilder.ViewDeterminesDraft | src/dory/metadata.cc:59-150 | two call histories have the same logical content exactly when they gave the same brokers and topics, so building loses nothing |
| Packing.Pack | src/dory/metadata.cc:172-214 | after the usable partitions are sorted by broker and id, the topic's chunks of the shared vector are exactly the runs of equal broker, in ascending id order, appended once each |
| Packing.CloseKeepsConsistent | src/dory/metadata.cc:152-233 | appending a packed topic keeps every shared-vector slot in exactly one (topic, broker) chunk and leaves older topics intact |
| Packing.PackedTopic | src/dory/metadata.cc:172-222 | the chunks of a packed topic list its usable partitions per broker; each slot it added is covered by exactly one chunk and no older slot by any |
| Packing.ChunkOfRun | src/dory/metadata.cc:181-214 | the chunk made from a run lists exactly the ids of the topic's usable partitions on that broker, strictly ascending |
| Regrouping.GroupBrokers | src/dory/metadata.cc:249-286 | the brokers are permuted so that the in-service ones are exactly the first inServiceCount, and the index map is the inverse of the permutation |
| Regrouping.InvertOrder | src/dory/metadata.cc:279-286 | the old-to-new index vector inverts the order |
| Regrouping.RemapPartitions | src/dory/metadata.cc:293-303 | every partition of a list gets its broker's new index and changes in nothing else |
| Regrouping.RemapChoices | src/dory/metadata.cc:305-314 | every chunk stays attached to the same broker under its new index |
| Regrouping.RemapTopics | src/dory/metadata.cc:288-315 | all three partition lists and the choice map of every topic are rewritten |
| Regrouping.RemappedInfos | src/dory/metadata.cc:293-303 | rewriting the indexes leaves every partition on the same Kafka broker id |
| Regrouping.RegroupKeepsConsistent | src/dory/metadata.cc:249-316 | regrouping preserves the consistency of the whole structure |
| Regrouping.InServicePrefix | src/dory/metadata.cc:273-277 | if the in-service brokers form a prefix, its length is their number |
| Metadata.FindPartitionChoicesIsFilter | src/dory/metadata.cc:352-411 | on sane metadata the packed index returns the ascending ids of the topic's usable partitions on the broker, and none exactly when there are none |
| Metadata.AscendingIdsUnique | src/dory/metadata.cc:352-411 | an ascending id list is determined by its elements, so the result above is unique |
| MetadataCheck.CheckOkPartitions | src/dory/metadata.cc:413-458 | accepts exactly the usable lists with distinct ids, brokers in range and every entry in the full list, and reports their brokers, ids and per-broker groups |
| MetadataCheck.CheckOutOfServicePartitions | src/dory/metadata.cc:460-498 | accepts exactly the out-of-service lists with distinct ids, brokers in range and every entry in the full list |
| MetadataCheck.CheckBrokerPartitionMap | src/dory/metadata.cc:500-556 | accepts exactly the choice maps whose chunks list the groups of usable partitions, and adds one access per chunk to each slot it covers |
| MetadataCheck.CheckOneTopic | src/dory/metadata.cc:558-608 | accepts exactly the sane topics, and counts for each slot the chunks of the topic that cover it |
| MetadataCheck.CheckNames | src/dory/metadata.cc:610-627 | accepts exactly the name maps whose indexes are in range and cover every topic |
| MetadataCheck.CheckTopics | src/dory/metadata.cc:610-646 | accepts exactly when every topic is sane and every slot is covered exactly once, and reports the leading brokers |
| MetadataCheck.DoSanityCheck | src/dory/metadata.cc:660-707 | the verdict is true if and only if the metadata is sane; a broker vector that is not grouped is logged but does not fail the check |
| MetadataCheck.FoundIn | src/dory/metadata.cc:432-449 | binary search by id finds an entry, unchanged, exactly when it is in the ascending list |
| MetadataCompare.CompareBrokers | src/dory/metadata.cc:709-731 | true exactly when the broker sets are equal |
| MetadataCompare.ComparePartitions | src/dory/metadata.cc:773-787 | true exactly when two partition lists hold the same (partition id, broker id, error code) triples |
| MetadataCompare.SingleTopicCompare | src/dory/metadata.cc:733-806 | true exactly when the two topics have the same usable and out-of-service triples |
| MetadataCompare.CompareTopics | src/dory/metadata.cc:808-820 | true exactly when all topics have the same content |
| MetadataCompare.Equal | src/dory/metadata.cc:318-330 | operator== holds if and only if the logical views are equal, so it is an equivalence that ignores shuffling and insertion order |
| MetadataCompare.SameViewSameSizes | src/dory/metadata.cc:318-330 | logically equal metadata have equal vector sizes, so the size shortcuts reject nothing equal |
| KeyRouting.ChoosePartitionByKey | src/dory/router_thread.cc:483-510 | returns the partition that KeyChoice describes, and dies exactly if no partition is on an in-service broker |
| KeyRouting.KeyChoice | src/dory/router_thread.cc:483-510 | with the key as an unsigned 32-bit number q * n + r: of the partitions whose broker is in service, the one the least distance ahead of position r in cyclic order is chosen |
| KeyRouting.SmallKey | src/dory/router_thread.cc:483-510 | a key below the partition count goes to the partition at that position, if its broker is in service |
| KeyRouting.UsableTopicTakesKeys | src/dory/router_thread.cc:483-510 | on sane metadata a topic with a usable partition has a place for every key |
| KeyRouting.KeysKeepTheirPartition | src/dory/metadata.h:201-212 | with the same partitions on the same Kafka brokers, whatever their error codes, and brokers only leaving service: a key keeps its partition id and Kafka broker if and only if that broker is still in service |
| KeyRouting.EqualMetadataSameChoice | src/dory/router_thread.cc:483-510 | metadata that compare equal send every key to the same partition on the same Kafka broker |
| KeyRouting.DocumentedRuleIff | src/dory/metadata.h:201-212 | the code tests the broker, the comment speaks of the partition: the two rules agree on every key if and only if no out-of-service partition of the topic is on an in-service broker |
| KeyRouting.DocumentedRuleFails | src/dory/metadata.h:201-212 | metadata well-formed as the builder makes it, where key 0 is sent to an unusable partition although a usable one exists |
| BrokerMerge.EmptyInto | src/dory/router_thread.cc:906-932 | the swap-and-shrink merge ends with every batch taken exactly once and no later position before an earlier one |
| BrokerMerge.MergeKeepsListOrder | src/dory/router_thread.cc:906-932 | batches of one broker keep their order |
| BrokerMerge.EarlierPositionFirst | src/dory/router_thread.cc:906-932 | the j-th batch of any broker precedes the k-th batch of any other whenever j < k |
| Dispatching.EmptyDispatcher | src/dory/router_thread.cc:873-933 | all queued batches come out exactly once, fairly merged; a message is reported as a possible duplicate if and only if some queue holds it sent and unacknowledged |
| Dispatching.SentFirst | src/dory/router_thread.cc:873-933 | in the merge each broker is represented by its unacknowledged batches followed by its waiting ones |
| Dispatching.EnqueueAllBag | src/dory/msg_dispatch/kafka_dispatcher.cc:153-177 | dispatching adds exactly the dispatched messages to what the queues hold |
| Dispatching.EnqueueAllAt | src/dory/msg_dispatch/kafka_dispatcher.cc:153-177 | each broker gets exactly the batches dispatched to it, in order, at the end of its queue |
| Batching.AddMsg | src/dory/batch/per_topic_batcher.cc:42-130 | unless the limits that apply to the topic are all off the message is taken; its topic's batch does what Added says, every other batch only expires, and nothing is lost |
| Batching.AddToTopic | src/dory/batch/single_topic_batcher.cc:29-60 | the topic's batch, and no other, takes the message as Added says, and nothing is lost |
| Batching.GetCompleteBatches | src/dory/batch/per_topic_batcher.cc:132-165 | exactly the batches that are due are handed over, whole, in the order of their expiry |
| Batching.MsgHandled | src/dory/batch/per_topic_batcher.cc:42-130 | over any sequence of messages: each topic's batches out, and then its batch kept, are its messages in order; each batch out is complete or would be too large with a message that joins; no batch kept is complete |
| BatchLimits.SingleTopicBatcher.ProcessNewMsg | src/dory/batch/batcher_core.cc:38-78 | the action decided by the counters does to the batch and the message what Added says, and the counters are those of the batch kept |
| BatchLimits.SingleTopicBatcher.AddMsg | src/dory/batch/single_topic_batcher.cc:29-60 | what is returned, left and kept is what Added says |
| BatchLimits.SingleTopicBatcher.TakeBatch | src/dory/batch/single_topic_batcher.h:75-80 | the batch is handed over and the counters start again |
| BatchLimits.SingleTopicBatcher.GetNextCompleteTime | src/dory/batch/batcher_core.cc:30-36 | the expiry of a batch that is not empty and has a time limit |
| BatchLimits.AddedInOrder | src/dory/batch/single_topic_batcher.cc:29-60 | what is ready and then what is kept are the old batch and then the message |
| BatchLimits.KeptIsIncomplete | src/dory/batch/batcher_core.cc:38-78 | no batch is kept that has reached one of its limits |
| BatchLimits.ReadyForReason | src/dory/batch/batcher_core.cc:38-78 | a batch goes only if it has reached a limit or the message would make it too large, and no batch is too large unless it is a single message |
| BatchLimits.BytesCountMessages | src/dory/batch/batcher_core.cc:49-52 | a batch has at least as many bytes as messages, empty ones included, so a byte limit bounds their number |
| BatchLimits.DueIff | src/dory/batch/batcher_core.cc:86-94 | while the sums fit, a batch is due if and only if some message in it has waited for the time limit |
| BatchLimits.EnabledIff | src/dory/batch/batch_config.h:55-57 | batching is on unless all three limits are zero |
| Batching.DeleteTopic | src/dory/batch/per_topic_batcher.cc:194-213 | the topic and its batch are removed, and the batch is returned |
| Routing.GroupByTopic | src/dory/util/topic_map.cc:30-73 | messages come out grouped by topic, each once, each group in the order put in |
| Routing.SplitBatch | src/dory/router_thread.cc:632-645 | separates the PartitionKey messages, keeping both orders |
| Routing.OkBrokerInService | src/dory/router_thread.cc:450-481 | a broker that leads a usable partition has a dispatcher queue |
| Routing.HasOkIff | src/dory/router_thread.cc:306-389 | a topic can take messages if and only if the metadata's content lists it with a usable partition |
| Routing.KeyBrokerInService | src/dory/router_thread.cc:483-510 | the broker of the partition chosen for a key has a dispatcher queue |
| Routing.PartsBag | src/dory/router_thread.cc:616-663 | separating by routing type loses and duplicates nothing |
| Routing.RejectedBag | src/dory/router_thread.cc:391-430 | usable and rejected batches together are all batches |
| Router.Router.ChooseAnyPartitionBrokerIndex | src/dory/router_thread.cc:450-481 | for a topic with usable partitions: bumps its counter and picks the leader of the partition at that position; otherwise dies |
| RoundRobin.InTurnIff | src/dory/router_thread.cc:450-481 | n successive choices for a topic with n usable partitions take different positions if and only if the counter does not wrap on the way, wraps before the first of them, or n divides 2^64 |
| RoundRobin.EachOnce | src/dory/router_thread.cc:450-481 | without a wrap, n successive choices take each of the n positions exactly once |
| RoundRobin.TakesAgain | src/dory/router_thread.cc:450-481 | otherwise two of the choices take the same position |
| Router.Router.ChooseByKey | src/dory/router_thread.cc:483-510 | for a topic with usable partitions: never dies and returns the key's partition |
| Router.Router.DispatchNow | src/dory/msg_dispatch/kafka_dispatcher.cc:153-177 | batches join the broker's queue; a broker index out of range is a fault |
| Router.Router.RouteAnyPartitionNow | src/dory/router_thread.cc:542-568 | batches stay whole, each is dispatched exactly once, to a broker leading a usable partition of its topic; the temporary map ends empty; no fault |
| Router.Router.RoutePartitionKeyNow | src/dory/router_thread.cc:570-614 | every message is dispatched once, to the broker of the partition its key selects, with that partition recorded; messages of one topic and broker keep their order |
| Router.Router.ValidateBeforeReroute | src/dory/router_thread.cc:391-430 | a batch whose topic is unknown or has no usable partition is discarded whole, and no other |
| Router.Router.Reroute | src/dory/router_thread.cc:616-663 | each message is dispatched exactly once or discarded exactly once; AnyPartition batches stay whole; keyed messages go where their key says |
| Router.Router.ValidateNewMsg | src/dory/router_thread.cc:306-389 | a message is kept if and only if its topic has a usable partition, it is not truncated or too long, and the rate limiter admits it; for each discard reason, exactly when it is given |
| Router.Router.AssignBroker | src/dory/router_thread.cc:512-530 | the broker is one the message may go to, and the partition is recorded for keyed messages |
| Router.Router.Route | src/dory/router_thread.cc:532-535 | a single message goes, alone, to a broker it may go to |
| Router.Router.HandleMsgAvailable | src/dory/router_thread.cc:1202-1276 | keeps the router valid and each arrival in exactly one place; exactly the unacceptable messages are discarded, in order; per topic, batches out and batch kept are the messages in order, each batch out for a reason and none kept that is complete; batches are dispatched whole and unbatched messages one by one in order, to allowed brokers |
| Router.Router.HandleBatchExpiry | src/dory/router_thread.cc:1191-1200 | exactly the batches that are due are dispatched, each whole and to an allowed broker, none that is due is left, and nothing is discarded |
| Router.UpdateBatchStateForNewMetadata | src/dory/router_thread.cc:1541-1599 | exactly the batches of topics without a usable partition in the new metadata are dropped, the deleted topics first |
| Router.Router.SetMetadata | src/dory/router_thread.cc:1601-1657 | counters are kept and filled up with zeros, exactly the batches of topics without a usable partition are discarded, and no message is lost |
| Router.Router.RestartDispatcher | src/dory/router_thread.cc:829-833 | the old queues are drained by the fair merge and one empty queue per in-service broker is started |
| Router.Router.SwitchMetadata | src/dory/router_thread.cc:795-838 | after a pause or a refresh every queued message whose topic has a usable partition is dispatched by the new metadata; exactly the others are discarded; the router is valid again |
| Router.Router.RefreshMetadata | src/dory/router_thread.cc:842-871 | with comparison on, equal metadata change nothing at all; otherwise the new metadata take effect and every queued message is dispatched anew, or discarded if and only if its topic has no usable partition in them |
| Router.Router.constructor | src/dory/router_thread.cc:749-783 | the router starts valid with its first metadata |
| Router.Router.DispatcherProgress | src/dory/msg_dispatch/kafka_dispatcher.cc:111-177 | whatever the dispatcher's threads do with their queues, as long as they account for every message, the router stays valid, and exactly what they drop is discarded |
| Router.Router.Handle | src/dory/router_thread.cc:1111-1157 | every event keeps the router valid, adds exactly the arrived messages, and moves messages as the event's step says |
| Router.Router.Run | src/dory/router_thread.cc:1111-1157 | every sequence of arrivals, expiries, pauses, refreshes and dispatcher progress runs step by step; each message received is in exactly one place, every batched topic has a usable partition, no batch has reached its limits, every discarded message had an event that was a reason for it, and no Die call or dispatch to a missing broker happens |
| Router.StepDiscards | src/dory/router_thread.cc:1111-1157 | a step discards only arrivals that are turned away, messages whose topic the new metadata cannot take, and what the dispatcher drops; after new metadata nothing is queued that they cannot take |
| Router.TraceExplained | src/dory/router_thread.cc:1111-1157 | over every run, each discarded message was discarded by an event that was a reason for it under the metadata of that time |
| Accounting.LedgerRerouted | src/dory/router_thread.cc:616-663 | rerouting moves every drained message to a queue or to the discards |
| Accounting.LedgerTakenIn | src/dory/router_thread.cc:1202-1276 | taking in messages accounts for each of them |
| CappedChains.ChainUnique | src/capped/pool.h:52-70 | following the links from a first block gives one list: chains are acyclic and determined by the links |
| CappedChains.ChainAppend | src/capped/writer.cc:81-93 | linking a chain behind another gives one chain |
| CappedChains.HeldBlocks | src/capped/writer.cc:92 | a holder of n bytes has exactly the blocks that n bytes need |
| CappedPool.Pool.constructor | src/capped/pool.cc:34-46 | all blocks are free, each once |
| CappedPool.Pool.Alloc | src/capped/pool.cc:52-66 | the first free block, or none exactly if the pool is exhausted |
| CappedPool.Pool.AllocList | src/capped/pool.cc:68-92 | succeeds if and only if there are enough free blocks, then taking the first ones; a failure leaves every link and the free list exactly as before |
| CappedPool.Pool.PutBack | src/capped/pool.cc:79-85 | freeing a list taken from the front restores the pool |
| CappedPool.Pool.Free | src/capped/pool.cc:94-104 | the block goes to the front of the free list; null does nothing |
| CappedPool.Pool.DoFree | src/capped/pool.cc:120-125 | one link is written and the block is free |
| CappedPool.Pool.FreeList | src/capped/pool.cc:106-118 | the whole list becomes free, and no other link changes |
| CappedPool.Pool.DoFreeList | src/capped/pool.cc:127-135 | the list is moved block by block, in reverse, to the free list |
| CappedBlob.Blob.Swap | src/capped/blob.h:129-135 | the two blobs exchange pool, blocks and contents |
| CappedBlob.Blob.Release | src/capped/blob.h:53-57 | the destructor returns exactly the blob's blocks |
| CappedBlob.Blob.Reset | src/capped/blob.h:121-124 | the blob is empty and its blocks are free |
| CappedBlob.Blob.MoveFrom | src/capped/blob.h:60-63 | the old contents are released, the new ones taken over, and the source is empty, even on self assignment |
| CappedBlob.Blob.ForEachBlock | src/capped/blob.h:104-117 | the pieces seen, put together, are the contents from the start, all of them if and only if no callback stops |
| CappedWriter.Writer.constructor | src/capped/writer.cc:29-33 | a new writer holds nothing |
| CappedWriter.Writer.CancelBlob | src/capped/writer.cc:39-42 | the blocks return to the pool and the writer is empty |
| CappedWriter.Writer.DraftBlob | src/capped/writer.cc:44-53 | the blob takes over blocks and contents and the writer is empty |
| CappedWriter.Writer.Write | src/capped/writer.cc:55-111 | succeeds if and only if the pool has the blocks needed; then the contents grow by the data; otherwise contents, block list, byte count, cursor, links and free list are as before; after a success the cursor is set even if there is no block, so it is null iff the last block is only for nonempty contents |
| CappedWriter.Writer.Extend | src/capped/writer.cc:90-109 | the part that needs new blocks, all or nothing |
| CappedWriter.Writer.Fill | src/capped/writer.cc:95-108 | the new blocks hold the data, all full but the last |
| CappedReader.Reader.constructor | src/capped/reader.h:43-49 | all of the contents lie ahead |
| CappedReader.Reader.More | src/capped/reader.h:58-61 | true exactly if bytes remain |
| CappedReader.Reader.NullAtEnd | src/capped/reader.h:58-61 | the cursor is null if and only if no bytes remain |
| CappedReader.Reader.GetBytesConsumed | src/capped/reader.h:81-85 | what lies ahead is the contents from there |
| CappedReader.Reader.Advance | src/capped/reader.cc:32-90 | yields the next bytes; throws if and only if more is asked for than remains, having consumed what was left |
| CappedReader.Reader.ReadAll | src/capped/reader.h:66-75 | any sequence of reads and skips yields the successive slices |
| CappedStore.OwnersDisjoint | src/capped/pool.cc:34-135 | no block has two owners |
| CappedStore.OwnerChanged | src/capped/pool.cc:68-135 | when one owner exchanges blocks with the free list, every other owner keeps its chain and contents, and all blocks are still accounted for |
| CappedStore.FreeCount | src/capped/pool.cc:68-92 | the pool has exactly the blocks that the contents of all writers and blobs do not need |
| CappedStore.WriteStep | src/capped/writer.cc:55-111 | the block arithmetic of Write agrees with the byte-string model |
| CappedStore.Store.DoWrite | src/capped/writer.cc:55-111 | one writer writes, and all writers and blobs are as the byte-string model says |
| CappedStore.Store.DoCancel | src/capped/writer.cc:39-42 | as the model says |
| CappedStore.Store.DoDraft | src/capped/writer.cc:44-53 | as the model says, through a temporary blob |
| CappedStore.Store.DoMove | src/capped/blob.h:60-63 | as the model says |
| CappedStore.Store.DoSwap | src/capped/blob.h:129-135 | as the model says |
| CappedStore.Store.DoReset | src/capped/blob.h:121-124 | as the model says |
| CappedStore.Store.DoRead | src/capped/reader.cc:32-90 | reading a blob gives the slices of its model contents |
| CappedStore.Store.Run | src/capped/pool.cc:34-135 | over every sequence of operations on any number of writers and blobs, results and contents equal those of plain byte strings with a block budget; the free list and all block lists are acyclic, disjoint and together exactly the pool's blocks |
| StreamBuffer.Buf.MoveDataToFront | src/base/buf.h:183-193 | the items move to the front unchanged |
| StreamBuffer.Buf.DoAddSpace | src/base/buf.h:265-275 | the items are kept and the storage grows only by what moving cannot provide |
| StreamBuffer.Buf.EnsureSpace | src/base/buf.h:213-221 | enough space is there, the items are kept, and the storage is as large as before or exactly items plus space |
| StreamBuffer.Buf.EnsureDataPlusSpace | src/base/buf.h:226-234 | items plus space suffice, the items are kept |
| StreamBuffer.Buf.Deposit | src/base/buf.h:240-245 | the items read are appended |
| StreamBuffer.Buf.MarkDataConsumed | src/base/buf.h:252-262 | the first items are gone, the rest unchanged |
| StreamBuffer.Buf.Clear | src/base/buf.h:107-109 | no items are left |
| Framing.NextStays | src/base/stream_msg_with_size_reader.cc:105-157 | more data does not change a complete message or an error at the front |
| Framing.InvalidStays | src/base/stream_msg_with_size_reader.cc:114-135 | once the data is invalid nothing after it matters |
| Framing.TakenParse | src/base/stream_msg_reader.cc:50-70 | taking messages off one at a time agrees with parsing at once |
| Framing.FramesParse | src/base/stream_msg_with_size_reader.cc:105-157 | a stream of whole frames parses to their messages with nothing left |
| Framing.FrameRoundTrip | src/base/stream_msg_with_size_reader.cc:105-157 | for every kind of size field, a body with its size in front is read back, with or without the field |
| Framing.BadIff | src/base/stream_msg_with_size_reader.cc:114-135 | data are invalid exactly if the size is negative or less than the field it includes, or the body larger than the limit |
| StreamReader.StreamMsgReader.constructor | src/base/stream_msg_reader.cc:202-208 | the initial state |
| StreamReader.StreamMsgReader.GetNextMsg | src/base/stream_msg_with_size_reader.cc:105-157 | reports exactly the message, the need for data, or the error that the size field and the limit call for |
| StreamReader.StreamMsgReader.TryAdvanceToNextMsg | src/base/stream_msg_reader.cc:127-162 | the state becomes the one that the buffered data calls for; the defensive Die is never reached |
| StreamReader.StreamMsgReader.Read | src/base/stream_msg_reader.cc:164-200 | the bytes read join the stream, the storage bound is kept, and a retry changes nothing |
| StreamReader.StreamMsgReader.GetReadyMsg | src/base/stream_msg_reader.cc:72-106 | the message at the front of the data |
| StreamReader.StreamMsgReader.ConsumeReadyMsg | src/base/stream_msg_reader.cc:50-70 | the message is delivered and the reader advances |
| StreamReader.StreamMsgReader.Reset | src/base/stream_msg_reader.cc:113-121 | as new, keeping the storage |
| StreamReader.StreamMsgReader.Run | src/base/stream_msg_reader.cc:35-200 | over any calls on any number of file descriptors the storage never exceeds preferred read size plus size field plus maximum body size minus one |
| StreamReader.StreamMsgReader.Feed | src/base/stream_msg_reader.cc:127-200 | for every way of cutting the stream into reads, with retries anywhere: messages, final state and error are those of one parse of the whole stream; so are the leftover bytes, and for invalid data they are those of a parse of what the reads up to the first invalid one brought |
| BigEndian.SignedOfTo | src/base/field_access.h:38-84 | a signed field is read back as written |
| BigEndian.ToOfSigned | src/base/field_access.h:38-84 | each field value has one encoding |
| BigEndian.UnsignedConcat | src/base/field_access.h:38-84 | a field is worth its front part times 256 to the size of its back part, plus its back part |
| BigEndian.UnsignedByte | src/base/field_access.h:38-84 | a field of one byte is worth that byte |
| BigEndian.ToUnsignedAt | src/base/field_access.h:38-84 | the byte at each place of an encoding, most significant first |
| BigEndian.SignedRange | src/base/field_access.h:38-84 | a signed field has the unsigned value or that less 256 to its size, whichever is in the signed range |
| BigEndian.SignedSizes | src/base/field_access.h:38-84 | the signed ranges of one, two and four bytes |
| WireFormat.CreateAnyPartitionMsg | client/python/send_to_dory.py:88-114 | the bytes of an encodable message, and otherwise the first limit it breaks |
| WireFormat.CreatePartitionKeyMsg | client/python/send_to_dory.py:116-142 | the bytes of an encodable message, and otherwise the first limit it breaks |
| WireFormat.FieldsAt | client/python/send_to_dory.py:88-142 | the place and value of every field of an encoded message |
| WireFormat.DecodeOfEncode | src/dory/input_dg/any_partition/v0/v0_input_dg_reader.cc:33-127 | the daemon reads back what the client wrote, except that an empty topic is malformed |
| WireFormat.EncodeOfDecode | src/dory/input_dg/input_dg_util.cc:44-98 | the daemon accepts nothing but the encoding of a message with a topic |
| WireFormat.AcceptedIff | src/dory/input_dg/partition_key/v0/v0_input_dg_reader.cc:33-137 | a datagram decodes to a message if and only if the message can be encoded, has a topic, and is encoded by it |
| WireFormat.RejectedAs | src/dory/input_dg/input_dg_util.cc:44-98 | a datagram of the size it states is rejected for its API key or its version exactly if that is not supported |
| WireFormat.EncodedIsFrame | src/dory/stream_client_work_fn.h:92 | an encoded message is a frame of the stream if and only if it is within the size limit |
| WireFormat.EncodedStream | src/dory/stream_client_work_fn.h:92 | a stream of encoded messages is cut into exactly those messages |
| InputStream.Receive | src/dory/stream_client_work_fn.h:92 | messages encoded by a client arrive unchanged and in order however the stream is cut up, and the buffer ends empty |
| TrackerStats.ApplyTwice | src/dory/msg_state_tracker.cc:315-354 | two updates of a topic equal one with the sum, unless the first would drop the entry |
| TrackerStats.LegalDelta | src/dory/msg_state_tracker.cc:181-313 | a legal transition changes the counters just as it changes the counts |
| TrackerStats.AgreesIff | src/dory/msg_state_tracker.cc:181-354 | a transition keeps the counters equal to the counts if and only if it is legal or changes no state |
| TrackerStats.BatchingToProcessedMiscounts | src/dory/msg_state_tracker.cc:291-296 | handing a batched message to MsgEnterProcessed leaves the batching counter one too high |
| TrackerStats.ListKeeps | src/dory/msg_state_tracker.cc:53-138 | a list call keeps the counters right and equals the same single calls in sequence, dropped entries included |
| TrackerStats.ListIff | src/dory/msg_state_tracker.cc:53-138 | a list call over any distinct messages keeps the counters right if and only if every transition in it is legal or changes no state, and no message of a topic other than the first one's changes its topic's counts |
| TrackerStats.MixedListMiscounts | src/dory/msg_state_tracker.cc:120-138 | two messages of different topics processed in one list call leave both topics miscounted |
| TrackerStats.PruningKeeps | src/dory/msg_state_tracker.cc:164-179 | pruning keeps the counters right |
| TrackerStats.PruningErases | src/dory/msg_state_tracker.cc:164-179 | pruning marks exactly the topics that are gone and erases exactly those of them that count nothing |
| TrackerStats.UpdatesErase | src/dory/msg_state_tracker.cc:315-354 | an update erases an entry only if it is marked and counts nothing any more, and leaves no such entry |
| StateTracker.Tracker.MsgEnterNew | src/dory/msg_state_tracker.cc:33-37 | one more new message |
| StateTracker.Tracker.UpdateStats | src/dory/msg_state_tracker.cc:315-354 | adds the deltas, making and dropping the entry as needed |
| StateTracker.Tracker.MsgEnter | src/dory/msg_state_tracker.cc:39-51 | sets the state and updates the counters, for each of the target states |
| StateTracker.Tracker.MsgEnterList | src/dory/msg_state_tracker.cc:53-71 | sets all states and updates the counters once, with the summed change, under the topic of the first message |
| StateTracker.Tracker.PruneTopics | src/dory/msg_state_tracker.cc:164-179 | marks topics that are gone and drops those that count nothing |
| StateTracker.Tracker.GetStats | src/dory/msg_state_tracker.cc:147-162 | exactly the topics with a nonzero count, with their counts |
| StateTracker.World.Run | src/dory/msg_state_tracker.cc:33-179 | over every run of single calls and list calls that AgreesIff and ListIff allow, interleaved with pruning, the new count and each topic's three counts equal the number of messages in those states, and no topic that is gone keeps an entry that counts nothing |
| RateLimit.RefusedIff | src/dory/msg_rate_limiter.cc:27-37 | for any timestamps a message is refused if and only if maxCount messages came since its window was opened |
| RateLimit.AtMostBetweenResets | src/dory/msg_rate_limiter.cc:56-71 | between two resets at most maxCount messages are admitted |
| RateLimit.WindowOverIff | src/dory/msg_rate_limiter.cc:63 | the end of a window is judged rightly if and only if its sum does not overflow 64 bits |
| RateLimit.Aligned | src/dory/msg_rate_limiter.cc:63-68 | for nondecreasing timestamps, until a window end overflows 64 bits, windows stay aligned to the first message and are opened by their first message |
| RateLimit.AlignedIff | src/dory/msg_rate_limiter.cc:63-68 | for nondecreasing timestamps every message opens a window exactly when it is the first in its aligned window, if and only if no message is compared with a window end that overflows 64 bits |
| RateLimit.RefusedInOrder | src/dory/msg_rate_limiter.cc:27-71 | for nondecreasing timestamps, as long as no earlier window end overflows 64 bits, a message is refused if and only if its aligned window has seen maxCount messages; after an overflow, if and only if maxCount is zero |
| RateLimit.AtMostTwice | src/dory/msg_rate_limiter.cc:27-71 | for nondecreasing timestamps any span of one interval, reached before a window end overflows 64 bits, admits at most twice maxCount messages |
| RateLimit.AtMostTwiceIff | src/dory/msg_rate_limiter.cc:27-71 | for nondecreasing timestamps and a maxCount above zero, the bound of twice maxCount holds however many messages follow at the time of the last one, if and only if the end of the last window does not overflow 64 bits |
| RateLimit.OverflowAdmitsAll | src/dory/msg_rate_limiter.cc:63-68 | after the first window end that overflows, every message restarts the count at one without moving the window, and is admitted if and only if maxCount is not zero |
| RateLimiter.RateLimitingIsEnabled | src/dory/msg_rate_limiter.cc:39-54 | true exactly if some configuration has a maximum |
| RateLimiter.MsgRateLimiter.GetTopicState | src/dory/msg_rate_limiter.cc:56-87 | a new topic starts a window under its own configuration, or the default if it has none; a known one moves to the current window |
| RateLimiter.MsgRateLimiter.WouldExceedLimit | src/dory/msg_rate_limiter.cc:27-37 | over any interleaving of topics a message is judged by the messages of its own topic alone, under the topic's own configuration or the default if it has none; a topic configured without a maximum is never limited |
| RecentItems.RecentOrder | src/dory/anomaly_tracker.cc:42-44 | the reference list has every item seen, once, in the order last seen |
| RecentItems.RecentElements | src/dory/anomaly_tracker.cc:42-44 | the reference list has no duplicates and exactly the items seen |
| RecentItems.TouchedIsRecent | src/dory/anomaly_tracker.cc:45-68 | keeping only the capped list loses nothing a later capped list needs |
| AnomalyTracker.UpdateLruList | src/dory/anomaly_tracker.cc:45-68 | the item comes first, once, and the list stays within its cap |
| AnomalyTracker.UpdateTopicMap | src/dory/anomaly_tracker.cc:342-363 | count and interval of the topic take in the timestamp |
| AnomalyReports.ListsAreRecent | src/dory/anomaly_tracker.cc:129-252 | each list of a report holds exactly the most recently seen distinct strings, up to 25, and each counter all of them |
| AnomalyReports.PrefixIs | src/dory/anomaly_tracker.cc:280-287 | a text is cut to the maximum length from the front |
| AnomalyReports.LongTextIs | src/dory/anomaly_tracker.cc:227-236 | a long message is told by its topic, a space and its value |
| AnomalyReports.TopicsAreTold | src/dory/anomaly_tracker.cc:342-363 | a topic is in a map if and only if it had such an anomaly, with their number, earliest and latest timestamp |
| AnomalyReports.TalliesCount | src/dory/anomaly_tracker.cc:75-194 | rate limit, API key and version tallies count their events |
| AnomalyTracker.LatestIsMax | src/dory/anomaly_tracker.cc:289-340 | the filling period is the latest one that any clock reading showed, so it never decreases |
| AnomalyTracker.PeriodBounds | src/dory/anomaly_tracker.cc:289-340 | a clock reading lies between the start of its period and that of the next |
| AnomalyTracker.PeriodStep | src/dory/anomaly_tracker.cc:298-305 | the number of periods advanced leads to the latest period, whichever way the clock went |
| AnomalyTracker.AnomalyTracker.constructor | src/dory/anomaly_tracker.h:212-221 | the first report is empty and starts at the current time |
| AnomalyTracker.AnomalyTracker.AdvanceReportPeriod | src/dory/anomaly_tracker.cc:289-340 | for any clock sequence the filling report has the latest period's id and start, the last full report is exactly one id earlier, and both hold exactly the events filed under their period |
| AnomalyTracker.AnomalyTracker.Track | src/dory/anomaly_tracker.cc:75-252 | an event is filed under the period the clock has reached |
| AnomalyTracker.AnomalyTracker.FillIn | src/dory/anomaly_tracker.cc:75-252 | the filling report takes in the event |
| AnomalyTracker.AnomalyTracker.GetInfo | src/dory/anomaly_tracker.cc:254-263 | both reports, after the period has been brought up to date |

## Left out

- Router shutdown and its timing, poll handling, topic autocreation, metadata fetching and retries: driven by sockets, sleeps and clocks. Autocreation can replace the metadata in the middle of `HandleMsgAvailable`, so the router model has it off.
- Router.Router.DispatcherProgress: the connector threads behind the dispatcher are not modelled; a step of theirs may do anything to the queues that accounts for every message and keeps batches single-topic.
- Router.Router.Route: a message routed alone is queued as a batch of one; the connector's own batching of such messages is not modelled.
- Batching.GetCompleteBatches: the expiry tracker, a sorted copy of the batches' expiry times, is not stored; the times are taken from the batches. In the router a batch is its list of messages; that the counters kept instead agree with the list is proved of `BatchLimits.SingleTopicBatcher`.
- BatchLimits.DueIff: where a timestamp and the time limit do not fit into 64 bits the sum wraps, in the test and in the expiry alike; message and byte counts do not wrap.
- Router.Router.ValidateNewMsg: the rate limiter's verdict is an input; the limiter itself is modelled in `RateLimiter`.
- RateLimit.Aligned: where a window end overflows 64 bits the law fails; `AlignedIff` says exactly when, `RefusedInOrder` covers both sides, and `OverflowAdmitsAll` and `AtMostTwiceIff` say what is lost. The message count is unbounded, while the code's counter would wrap after 2^64 messages of one window.
- StateTracker.World.Run: covers only calls that keep the counters right. Some discard paths hand batched messages, or lists of several topics, to `MsgEnterProcessed` (`src/dory/router_thread.cc:1159-1160`, `src/dory/router_thread.cc:1592-1598`); `AgreesIff` and `ListIff` say exactly which calls keep them right.
- StreamReader.StreamMsgReader.Run: the limits are fixed; `SetMaxMsgBodySize` and `SetPreferredReadSize` are not modelled.
- CappedPool.Pool.constructor: the alignment of blocks in the storage array and the mutex are not modelled; block data is a byte sequence per block.
- Hash map iteration order: loops over maps take the keys in any order.
- Discard file logging, counters, log messages, the web interface, configuration and command line: plumbing around what is modelled.
- Kafka wire codecs, input agents, the PHP, Ruby and Node clients and the monitoring scripts.
- `CheckGetInfoRate`, `GetAllBatches`, and the accessors: they would only add easy members.
