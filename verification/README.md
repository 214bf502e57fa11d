# Block layer and crypto cores, verified

A Dafny model of the hard cores of the Linux block layer and of two cipher files, as they stand in the
`z4800-kernel` tree. Each part has a state machine or a set of functions that says what the code does, an
invariant over every run, and, where the source updates objects in place, classes and loops that are proved to do
exactly what the functions say.

- **FLUSH/FUA sequencer** (`FlushModel`, `FlushStructure`, `FlushOrder`, `FlushDurability`, `FlushFlags`, `FlushWalk`,
  `FlushQueue`). A run is any interleaving of submissions, dispatches and completions; the log of a run records every
  flush, data write and bio end. Proved: a request leaves PREFLUSH or POSTFLUSH only by a flush issued after it began to
  wait, even when a new flush is kicked inside the completion loop; steps happen in order and bios end once; one flush
  at a time, no stall, no BUG_ON. `FlushFlags` states durability end to end, from the flags and sectors of a submission
  and the flags of the device to the events in the log, and when a flush is issued. The rule that a request without data carries no FUA (`blk-flush.c:13-17`) is a condition on submissions:
  with it the list walk of the completion loop meets exactly the requests that waited (`MeetsWaiting`), without it three
  requests suffice for one to be moved behind the cursor and met again (`MetAgain`).
- **Segments, merging and completion** (`Bios`, `Segments`, `Merging`, `Completion`, `Requests`). The loops that count and
  map physical segments are proved to be greedy, and greedy is proved to be no worse than any legal grouping, where
  legal is said in addresses: consecutive, within the size limit, and in one window of the segment boundary; the
  running count of a request stands for some legal grouping, so it always covers the mapping. Completing a request in
  pieces is proved equal to completing it at once.
- **The queue as a whole** (`MergeModel`, `MergeRuns`, `MergeQueue`). Runs of insert, bio merge into queued and into
  plugged requests, request merge, closing, dispatch and search under any hash function: no bio is lost or duplicated,
  and the merge hash finds a request exactly when a scan would.
- **Throttling** (`ThrottleRate`, `ThrottleLimits`, `ThrottleQueue`, `Throttle`). Slice starts, extensions and trims
  telescope into one rate bound over the whole run; exactly when a bio passes, in bytes, operations and jiffies, and
  that the wait it is told is neither longer than the excess takes nor too short; the service tree, its cached first node and the counters agree with the queues; dispatch
  ends.
- **Deadline scheduler** (`ListOps`, `DeadlineModel`, `DeadlineStructure`, `DeadlineRuns`, `DeadlineExpiry`, `Deadline`).
  Two views of one set of requests, exactly-once dispatch, drain, and starvation bounds for both directions. Which
  request every dispatch of every run sends, in terms of the lists and the clock; an expired request that is the oldest
  of its direction goes before all but fewer than max(1, fifo_batch) others of it.
- **Scheduler switch** (`SwitchModel`, `Switch`). Every interleaving of allocation, failure, completion, changes of
  nr_requests and the statements of a switch, those without the lock one by one. Private data always belongs to the
  scheduler in use; the queue points to an exited scheduler exactly while a switch that failed to register has not put
  the old one back.
- **CFQ choice** (`CfqChoice`). The two-way choice in positions, that it is a total preorder, and the exact condition under which the choice
  between the neighbours is as good as a search of the whole list.
- **Tags** (`TagModel`, `Tags`). The tag bitmap and index over every run of start, end, resize, invalidate and changes
  of nr_requests, and exactly when a resize goes well.
- **AES** (`AesField`, `AesTables`, `AesSBox`, `AesCipher`, `Aes`, `AesGeneric`, `AesReference`). The table-driven rounds
  and the key expansion against FIPS-197, and decryption against encryption for every key size, key and block.
  `AesReference` writes the cipher of the standard on bytes alone, key expansion included, and is proved equal.
- **CBC** (`CbcModel`, `Cbc`). Block by block, section 6.2 of NIST SP 800-38A for any invertible cipher: four buffer loops, one function.
- **Algorithm names** (`NameGrammar`, `NameParser`). The parser accepts exactly the printed names, nested to any depth.

Conventions. A request, bio, group or scheduler is a number; what the source keeps in its structures is a record or
the fields of a class. Time is a parameter of each operation and never goes back. A region under the queue lock is one
step, and so is each statement of `elevator_switch` outside it. Integers are unbounded except for the 32-bit words of AES and the 32-bit value of a number in a name. Red-black
trees are sequences in tree order.

Where the source and its comments differ: a name parses even if more text follows the closing parenthesis; the bound on
writes that go before a waiting read is max(1, fifo_batch), half of what two batches would allow; the old scheduler is
put back without the lock and only after the new one was exited, so that a queue with the lock held can consult an
exited scheduler (`NeverExitedIff`, `ExitedSchedulerReached`); growing a tag map copies the old map into one that is
smaller when nr_requests was lowered enough in between (`ResizeIff`, `GrowthFails`), so a run of tag operations resizes
only where the copy fits; a neighbour is not always the best request for CFQ (`FindNextBestExactly`).

## Model

| member | source | states |
|---|---|---|
| FlushStructure.KickBase | z4800-kernel/block/blk-flush.c:244-273 | kicking keeps lists, dispatch queue, flight and request states consistent, and leaves no stall |
| FlushStructure.AdvanceBase | z4800-kernel/block/blk-flush.c:194-221 | one turn of the completion loop takes the first request off the list being walked and puts nothing back on it, whether or not it kicks a flush |
| FlushStructure.FlushEndInv | z4800-kernel/block/blk-flush.c:194-229 | a completed flush keeps the invariant, with every covered request moved on |
| FlushStructure.DataEndInv | z4800-kernel/block/blk-flush.c:275-285 | a completed data write keeps the invariant |
| FlushStructure.InsertInv | z4800-kernel/block/blk-flush.c:298-348 | submitting a request keeps the invariant, for every policy the rule allows |
| FlushStructure.DispatchInv | z4800-kernel/block/blk.h:57-89 | taking an entry from the dispatch queue keeps the invariant |
| FlushStructure.RunInv | z4800-kernel/block/blk-flush.c:94-348 | the invariant holds after every legal run |
| FlushStructure.SingleFlushNoStallNoBug | z4800-kernel/block/blk-flush.c:144-284 | in every run the indices differ exactly when one flush is in flight, no BUG_ON is reached, and when nothing is in flight nothing is pending |
| FlushOrder.StepsInOrderEndedOnce | z4800-kernel/block/blk-flush.c:94-192 | in every run a request goes through exactly the steps of its policy, in order and each once, an error cuts straight to the end, and its bio is ended exactly once (`FlushFlags.StepsFromFlags` says the same from the flags) |
| FlushOrder.CompleteOrdered | z4800-kernel/block/blk-flush.c:144-192 | completing a step extends the request's history by exactly the next step of its policy |
| FlushDurability.AdvanceJustified | z4800-kernel/block/blk-flush.c:194-221 | the flush that advances a waiting request was issued after the request began to wait and has completed |
| FlushDurability.KickSound | z4800-kernel/block/blk-flush.c:244-273 | the requests a kicked flush will cover all began to wait before it is issued |
| FlushDurability.RunSound | z4800-kernel/block/blk-flush.c:94-348 | every run keeps each request covered by the flush it waits for |
| FlushDurability.Durability | z4800-kernel/block/blk-flush.c:144-273 | in every run each PREFLUSH and POSTFLUSH is satisfied only by a flush issued after it began, so a POSTFLUSH only by one issued after its data was written |
| FlushFlags.SubmittedAs | z4800-kernel/block/blk-flush.c:94-107 | over every run: a submission is logged once, with a PREFLUSH exactly for REQ_FLUSH on a device that flushes, DATA exactly for sectors, a POSTFLUSH exactly for REQ_FUA on a device that flushes but has no FUA |
| FlushFlags.DurableFromFlags | z4800-kernel/block/blk-flush.c:94-348 | over every run and every submission in it, by its flags: with REQ_FLUSH its data is issued, or without data it ends well, only after a flush issued after the submission completed; with REQ_FUA it ends well only after a flush issued after its data was written; with sectors only after its data was written |
| FlushFlags.StepsFromFlags | z4800-kernel/block/blk-flush.c:94-192 | over every run: the events of a request after its submission are those its flags and sectors ask for, in order and each once, as far as it has come; or as far as a failure, and then its end |
| FlushFlags.KickExactly | z4800-kernel/block/blk-flush.c:244-273 | a flush is issued exactly when none is in flight, a request waits, and no data is in flight or the first has waited for 5 * HZ; it goes to the end of the dispatch queue, and later waiters to the other list |
| FlushFlags.WaitsLast | z4800-kernel/block/blk-flush.c:160-167 | who comes to wait is last on the pending list, and the first sets the clock |
| FlushFlags.DispatchOrder | z4800-kernel/block/blk-flush.c:169-173 | data of a sequenced request goes to the front of the dispatch queue, a plain write to its end, and the driver takes from the front |
| FlushFlags.RunsQueue | z4800-kernel/block/blk-flush.c:226-285 | the completion of a flush runs the queue exactly when the dispatch queue grew or the queue was held for the flush, that of data exactly when it grew; it is held exactly while a flush is issued |
| FlushFlags.BugIfTwice | z4800-kernel/block/blk-flush.c:151-152 | completing a step that the request has completed is a bug, so by `SingleFlushNoStallNoBug` no run does it |
| FlushFlags.BugIfEnded | z4800-kernel/block/blk-flush.c:175-188 | so is ending a request that is in the dispatch queue, and a step after the last |
| FlushFlags.BugsInFlush | z4800-kernel/block/blk-flush.c:194-213 | so is a flush that completes without being in flight, and one that covers a request which does not wait for a flush |
| FlushWalk.MeetsWaiting | z4800-kernel/block/blk-flush.c:207-213 | the walk that saves the next entry before it moves a request meets exactly the requests that waited when it began, in order and each once |
| FlushWalk.WalkDurability | z4800-kernel/block/blk-flush.c:13-17 | every run of that walk in which no request without data carries FUA is durable |
| FlushWalk.MetAgain | z4800-kernel/block/blk-flush.c:194-213 | without the rule: a run of three requests with FLUSH and FUA and no data in which one is met twice by a walk, and its POSTFLUSH taken as done with no flush issued since it began to wait |
| FlushQueue.RequestQueue.KickFlush | z4800-kernel/block/blk-flush.c:244-273 | the whole queue after a kick is the one the state machine gives, and the result says whether a flush was issued |
| FlushQueue.RequestQueue.WaitForFlush | z4800-kernel/block/blk-flush.c:160-167 | queueing for a flush, with the time stamp of an empty queue |
| FlushQueue.RequestQueue.QueueData | z4800-kernel/block/blk-flush.c:169-173 | the data write goes to the front of the dispatch queue and onto the list of data in flight |
| FlushQueue.RequestQueue.EndRequest | z4800-kernel/block/blk-flush.c:175-187 | the request is restored and ended |
| FlushQueue.RequestQueue.NextStep | z4800-kernel/block/blk-flush.c:144-188 | the switch on the next step |
| FlushQueue.RequestQueue.CompleteSeq | z4800-kernel/block/blk-flush.c:144-192 | the whole queue after a step is that of the state machine; the invariant holds again |
| FlushQueue.RequestQueue.FlushEndIo | z4800-kernel/block/blk-flush.c:194-229 | the walk with a saved next entry advances exactly the requests that were waiting, in order, although the list changes under it |
| FlushQueue.RequestQueue.PushWaiting | z4800-kernel/block/blk-flush.c:207-213 | the loop leaves the queue that advancing each waiting request in turn gives, and reports whether the dispatch queue grew |
| FlushQueue.RequestQueue.DataEndIo | z4800-kernel/block/blk-flush.c:275-285 | the whole queue after a data completion |
| FlushQueue.RequestQueue.InsertFlush | z4800-kernel/block/blk-flush.c:298-348 | the whole queue after a submission, for all five cases of policy; what the policy is for each flag is `FlushFlags.SubmittedAs` |
| Segments.GreedyGrouping | z4800-kernel/block/blk-merge.c:12-69 | what the loops form is a legal grouping of the vectors |
| Segments.GreedyBest | z4800-kernel/block/blk-merge.c:117-170 | no legal grouping has fewer segments, whether or not high pages are kept apart |
| Segments.SegmentIff | z4800-kernel/block/blk-merge.c:12-69 | the neighbour-by-neighbour test of the loops accepts exactly the groups that hardware takes as one segment: a single vector, or vectors that follow each other in memory, are small enough together and lie in one window of the segment boundary |
| Segments.CutIff | z4800-kernel/block/blk-merge.c:117-170 | so a legal grouping is exactly a cut of the vectors into such segments |
| Segments.GreedyIsBestCut | z4800-kernel/block/blk-merge.c:12-170 | what the loops form is such a cut, no segment could have taken the vector after it, and no such cut has fewer segments |
| Segments.EntriesInWindow | z4800-kernel/include/linux/bio.h:126-131 | first and last byte of every entry that is more than one vector are in one window |
| Segments.EntriesBytes | z4800-kernel/block/blk-merge.c:117-170 | a legal grouping names the same bytes of memory in the same order |
| Segments.MapSg | z4800-kernel/block/blk-merge.c:117-170 | the list built names exactly the bytes of the vectors, in order, with the fewest entries of any legal grouping; for vectors of positive length each entry is the address and the length of one segment of a best cut, said in addresses |
| Segments.RecalcSegments | z4800-kernel/block/blk-merge.c:12-69 | the count is the number of segments of a best cut, said in addresses, that keeps high pages apart; the sizes of the first and last segment are recorded in the first and last bio, where larger than before |
| Merging.ChainIsRun | z4800-kernel/block/blk-merge.c:367-447 | a chain of adjoining bios asks for one gap-free run of sectors that starts at the first bio's |
| Merging.BytesAt | z4800-kernel/include/linux/bio.h:94-95 | byte k of vector i is at page * 4096 + offset + k, after the bytes of the vectors before it |
| Merging.AskedAt | z4800-kernel/block/blk-core.c:1203-1216 | byte j of a bio belongs at sector * 512 + j on disk |
| Merging.TrackedCoversMapping | z4800-kernel/block/blk-merge.c:202-315 | a tracked count is never less than what the mapping uses |
| Merging.RecountTracked | z4800-kernel/block/blk-merge.c:71-84 | a fresh count is tracked |
| Merging.TrackedConcat | z4800-kernel/block/blk-merge.c:202-226 | tracked counts add up when chains are joined |
| Merging.ResizingKeepsTracking | z4800-kernel/block/blk-merge.c:277-315 | the larger cached sizes written at the ends keep the count tracked |
| Merging.TrackedJoin | z4800-kernel/block/blk-merge.c:277-315 | one segment less is still tracked when the two ends are physically contiguous and the cached sizes allow it |
| Merging.ContigIs | z4800-kernel/block/blk-merge.c:86-112 | two requests meet in one segment exactly when the queue clusters, back and front size fit together, and the last vector of the one and the first of the other follow each other in memory and lie in one window |
| Completion.DropBytes | z4800-kernel/block/blk-core.c:2016-2164 | completing n bytes removes exactly the first n bytes, whatever the bio and vector boundaries |
| Completion.DropChained | z4800-kernel/block/blk-core.c:2016-2164 | what is left is a chain that starts as many sectors further on |
| Completion.DropAsked | z4800-kernel/block/blk-core.c:2016-2164 | what is left to move is what was to be moved, without its first n bytes |
| Completion.DropTwice | z4800-kernel/block/blk-core.c:2016-2164 | two completions leave what one of their sum leaves, and end the same bios in the same order |
| Completion.EndedExactly | z4800-kernel/block/blk-core.c:2016-2164 | exactly the bios whose last byte is among the first n are ended, in order |
| Completion.PiecesDoNotMatter | z4800-kernel/block/blk-core.c:2016-2164 | any series of whole-sector completions leaves the same state and ends the same bios in order as one completion |
| Requests.Request.constructor | z4800-kernel/block/blk-core.c:1203-1216 | a request made from a counted bio is valid |
| Requests.RecountSegments | z4800-kernel/block/blk-merge.c:76-84 | the bio's cached count is that of its vectors, and nothing else of it changes |
| Requests.Request.TryMerge | z4800-kernel/block/elevator.c:116-131 | a back merge exactly when the bio starts where the request ends, a front merge exactly when it ends where the request starts |
| Requests.Request.NewHwSegment | z4800-kernel/block/blk-merge.c:202-226 | the segment limit refuses the bio and closes the request, or the count grows by the bio's |
| Requests.Request.AttemptBackMerge | z4800-kernel/block/blk-core.c:1110-1131 | the request then moves its bytes followed by the bio's, its fields match its chain, and its count stays tracked; otherwise nothing but flags changes |
| Requests.Request.AttemptFrontMerge | z4800-kernel/block/blk-core.c:1133-1162 | the same at the front, with the sector moved |
| Requests.AttemptMerge | z4800-kernel/block/blk-merge.c:367-447 | the request takes over all bios of the next one, in order; fields match, and the count stays tracked |
| Requests.TotalIs | z4800-kernel/block/blk-merge.c:277-315 | the joined count is the sum, less one exactly where the two meet in one segment |
| Requests.MapRequest | z4800-kernel/block/blk-merge.c:117-170 | a valid request's list moves exactly the asked bytes and fits the tracked count |
| Requests.ConsumeBios | z4800-kernel/block/blk-core.c:2063-2136 | the loop ends exactly the bios that are done and stops at the right byte of the right vector |
| Requests.AllDone | z4800-kernel/block/blk-core.c:2115-2126 | the request is finished exactly when all its bytes were completed |
| Requests.NeverBotched | z4800-kernel/block/blk-core.c:2151-2158 | what is left is never less than the current vector |
| Requests.UpdateRequest | z4800-kernel/block/blk-core.c:2016-2164 | chain, length, sector and ended bios are those of the specification; the repair of a botched request is not taken; what is left is counted afresh, as by `RecalcSegments` |
| MergeModel.UnhashStale | z4800-kernel/block/elevator.c:305-314 | a request taken off its chain is on none, and the others stay where they are |
| MergeModel.HashStale | z4800-kernel/block/elevator.c:316-322 | a request added to the chain of its end sector leaves the whole hash in order |
| MergeModel.SweepFinds | z4800-kernel/block/elevator.c:330-350 | the walk returns a mergeable request with the key, or there is none on the chain; it drops only requests that can no longer be merged |
| MergeRuns.GrownChain | z4800-kernel/block/blk-core.c:1110-1162 | a bio at either end keeps the chain gap-free, and a front merge keeps the hash key |
| MergeRuns.JoinInv | z4800-kernel/block/blk-merge.c:367-447 | joining two requests keeps every invariant, with all bios of the second owned by the first |
| MergeRuns.PlugInv | z4800-kernel/block/blk-core.c:1168-1201 | a bio merged at either end of a plugged request, which is not on the hash, keeps the invariant |
| MergeRuns.StepInv | z4800-kernel/block/elevator.c:305-578 | every operation of the queue keeps the invariant |
| MergeRuns.InsertIs | z4800-kernel/block/elevator.c:698-708 | what a new request holds; inserted it is with the scheduler, and in the one-hit cache exactly if that was empty and it may be merged |
| MergeRuns.BackIs | z4800-kernel/block/blk-core.c:1110-1131 | the bio is last, the length grows by its bytes, and a request of the scheduler goes into the one-hit cache |
| MergeRuns.FrontIs | z4800-kernel/block/blk-core.c:1133-1162 | the bio is first, and the request starts where it does |
| MergeRuns.JoinIs | z4800-kernel/block/blk-merge.c:367-447 | the bios of the second follow those of the first, which is in the one-hit cache; the second is empty, gone and off the hash, and no other request changes |
| MergeRuns.CloseIs | z4800-kernel/block/blk-merge.c:202-226 | a closed request takes nothing more and leaves the one-hit cache |
| MergeRuns.SendIs | z4800-kernel/block/elevator.c:455-467 | a sent request is off the hash and out of the one-hit cache, and nothing else changes |
| MergeRuns.FindIs | z4800-kernel/block/elevator.c:330-350 | a search changes nothing but hash nodes |
| MergeRuns.FindExact | z4800-kernel/block/elevator.c:330-350 | the search succeeds exactly when some mergeable request with the scheduler ends at the sector |
| MergeRuns.BackThenJoin | z4800-kernel/block/blk-core.c:1250-1255 | a back merge followed by a join needs only the join's repositioning: the queue is the same as after two |
| MergeRuns.MergingLosesNothing | z4800-kernel/block/elevator.c:548-578 | over every run, plugged and queued merges included, and any hash: each request is one gap-free run of its bios' bytes, each bio is in exactly one request, once and unchanged, and the search is exact for every sector |
| MergeQueue.Elevator.constructor | z4800-kernel/block/elevator.c:279-290 | a new queue is empty and valid |
| MergeQueue.Elevator.RqhashDel | z4800-kernel/block/elevator.c:305-314 | the request is off its chain, and nothing else changes |
| MergeQueue.Elevator.RqhashAdd | z4800-kernel/block/elevator.c:316-322 | the request is first on the chain of its end sector |
| MergeQueue.Elevator.RqhashReposition | z4800-kernel/block/elevator.c:324-328 | a request whose end moved is on the chain of its new end |
| MergeQueue.Elevator.RqhashFind | z4800-kernel/block/elevator.c:330-350 | the walk finds a request exactly when a scan would, and leaves what it finds unchanged |
| MergeQueue.Elevator.InitRequest | z4800-kernel/block/blk-core.c:1203-1216 | a new request for one bio |
| MergeQueue.Elevator.AddRequest | z4800-kernel/block/elevator.c:698-708 | a mergeable request goes onto the hash, and into the one-hit cache if that is empty |
| MergeQueue.Elevator.MergedRequest | z4800-kernel/block/elevator.c:548-559 | only a back merge repositions |
| MergeQueue.Elevator.MergeRequests | z4800-kernel/block/elevator.c:561-578 | the survivor is repositioned, the absorbed request leaves the hash |
| MergeQueue.Elevator.JoinRequests | z4800-kernel/block/blk-merge.c:469-473 | a request merge is one step of the state machine |
| MergeQueue.Elevator.BackMerge | z4800-kernel/block/blk-core.c:1248-1255 | with or without a following join, the queue is that of the merges one after the other |
| MergeQueue.Elevator.FrontMerge | z4800-kernel/block/blk-core.c:1256-1261 | the same for a front merge |
| MergeQueue.Elevator.CloseRequest | z4800-kernel/block/blk-merge.c:202-226 | a request closed to merging stays where it is, and leaves the one-hit cache |
| MergeQueue.Elevator.DispatchAddTail | z4800-kernel/block/elevator.c:455-467 | a dispatched request is off the hash and out of the cache |
| MergeQueue.Elevator.TryMerge | z4800-kernel/block/elevator.c:116-131 | what kind of merge the request allows, and none exactly when neither end fits or the two are not compatible |
| MergeQueue.Elevator.Merge | z4800-kernel/block/elevator.c:470-512 | what is returned can be merged as it says; a request that ends at the bio, or the one the scheduler's own search found behind it, is missed only if it, or another that ends there, is closed or not compatible |
| MergeQueue.PlugMergedOk | z4800-kernel/block/blk-core.c:1168-1201 | the search of the plug list, from the last to the first, ends with the bio in one of its requests, or with every request that would take it having refused it |
| MergeQueue.Elevator.PlugBackMerge | z4800-kernel/block/blk-core.c:1189-1192 | the bio is last of the plugged request, and the hash is left alone |
| MergeQueue.Elevator.PlugFrontMerge | z4800-kernel/block/blk-core.c:1193-1197 | the bio is first of it |
| MergeQueue.Elevator.AttemptPlugMerge | z4800-kernel/block/blk-core.c:1168-1201 | the loop computes that search, closing the requests that refuse the bio |
| ThrottleRate.TryKeeps | z4800-kernel/block/blk-throttle.c:695-756 | every attempt keeps bytes and operations within the rate up to the slice and within the slice |
| ThrottleRate.TrimKeeps | z4800-kernel/block/blk-throttle.c:535-591 | a trim moves as much out of the slice as the time it removes allows |
| ThrottleRate.ChargeKeeps | z4800-kernel/block/blk-throttle.c:593-683 | a dispatch that both limits allow stays within the rate |
| ThrottleRate.RunInRate | z4800-kernel/block/blk-throttle.c:496-756 | the account stays within the rate over every run |
| ThrottleRate.RateBound | z4800-kernel/block/blk-throttle.c:496-756 | bytes * HZ <= bps * (t - t0 + slice), and the same for operations, over every run of starts, extensions and trims |
| ThrottleLimits.PassesIff | z4800-kernel/block/blk-throttle.c:593-683 | a bio passes exactly when (bytes + size) * HZ <= bps * t and (ios + 1) * HZ <= iops * t, with t the time since the slice began in whole slices of HZ / 10, and the count of operations is below 0xffffffff |
| ThrottleLimits.BpsWaitIs | z4800-kernel/block/blk-throttle.c:643-683 | the wait of a bio over the byte rate: to the end of the slices counted so far, and then as long as the excess takes, rounded down, but at least one jiffy |
| ThrottleLimits.IopsWaitIs | z4800-kernel/block/blk-throttle.c:593-641 | the wait of one over the operation rate: until one more operation is within the rate, at least one jiffy |
| ThrottleLimits.BpsWaitEnough | z4800-kernel/block/blk-throttle.c:643-683 | after the wait the bio is within the byte rate, while nothing else was charged |
| ThrottleLimits.IopsWaitEnough | z4800-kernel/block/blk-throttle.c:593-641 | after the wait it is within the operation rate, exactly unless the count is at its end |
| ThrottleLimits.LookKeeps | z4800-kernel/block/blk-throttle.c:695-744 | a look at a bio charges nothing and leaves a slice that lasts for one slice and for the wait, less than one slice longer unless it did before, and as long as before if that was enough |
| ThrottleLimits.TrimMoves | z4800-kernel/block/blk-throttle.c:535-591 | a trim moves the start over all whole slices gone by and takes off what the rates allow in that time, unless they allow nothing |
| ThrottleLimits.DispatchCharges | z4800-kernel/block/blk-throttle.c:746-756 | a dispatch charges the bio's bytes and one operation |
| ThrottleLimits.TrimIsFair | z4800-kernel/block/blk-throttle.c:535-591 | what is within the rate by the trimmed slice was within it by the old one, and what was, with one unit to spare, still is |
| ThrottleLimits.CoversLess | z4800-kernel/block/blk-throttle.c:535-591 | the time since the start, in whole slices, falls by the slices a trim moved over |
| ThrottleQueue.SendOk | z4800-kernel/block/blk-throttle.c:791-809 | dispatching the first bio keeps queue, counters and account of a direction consistent, first in first out |
| ThrottleQueue.PassOk | z4800-kernel/block/blk-throttle.c:1187-1205 | a bio that passes directly is accounted like a dispatched one |
| ThrottleQueue.RefusedAgain | z4800-kernel/block/blk-throttle.c:695-744 | a bio that must wait is still refused when looked at again at the same time |
| ThrottleQueue.SentWithinRate | z4800-kernel/block/blk-throttle.c:496-756 | what a direction has sent is within its rate |
| ThrottleQueue.InsertInOrder | z4800-kernel/block/blk-throttle.c:422-447 | insertion keeps the tree in order of dispatch time |
| Throttle.ProbeSide | z4800-kernel/block/blk-throttle.c:695-744 | the slice and the wait are those of the specification, which `ThrottleLimits.PassesIff`, `BpsWaitIs` and `IopsWaitIs` state in bytes and jiffies |
| Throttle.ThrotlData.RbFirst | z4800-kernel/block/blk-throttle.c:381-394 | the cached node is the group with the earliest dispatch time, or none |
| Throttle.ThrotlData.DequeueTg | z4800-kernel/block/blk-throttle.c:402-408 | the group leaves the tree, the cache and the count follow |
| Throttle.ThrotlData.EnqueueTg | z4800-kernel/block/blk-throttle.c:422-462 | the group enters at its place, and the cache follows if it is first |
| Throttle.ThrotlData.MayDispatch | z4800-kernel/block/blk-throttle.c:695-744 | zero exactly when both limits allow the bio (`ThrottleLimits.PassesIff` says when they do) |
| Throttle.ThrotlData.DispatchOneBio | z4800-kernel/block/blk-throttle.c:791-809 | the first bio of the direction is sent, and all counters agree |
| Throttle.ThrotlData.DispatchSide | z4800-kernel/block/blk-throttle.c:811-842 | bios are sent in order while they may be, up to the given number; fewer only if none is left or a limit refuses the next |
| Throttle.ThrotlData.DispatchTg | z4800-kernel/block/blk-throttle.c:811-842 | at most six reads and two writes, and fewer only because none is left or a limit refuses the next |
| Throttle.ThrotlData.UpdateDisptime | z4800-kernel/block/blk-throttle.c:771-789 | the group moves to the time at which the first of its first bios may go |
| Throttle.ThrotlData.ServeGroup | z4800-kernel/block/blk-throttle.c:859-866 | a served group is off the tree or due later than now |
| Throttle.ThrotlData.SelectDispatch | z4800-kernel/block/blk-throttle.c:844-873 | the loop ends, after fewer than 32 + 8 bios, with everything consistent; with fewer than 32 only if no group on the tree is due |
| Throttle.ThrotlData.constructor | z4800-kernel/block/blk-throttle.c:1227-1259 | one group, the root, with its limits and nothing queued, and an empty tree |
| Throttle.ThrotlData.AddGroup | z4800-kernel/block/blk-throttle.c:248-284 | a new group with its limits and nothing queued |
| Throttle.ThrotlData.AddBio | z4800-kernel/block/blk-throttle.c:758-769 | the bio is last of its direction, and the group is on the tree |
| Throttle.ThrotlData.ThrotlBio | z4800-kernel/block/blk-throttle.c:1126-1225 | queued exactly when another is queued before it or a limit refuses it (`ThrottleLimits.PassesIff`) |
| Throttle.QueuedMeansTree | z4800-kernel/block/blk-throttle.c:476-494 | while bios are queued there is a group on the tree |
| Throttle.GroupsWithinRate | z4800-kernel/block/blk-throttle.c:496-756 | every group and direction is within its rate after any series of operations |
| DeadlineStructure.SideAdded | z4800-kernel/block/deadline-iosched.c:99-111 | adding keeps both views the same set, in position and in expiry order |
| DeadlineStructure.SideRemoved | z4800-kernel/block/deadline-iosched.c:85-122 | removal keeps them, and next_rq moves on to a queued request or none |
| DeadlineStructure.SideFront | z4800-kernel/block/deadline-iosched.c:154-166 | a front merge puts the request where its new position belongs |
| DeadlineStructure.SideMerged | z4800-kernel/block/deadline-iosched.c:169-187 | absorbing a request keeps the fifo in expiry order, the survivor with the earlier time |
| DeadlineRuns.RunInv | z4800-kernel/block/deadline-iosched.c:243-325 | a dispatch keeps the invariant |
| DeadlineRuns.TwoViewsOneSet | z4800-kernel/block/deadline-iosched.c:76-325 | over every run: same requests in both views and both in order, next_rq null or queued in at most one direction, nr_sorted exact, every request queued, dispatched or absorbed, once |
| DeadlineRuns.WritesDoNotStarve | z4800-kernel/block/deadline-iosched.c:243-325 | while writes are pending fewer than (writes_starved + 1) * max(1, fifo_batch) reads go first |
| DeadlineRuns.ReadsDoNotStarve | z4800-kernel/block/deadline-iosched.c:243-325 | with writes_starved at least one, at most max(1, fifo_batch) writes go before a pending read |
| DeadlineRuns.ReadsStarveAtZero | z4800-kernel/block/deadline-iosched.c:268-275 | with writes_starved zero there is, for every n, a run in which n writes go before a pending read |
| DeadlineRuns.FirstIsOldest | z4800-kernel/block/deadline-iosched.c:205-313 | the first request after a change of direction has the earliest expiry of its direction |
| DeadlineExpiry.DispatchChoice | z4800-kernel/block/deadline-iosched.c:243-325 | over every run, every dispatch: none exactly when nothing is queued; a batch goes on with the request that follows in position order while it is below fifo_batch; a new batch starts with the oldest request exactly if that has expired or nothing follows, in the direction that starvation demands; the request is off both lists and its successor is next |
| DeadlineExpiry.OverdueIsServed | z4800-kernel/block/deadline-iosched.c:226-313 | from every reachable state and over every run: once the oldest request of a direction has expired, fewer than max(1, fifo_batch) others of that direction are sent before it |
| DeadlineExpiry.LatterFollows | z4800-kernel/block/deadline-iosched.c:64-74 | the successor of a request is the first of those at or behind its position |
| DeadlineExpiry.AddSets | z4800-kernel/block/deadline-iosched.c:99-111 | a new request expires after read_expire or write_expire, by its direction, is last of the fifo and in position order |
| DeadlineExpiry.MergeSets | z4800-kernel/block/deadline-iosched.c:169-187 | the survivor grows by the absorbed sectors and has the earlier expiry; if the absorbed one was to be next, its successor is |
| DeadlineExpiry.GrowSets | z4800-kernel/block/deadline-iosched.c:154-166 | a request that grows keeps expiry and fifo place; at the front it is repositioned |
| Deadline.DeadlineData.constructor | z4800-kernel/block/deadline-iosched.c:340-358 | an empty scheduler is valid |
| Deadline.DeadlineData.AddRequest | z4800-kernel/block/deadline-iosched.c:99-111 | the new state is that of the state machine |
| Deadline.DeadlineData.RemoveRequest | z4800-kernel/block/deadline-iosched.c:85-122 | both views and next_rq without the request |
| Deadline.DeadlineData.FrontMerge | z4800-kernel/block/deadline-iosched.c:154-166 | the request is repositioned |
| Deadline.FindAt | z4800-kernel/block/elevator.c:385-402 | the search finds a request at the sector exactly when there is one |
| Deadline.DeadlineData.RbFind | z4800-kernel/block/elevator.c:385-402 | the same for the requests of one direction |
| Deadline.DeadlineData.FindFrontMerge | z4800-kernel/block/deadline-iosched.c:125-152 | what is found starts where the bio ends and may be merged; such a request is missed only without front merges or if one that starts there may not be merged |
| Deadline.DeadlineData.BackMerge | z4800-kernel/block/deadline-iosched.c:154-166 | a back merge moves nothing |
| Deadline.DeadlineData.MergedRequests | z4800-kernel/block/deadline-iosched.c:169-187 | the absorbed request is gone from both views and the survivor has the earlier expiry |
| Deadline.DeadlineData.MoveToDispatch | z4800-kernel/block/deadline-iosched.c:193-199 | the request goes to the end of the dispatch queue |
| Deadline.DeadlineData.MoveRequest | z4800-kernel/block/deadline-iosched.c:205-220 | next_rq is the successor in position order, in this direction only |
| Deadline.DeadlineData.CheckFifo | z4800-kernel/block/deadline-iosched.c:226-237 | whether the oldest request has expired |
| Deadline.DeadlineData.ChooseDir | z4800-kernel/block/deadline-iosched.c:268-294 | direction and starvation count of a new batch |
| Deadline.DeadlineData.FindRequest | z4800-kernel/block/deadline-iosched.c:296-313 | where a new batch starts; that this is the expired oldest request, or else the next in order, is `DeadlineExpiry.DispatchChoice` |
| Deadline.DeadlineData.DispatchRequests | z4800-kernel/block/deadline-iosched.c:243-325 | one request is dispatched exactly when one is queued, the one the state machine picks (`DeadlineExpiry.DispatchChoice` says which) |
| Deadline.DeadlineData.DrainElevator | z4800-kernel/block/elevator.c:606-612 | the drain ends with nr_sorted zero and everything that was queued dispatched |
| SwitchModel.StepCounted | z4800-kernel/block/blk-core.c:654-666 | every step keeps elvpriv and the counts equal to the numbers of reservations |
| SwitchModel.StepInv | z4800-kernel/block/elevator.c:953-1024 | every step of allocation, completion, limit change and switch, with and without the lock, keeps the invariant |
| SwitchModel.RequestsWay | z4800-kernel/block/elevator.c:654-664 | a request with private data reaches the scheduler and one without goes past it; it is private exactly when data is wanted and no switch is running, with the data of the scheduler in use; issuing and draining take requests out of the scheduler |
| SwitchModel.StarvedIff | z4800-kernel/block/blk-core.c:692-790 | a direction is noted as starved exactly when an allocation is refused or fails with nothing else outstanding, and no longer after one succeeds |
| SwitchModel.SwitchWay | z4800-kernel/block/elevator.c:953-1024 | what each statement of a switch does to flag, scheduler in use and exited schedulers |
| SwitchModel.SwitchIsSafe | z4800-kernel/block/elevator.c:975-1024 | over every interleaving: private data is that of the scheduler in use, which has not been exited; from the attachment to the end of a switch, failed or not, nothing belongs to any scheduler; the queue points to an exited scheduler exactly between the exit of the new one and the return of the old one; counts stay within one and a half times the largest limit set so far |
| SwitchModel.NeverExitedIff | z4800-kernel/block/elevator.c:1010-1023 | a run never has the queue point to an exited scheduler exactly when no switch in it fails to register |
| SwitchModel.ExitedConsultedIff | z4800-kernel/block/elevator.c:757-816 | a step calls an exited scheduler exactly if it is an allocation or a drain between the exit of the new scheduler and the return of the old one; private data never leads to an exited scheduler |
| SwitchModel.ExitedSchedulerReached | z4800-kernel/block/elevator.c:1010-1023 | such a run exists for every pair of schedulers, and after it an allocation, a refused allocation and a drain each call the exited one |
| Switch.RequestQueue.LimitAllows | z4800-kernel/block/blk-core.c:705-737 | exactly when a request may be allocated, and when the queue is marked full |
| Switch.RequestQueue.GetRequest | z4800-kernel/block/blk-core.c:692-752 | a reservation is made exactly under the limits, private unless a switch is running, and the full flag of its direction is set exactly at the limit |
| Switch.RequestQueue.AllocRequest | z4800-kernel/block/blk-core.c:579-599 | private data comes from the scheduler in use |
| Switch.RequestQueue.FreedRequest | z4800-kernel/block/blk-core.c:650-666 | the counts without the request; the full flag of its direction is cleared below the limit, and that of the other if it is starved and below the limit |
| Switch.RequestQueue.FreedOne | z4800-kernel/block/blk-core.c:635-648 | below the limit the direction is no longer full, and nothing else changes |
| Switch.RequestQueue.SetRequests | z4800-kernel/block/blk-sysfs.c:40-82 | the new limit is at least BLKDEV_MIN_RQ, and each direction is full exactly when its count reaches it |
| Switch.RequestQueue.UndoReserve | z4800-kernel/block/blk-core.c:752-777 | a failed allocation is undone, and noted when nothing else is outstanding |
| Switch.RequestQueue.PutRequest | z4800-kernel/block/blk-core.c:1038-1064 | private data is given back to the scheduler it came from |
| Switch.RequestQueue.AddRequest | z4800-kernel/block/elevator.c:654-664 | what has no private data bypasses the scheduler |
| Switch.RequestQueue.DrainElevator | z4800-kernel/block/elevator.c:606-618 | everything the scheduler held goes out, and nothing else changes |
| Switch.RequestQueue.QuiesceStart | z4800-kernel/block/elevator.c:623-633 | the flag is set and the scheduler drained |
| Switch.RequestQueue.TryAttach | z4800-kernel/block/elevator.c:632-641 | the new scheduler is attached exactly when no private data is left, and then nothing belongs to either |
| Switch.RequestQueue.ExitOldElevator | z4800-kernel/block/elevator.c:998-1001 | the old scheduler is exited with nothing belonging to it, and the one in use is not exited |
| Switch.RequestQueue.ExitNewElevator | z4800-kernel/block/elevator.c:1010-1015 | the new scheduler is exited with nothing belonging to it, while the queue still points to it |
| Switch.RequestQueue.PutBackElevator | z4800-kernel/block/elevator.c:1016-1017 | the old scheduler, which was not exited, is in use again |
| Switch.RequestQueue.QuiesceEnd | z4800-kernel/block/elevator.c:1002-1021 | the flag is cleared, with a scheduler in use that was not exited |
| CfqChoice.ChooseFollowsCost | z4800-kernel/block/cfq-iosched.c:671-753 | the choice is the cheaper of the two in an independent cost order, the first if they are equal |
| CfqChoice.ChoiceIsPreorder | z4800-kernel/block/cfq-iosched.c:671-753 | for a fixed head position the choice is reflexive, total and transitive |
| CfqChoice.FlagsDecide | z4800-kernel/block/cfq-iosched.c:684-688 | better flags win whatever the positions |
| CfqChoice.ChooseByPosition | z4800-kernel/block/cfq-iosched.c:690-753 | with the same flags, by position: both ahead or both behind within reach, the nearer; one of each, by distance, the one behind counted cfq_back_penalty times; within reach (2 * cfq_back_max sectors) before beyond; both beyond, the one furthest behind |
| CfqChoice.FindNextChooses | z4800-kernel/block/cfq-iosched.c:802-823 | the choice is one of the neighbours and no worse than either, and there is none exactly when the list holds nothing else |
| CfqChoice.FindNextIsBest | z4800-kernel/block/cfq-iosched.c:802-823 | whenever the neighbours carry the best flags of the other requests, the choice is as good as every request of the list |
| CfqChoice.BetterFlagsMissed | z4800-kernel/block/cfq-iosched.c:802-823 | if some other request has better flags than the neighbours, the choice is not the best |
| CfqChoice.FindNextBestIff | z4800-kernel/block/cfq-iosched.c:802-823 | with neighbours that have the same flags, the choice is the best exactly when no other request has better flags than they |
| CfqChoice.UnbeatenIsBest | z4800-kernel/block/cfq-iosched.c:671-753 | the flags of the others and the nearest requests of the same flags decide whether a request is as good as every other |
| CfqChoice.FindNextBestExactly | z4800-kernel/block/cfq-iosched.c:802-823 | for any flags: the choice is the best exactly when some neighbour has the best flags of all other requests and is beaten by none of the nearest requests with the same flags, at most three |
| CfqChoice.NeighboursMustAgree | z4800-kernel/block/cfq-iosched.c:802-823 | a list where the choice has the best flags and is still not the best, because the neighbours' flags differ |
| TagModel.StartOk | z4800-kernel/block/blk-tag.c:337-384 | a free tag given to a request keeps bitmap, index and holders consistent |
| TagModel.EndOk | z4800-kernel/block/blk-tag.c:282-316 | giving a tag back does too |
| TagModel.ResizeOk | z4800-kernel/block/blk-tag.c:220-265 | a new depth keeps every holder's tag |
| TagModel.StartIs | z4800-kernel/block/blk-tag.c:337-384 | a request gets the lowest free tag it may have: any below the depth if synchronous, any below max(1, depth - 2) otherwise; none exactly when there is none |
| TagModel.ResizeIs | z4800-kernel/block/blk-tag.c:220-265 | a map that grows has min(depth, 2 * nr_requests) tags, the old as they were and the new free; otherwise only the limit moves |
| TagModel.StepKeepsTags | z4800-kernel/block/blk-tag.c:220-384 | nobody loses a tag but by ending it |
| TagModel.NoTagShared | z4800-kernel/block/blk-tag.c:220-405 | over every run, changes of nr_requests included, no two requests share a tag, and index, bitmap and holders agree |
| TagModel.SyncTagsReserved | z4800-kernel/block/blk-tag.c:337-384 | over every run that does not reduce the depth, asynchronous requests hold only tags below max(1, depth - 2) |
| TagModel.CopyFits | z4800-kernel/block/blk-tag.c:258-260 | copying the old table succeeds exactly when the new one is no shorter, and leaves the rest of it as it was |
| TagModel.ResizeIff | z4800-kernel/block/blk-tag.c:220-265 | a resize goes well exactly when the map need not grow, may not grow, or is covered by twice the present nr_requests; then every request keeps its tag and all is consistent |
| TagModel.GrowthFails | z4800-kernel/block/blk-tag.c:108-138 | the failing states are reached: a full-sized map, a lower limit, and a larger depth |
| TagModel.GrowthFailsAt257 | z4800-kernel/block/blk-tag.c:220-265 | 256 tags, nr_requests lowered from 128 to 16, a depth of 257: the new map has 32 tags |
| TagModel.GrowthGoesWell | z4800-kernel/block/blk-tag.c:220-265 | over every run that never lowers nr_requests every resize goes well |
| Tags.TagQueue.constructor | z4800-kernel/block/blk-tag.c:108-138 | a new map of at most twice nr_requests tags |
| Tags.TagQueue.StartTag | z4800-kernel/block/blk-tag.c:337-384 | the first free usable tag is given, and none exactly when there is none or too many asynchronous requests are in flight |
| Tags.TagQueue.FindFirstZero | z4800-kernel/block/blk-tag.c:367-372 | the first clear bit below the limit |
| Tags.TagQueue.EndTag | z4800-kernel/block/blk-tag.c:282-316 | bit, index entry and list entry are cleared |
| Tags.TagQueue.ResizeTags | z4800-kernel/block/blk-tag.c:220-265 | where the copy fits, all tags survive; a shared map does not grow |
| Tags.Grow | z4800-kernel/block/blk-tag.c:255-260 | the new table starts with the old one and is clear behind it |
| Tags.TagQueue.SetRequests | z4800-kernel/block/blk-sysfs.c:40-55 | only the limit changes, to at least BLKDEV_MIN_RQ |
| Tags.TagQueue.InvalidateTags | z4800-kernel/block/blk-tag.c:399-405 | every tag is given up, and the requests are at the front of the queue in the order they were tagged |
| AesField.InvMixInverts | z4800-kernel/crypto/aes_generic.c:1128-1139 | InvMixColumns undoes MixColumns on a column |
| AesField.ImixColIsInvMix | z4800-kernel/crypto/aes_generic.c:1128-1139 | imix_col with star_x on packed words is InvMixColumns |
| AesTables.InvSInverts | z4800-kernel/crypto/aes_generic.c:857-923 | the inverse substitution table undoes the substitution table |
| AesTables.Ft0Column | z4800-kernel/crypto/aes_generic.c:65-131 | an entry of the forward table is the MixColumns column of the substituted byte |
| AesTables.It0Column | z4800-kernel/crypto/aes_generic.c:593-659 | an entry of the inverse table is the InvMixColumns column of the inversely substituted byte |
| AesSBox.SBoxDefinition | z4800-kernel/crypto/aes_generic.c:329-395 | the substitution table is inversion in the field followed by the affine map (section 5.1.1 of FIPS-197) |
| AesCipher.EqInvCipherInverts | z4800-kernel/crypto/aes_generic.c:1401-1440 | the Equivalent Inverse Cipher undoes the Cipher for any number of rounds and any round keys (section 5.3.5 of FIPS-197) |
| Aes.FRnIsRound | z4800-kernel/crypto/aes_generic.c:1300-1305 | one word of f_rn is SubBytes, ShiftRows, MixColumns and the round key |
| Aes.FRlIsRound | z4800-kernel/crypto/aes_generic.c:1315-1320 | one word of f_rl, without MixColumns |
| Aes.IRnIsRound | z4800-kernel/crypto/aes_generic.c:1372-1377 | one word of i_rn is the inverse round |
| Aes.IRlIsRound | z4800-kernel/crypto/aes_generic.c:1387-1392 | one word of i_rl, without InvMixColumns |
| Aes.FNroundIsRound | z4800-kernel/crypto/aes_generic.c:1307-1313 | f_nround is one round of the Cipher |
| Aes.FLroundIsRound | z4800-kernel/crypto/aes_generic.c:1322-1327 | f_lround is its last round |
| Aes.INroundIsRound | z4800-kernel/crypto/aes_generic.c:1379-1385 | i_nround is one round of the Equivalent Inverse Cipher |
| Aes.ILroundIsRound | z4800-kernel/crypto/aes_generic.c:1394-1399 | i_lround is its last round |
| Aes.LsBoxIsSubWord | z4800-kernel/crypto/aes_generic.c:1141-1145 | ls_box is SubWord |
| Aes.RcoIsRcon | z4800-kernel/crypto/aes_generic.c:63-63 | rco_tab holds the powers of x |
| AesGeneric.AesInverts | z4800-kernel/crypto/aes_generic.c:1329-1440 | decryption returns the block, for every key of the three sizes |
| AesReference.CipherIsReference | z4800-kernel/crypto/aes_generic.c:1216-1368 | encryption is the Cipher of section 5.1 of FIPS-197 on bytes, with the key expansion of section 5.2 on bytes, for every key of the three sizes and every block |
| AesReference.KeyComesFirst | z4800-kernel/crypto/aes_generic.c:1228-1256 | the schedule starts with the bytes of the key, in order, and the first round key is the first sixteen of them |
| AesReference.ScheduleIsKey | z4800-kernel/crypto/aes_generic.c:1147-1256 | every word of the schedule is four bytes of the expanded key |
| AesReference.RoundKeysOnBytes | z4800-kernel/crypto/aes_generic.c:1228-1256 | every round key is sixteen bytes of the expanded key, in order |
| AesGeneric.MirroredIsInverse | z4800-kernel/crypto/aes_generic.c:1258-1266 | what the second loop of key expansion writes is the schedule of section 5.3.5 of FIPS-197 |
| AesGeneric.AesContext.constructor | z4800-kernel/crypto/aes_generic.c:1282-1295 | a context without a key |
| AesGeneric.AesContext.Loop4 | z4800-kernel/crypto/aes_generic.c:1147-1158 | four words of the key schedule of section 5.2 of FIPS-197 |
| AesGeneric.AesContext.Loop6 | z4800-kernel/crypto/aes_generic.c:1160-1175 | six words |
| AesGeneric.AesContext.Loop8TopHalf | z4800-kernel/crypto/aes_generic.c:1177-1188 | the first four of eight words |
| AesGeneric.AesContext.Loop8 | z4800-kernel/crypto/aes_generic.c:1190-1200 | eight words, the middle one substituted |
| AesGeneric.AesContext.FillEnc | z4800-kernel/crypto/aes_generic.c:1228-1256 | key_enc is the key schedule of the key (`AesReference.ScheduleIsKey` gives its bytes) |
| AesGeneric.AesContext.FillDec | z4800-kernel/crypto/aes_generic.c:1228-1266 | key_dec mirrors it, with imix_col on all but the outer round keys |
| AesGeneric.AesContext.ExpandKey | z4800-kernel/crypto/aes_generic.c:1216-1268 | both schedules belong to the key; any other key size is refused and changes nothing |
| AesGeneric.AesContext.Encrypt | z4800-kernel/crypto/aes_generic.c:1329-1368 | the output is the Cipher of the input, also in place (`AesReference.CipherIsReference` gives it on bytes) |
| AesGeneric.AesContext.Decrypt | z4800-kernel/crypto/aes_generic.c:1401-1440 | the output is the Equivalent Inverse Cipher of the input, also in place |
| CbcModel.DecInverts | z4800-kernel/crypto/cbc.c:42-167 | decryption undoes encryption for every invertible cipher and any length |
| CbcModel.EncBlock | z4800-kernel/crypto/cbc.c:54-61 | each block of ciphertext is the cipher of the block of plaintext combined with the block of ciphertext before it, or the vector |
| CbcModel.DecBlock | z4800-kernel/crypto/cbc.c:126-133 | each block of plaintext is the inverse cipher of the block of ciphertext, combined with the one before it, or the vector |
| CbcModel.XorAt | z4800-kernel/crypto/algapi.c:892-907 | combining is exclusive or, byte by byte |
| CbcModel.EncSplit | z4800-kernel/crypto/cbc.c:90-112 | two block-aligned parts with the carried vector encrypt like the whole |
| CbcModel.DecSplit | z4800-kernel/crypto/cbc.c:169-191 | and decrypt like the whole |
| CbcModel.PiecesAgree | z4800-kernel/crypto/cbc.c:90-191 | any number of pieces does |
| Cbc.CryptoXor | z4800-kernel/crypto/algapi.c:898-907 | the part is the exclusive or of the two parts, and nothing else changes, also within one buffer |
| Cbc.XorBytes | z4800-kernel/crypto/algapi.c:892-896 | the same byte by byte |
| Cbc.EncryptSegment | z4800-kernel/crypto/cbc.c:42-64 | output, untouched rest, left-over length and carried vector are those of the specification |
| Cbc.EncryptInplace | z4800-kernel/crypto/cbc.c:66-88 | the same function in place |
| Cbc.EncryptForwards | z4800-kernel/crypto/cbc.c:77-83 | the loop leaves the encryption of the whole blocks, and the bytes behind them as they were |
| Cbc.DecryptSegment | z4800-kernel/crypto/cbc.c:114-138 | output, rest, left-over and vector of decryption |
| Cbc.DecryptForwards | z4800-kernel/crypto/cbc.c:126-133 | the loop leaves the decryption of the whole blocks, and the rest of the target as it was |
| Cbc.DecryptInplace | z4800-kernel/crypto/cbc.c:140-167 | the same function in place, from the last block to the first, found by masking the length |
| Cbc.DecryptBackwards | z4800-kernel/crypto/cbc.c:155-164 | the loop that runs backwards leaves the decryption of the whole part, and the bytes behind it as they were |
| Cbc.MaskIsRest | z4800-kernel/crypto/cbc.c:152-152 | masking with a power of two less one is the remainder by it, for every number |
| Cbc.BlockMask | z4800-kernel/crypto/cbc.c:230-230 | so it is for every block size the template accepts |
| Cbc.CbcAesInverts | z4800-kernel/crypto/cbc.c:90-191 | CBC over AES returns every message of whole blocks, however the ciphertext is cut |
| NameGrammar.ParsePrints | z4800-kernel/crypto/algboss.c:114-177 | a template applied to fewer than CRYPTO_MAX_ATTRS arguments is read back exactly |
| NameGrammar.ParseSound | z4800-kernel/crypto/algboss.c:114-177 | nothing else is accepted |
| NameGrammar.NestedNamesParse | z4800-kernel/crypto/algapi.c:746-757 | names nested to any depth by instances parse back |
| NameGrammar.NumbersReadBack | z4800-kernel/lib/vsprintf.c:52-75 | an argument in the decimal digits of n, or in its octal digits after a zero, is read as n modulo 2^32 |
| NameGrammar.ValueStops | z4800-kernel/lib/vsprintf.c:60-70 | a digit the base does not have ends the number |
| NameGrammar.CharsByTable | z4800-kernel/lib/ctype.c:10-35 | a character is a digit, or a letter or digit, exactly if the table of 256 classes says so |
| NameParser.ReadNumber | z4800-kernel/lib/vsprintf.c:52-75 | the 32-bit value of an all-digit argument, octal after a leading zero |
| NameParser.ScanId | z4800-kernel/crypto/algboss.c:130-131 | the end of the identifier, and whether it has a non-digit |
| NameParser.ScanParens | z4800-kernel/crypto/algboss.c:133-143 | the matching parenthesis, or none |
| NameParser.ScanArg | z4800-kernel/crypto/algboss.c:127-164 | one argument, as a number or a name |
| NameParser.ParseName | z4800-kernel/crypto/algboss.c:114-177 | the scan with its counters computes the parser function, and every part fits its buffer |
| NameParser.InstanceName | z4800-kernel/crypto/algapi.c:746-757 | name and driver name of the instance, or neither if one is too long; a name from an identifier and an argument parses back |

## Left out

- Lock internals, RCU, memory barriers, allocation, tracing and statistics: a region under the lock is one step, and whether an allocation succeeds is a parameter.
- Jiffies wrap-around, 32- and 64-bit overflow in rate arithmetic, the unlimited value -1 and limit changes of throttle groups: limits are finite and constant, time is unbounded.
- Negative tunables of the deadline scheduler: they are natural numbers here.
- Red-black trees, scatterlist chaining and `hash_long`: trees are sequences in order, the hash is any function.
- Padding, drain buffers and discard requests in segment accounting: only data-carrying bios with vectors of positive length are modelled.
- Failfast bits and mixed merges of requests.
- Sorted insertion of a request marked REQ_SOFTBARRIER without private data: no caller of the modelled paths does that.
- Drivers: they take entries from the dispatch queue and complete what they took, in any order.
- `blk_abort_flushes`, `elv_abort_queue` and other teardown.
- Shared tag maps used by two queues at once: a map is used under one lock, so the retry of the bit search is taken once.
- Tables 1 to 3 of each kind in `aes_generic.c`: they are represented as rotations of table 0.
- The scatterlist walk around the CBC loops: pieces of whole blocks are taken as given.
- 64-bit wrap-around inside `simple_strtol`: the number is reduced to 32 bits once, at the end.
- The rest of CFQ, `blk-cgroup.c`, `elv_dispatch_sort`, `crypto_inc` and the `crypto_queue`: not part of this model.
- Waiting and waking of tasks in `get_request_wait`, and the congestion flags: only the counts, the full flags and the starved flags are modelled.
- Requests.UpdateRequest: covers file system requests only; for other requests the source leaves the sector where it is, which is not modelled.
- Tags.TagQueue.ResizeTags: is not defined where the copy would write behind the end of the new map, because what the source then overwrites is outside the map.
