# Flora: image codec, image loading, chat warm-up and session storage

A Dafny 4.11 model of six parts of the Flora repository, and proofs about it. `dafny verify dfyconfig.toml` checks all of it.

**The FRC-I v7 entropy codec.** A range decoder with byte renormalisation (`RangeCoder`, `RangeMachines`) reads symbols
through adaptive tables (`AdaptiveModels`) in a bank whose tables are cloned lazily from group parents (`ModelBanks`,
`BankMachines`). Large values are tokens with raw bits beside them (`RawBits`). Planes are quadtrees of coefficient blocks
(`PlaneSyntax`, `PlaneCodec`, `Quadtree`, `Tallies`, `PlaneMachine`, `Sections`), and files are tiles of three planes
(`Container`, `ContainerMachine`). The encoder's half is modelled too, down to the carry of the range encoder and the bytes
of the file (`RangeCoder`, `RawBits`, `FileCodec`, `FileWriter`). `TracingParser`, `TraceReplay`, `VariantBanks` and
`FileReplay` model the tool that records a file's symbols and replays them through banks with other priors. Each part exists twice: as functions on values, which
the theorems are about, and as classes with fields and loops, proved equal to the functions.

**The two-stage image pipeline.** `PipelineState` names the tasks, the queue entries and runs, the files and the calls.
`PipelineSteps` and `PipelineSound` prove one invariant, `Sound`, step by step. `PipelineMachine` is the class, driven by
what its callers, queues and backend may do. `PipelineRuns` says what the invariant means, over whole runs.

**The variant cache.** `CacheIndex` holds byte accounting, the persisted rows, exact least-recently-used eviction and
what it is for index and directory to agree. `ImageCache` is the class over a disk that may refuse deletions.

**The commit buffer.** `CommitBuffer` is a queue with a hard gate, a soft gate and two timers over a logical clock.

**The chat warm bench.** `WarmSelection` decides who is measured, mounted and on top; `WarmBench` keeps the bench.

**The Gov session store.** `SessionRecords` holds the record, its reader and the runs of many tabs; `SessionStore` is the
object.

## Assumptions

- A queue may start or give up any run whenever its rules allow one to run at all: limits on concurrency, pauses and the
  order by priority are covered by proving everything for any such choice (`plan` in `PipelineMachine`, which stands for the
  reactions of `apps/Mobile/lib/subscriberTaskQueue.ts`).
- A run's result reaches the live subscription in the same step as the run returns, and the callbacks given to the pipeline
  and to the commit buffer do not call back into it. A stage subscription is stored before the queue reacts to it.
- A step of one object is not interrupted, and the clock does not move within it. Only `SessionRecords` splits an operation
  into a look and a write, because there different tabs really may interleave.
- The cost of a symbol is any function of its table's total and its frequency; nothing is assumed of it.
- JSON text and its parsing are inverse: a stored text is the value it denotes, or no JSON at all.

## Findings

Where the code does not do what its documentation or its evident purpose promises, a lemma or a method exhibits the input,
and another proves exactly when the promise holds.

1. *A code word can reach the range* (tools/frc-i-compete/audit_v7.py:97-109). Input: the stream `00 FF 00 00 00`. It is
   accepted, and its code is not below the range (`RangeCoder.TopCodeWordsEscape`). The decoder's state stays exact through
   a symbol if and only if the clamp `min(code // r, total - 1)` did not fire (`RangeCoder.ExactIffUnclamped`); no encoder
   writes such a stream (`RangeCoder.MessageInside`).
2. *Bytes of duplicate index rows are counted for ever* (apps/Mobile/lib/frcImageCache.ts:750-756). Input: two rows of one
   key, of 5 and 7 bytes: the total is 12 and the index holds 7 (`CacheIndex.DuplicateRowsCountTwice`). The total is exact
   if and only if no row with bytes, and no entry with bytes, is written over (`CacheIndex.ExactIffLosesNothing`). The class
   carries the difference as `drift`, and every operation keeps the total equal to the sum of sizes plus `drift`.
3. *The hold timer is lost after a cancellation* (apps/Mobile/lib/frcCommitBuffer.ts:149-166). Input: two entries a second
   apart under a pause, the older cancelled, the timer firing over a list that moves: a settled, overdue entry then waits
   with no timer at all (`CommitBuffer.OverdueForEver`). The timer is lost if and only if it fires while the list is
   unsettled, paused and holds an entry short of its ceiling (`CommitBuffer.FrcCommitBuffer.FireHold`), which takes a
   cancellation.
4. *A task can be stranded* (apps/Mobile/lib/frcImagePipeline.ts:410-424). Input: a download starts, is given up by its
   queue and returns before it starts again; then the last subscriber leaves (`PipelineRuns.StrandedDownload`). The task stays, marked
   downloading, with nothing in flight, and no deferred work is ever resumed (`PipelineRuns.StuckTaskBlocksResumption`). A
   departure strands a task if and only if it is the last one, and the task is marked downloading or decoding with no run
   to clean up after it (`PipelineMachine.FrcImagePipeline.Unsubscribe`); nothing else ever strands one.
5. *Compare-and-set is not atomic between tabs* (apps/Gov/lib/govSessionStore.ts:298-323; packages/flora-client-core/src/auth/types.ts
   promises that it replaces the snapshot atomically). Input: two tabs look at one revision, then both write: both succeed,
   and the first session is lost (`SessionRecords.DisturbedBothWin`). However looks and writes interleave, every success
   raises the revision by one if and only if no success goes by a look that another success has outdated
   (`SessionRecords.RaisesIffUnbeaten`), and then the successes are serial (`SessionRecords.WinnersAreSerial`).
6. *A variant's own priors are hardly measured* (tools/frc-i-compete/probe_priors.py:261-286). A context whose group has
   learned anything starts from a clone of the parent. Input: priors that differ from the format's in context 78, and a
   trace of one symbol of context 0 and then one of context 78: every cost is the same (`TraceReplay.UnseenPrior`). Variants
   with the same parents hand out the same tables all along a trace if and only if they agree on the contexts that come
   first in their groups (`TraceReplay.OwnPriorsRarelyMatter`), at most one in each (`TraceReplay.SeesOnePerGroup`).
7. *A download can be kept for nobody* (apps/Mobile/lib/frcImageCache.ts:544-555). Input: an FRC-I image whose size cannot be
   read once it is downloaded: the fetch fails, and the partial file stays in flight, where the maintenance of that session
   spares it (`ImageCache.LeakedDownload`). A failed or finished fetch leaves its file in flight without an owner if and only
   if the file is an FRC-I image and its size cannot be read (`ImageCache.FrcImageCache.EndFetch`).
8. *A failed publication loses an image* (apps/Mobile/lib/frcImageCache.ts:592-600). Input: an image on disk without an entry
   is decoded again, and the move under the final name fails: the old file is gone and there is no new one
   (`ImageCache.LostImage`). The file of that name is lost if and only if it could be deleted and the move fails; the new image
   is there without an entry if and only if it was moved and its size cannot be read; in every other case it is indexed, or
   nothing of that name changes (`ImageCache.FrcImageCache.EndDecode`).

## Model

| member | source | states |
|---|---|---|
| `RangeCoder.StepTracks` | tools/frc-i-compete/audit_v7.py:97-109 | a stream in a symbol's part of the interval makes the decoder's lookup land in that symbol, and its state stays exact: code is what was read minus the interval's low end |
| `RangeCoder.MaskDropsNothing` | tools/frc-i-compete/audit_v7.py:105-109 | while the code is below the range, masking the shifted code to 32 bits loses no bit |
| `RangeCoder.ExactIffUnclamped` | tools/frc-i-compete/audit_v7.py:97-109 | after any accepted symbol the decoder's state is exact if and only if the clamp on the lookup did not fire |
| `RangeCoder.TopCodeWordsEscape` | tools/frc-i-compete/audit_v7.py:88-95 | a stream whose header is accepted although its code is not below the range |
| `RangeCoder.MessageInside` | products/FRC/crates/frc-i/src/arith.rs:57-105 | the encoder's bytes, carries resolved, start with the zero byte, lie in the interval its symbols carve, and are five plus one for each renormalisation |
| `RangeMachines.RangeDecoder.DecodeFreq` | tools/frc-i-compete/audit_v7.py:97-99 | the object's lookup is the clamped position, and the share is remembered |
| `RangeMachines.RangeDecoder.Update` | tools/frc-i-compete/audit_v7.py:101-109 | the loop of the object consumes the symbol as the value model does, or fails exactly when the bytes run out |
| `RangeMachines.RangeEncoder.ShiftLow` | products/FRC/crates/frc-i/src/arith.rs:68-88 | with its cache byte and pending 255s the encoder emits what a shift of the exact number emits, carry or not |
| `RangeMachines.RangeEncoder.FinishStream` | products/FRC/crates/frc-i/src/arith.rs:90-105 | the finished stream is the message of everything encoded |
| `AdaptiveModels.LearnAllKeepsForm` | tools/frc-i-compete/audit_v7.py:165-179 | after any run of adaptations the frequencies are positive, sum to the total, and the total is under 8192 |
| `AdaptiveModels.DecodeInvertsCarve` | tools/frc-i-compete/audit_v7.py:181-191 | a stream inside a symbol's part of a table decodes to that symbol, whatever the table |
| `AdaptiveModels.AtMostTwoBytes` | tools/frc-i-compete/audit_v7.py:101-109 | from any state of the decoder, exact or not, a symbol reads at most two bytes, and with two bytes left it is accepted |
| `AdaptiveModels.AtMostTwoDigits` | products/FRC/crates/frc-i/src/arith.rs:57-67 | a symbol of an adaptive table lengthens the encoder's interval by at most two digits |
| `AdaptiveModels.AdaptiveModel.Decode` | tools/frc-i-compete/audit_v7.py:181-191 | the object decodes and learns as the value model does and is charged by the table before learning; a symbol outside the model cannot arise |
| `AdaptiveModels.AdaptiveModel.Adapt` | tools/frc-i-compete/audit_v7.py:165-179 | the object's fields stay a well-formed table, and are the learned one |
| `ModelBanks.ModelLayout` | tools/frc-i-compete/audit_v7.py:200-224 | the nested loops over both lists produce each context's group and kind |
| `ModelBanks.ParentSharesAlphabet` | tools/frc-i-compete/audit_v7.py:227-243 | every context has the kind of the parent it inherits from |
| `ModelBanks.LazyInheritance` | tools/frc-i-compete/audit_v7.py:244-283 | after any history each table is its parent as it stood before the first symbol routed there, adapted by exactly the symbols routed there |
| `ModelBanks.PreparedIsTable` | tools/frc-i-compete/audit_v7.py:244-256 | the table handed out next is the one the history prescribes |
| `ModelBanks.DecodingInvertsCarving` | tools/frc-i-compete/audit_v7.py:181-270 | from any bank, a decoder reads a symbol sequence without its clamp firing if and only if the stream lies in the interval that sequence carves; then it also ends in the right state and bank |
| `ModelBanks.EntropyRoundTrip` | products/FRC/crates/frc-i/src/arith.rs:378-470 | what the bank's encoder writes for any history the decoder reads back to the last byte, and both banks end alike |
| `BankMachines.ModelBank.Prepare` | tools/frc-i-compete/audit_v7.py:244-256 | the object hands out the prescribed table, installing a clone of a warm parent in place of a cold table, and shares no object between places |
| `BankMachines.ModelBank.Decode` | tools/frc-i-compete/audit_v7.py:258-270 | decoding through the objects gives the value model's symbol, faults, bank and bill |
| `BankMachines.ModelBank.Observe` | tools/frc-i-compete/audit_v7.py:272-283 | observing a known symbol leaves bank and bill as decoding it would |
| `BankMachines.ModelBank.Encode` | products/FRC/crates/frc-i/src/arith.rs:445-452 | encoding leaves the bank as decoding will |
| `BankMachines.ModelBank.Variant` | tools/frc-i-compete/probe_priors.py:261-286 | the factory's bank holds the given priors in every bucket of each context and in each parent, and is cold |
| `RawBits.RawBitReader.Read` | tools/frc-i-compete/audit_v7.py:73-84 | a read is the next bits, most significant first, or a fault exactly when they run out |
| `RawBits.BitWriter.Write` | products/FRC/crates/frc-i/src/bits.rs:22-36 | the 32-bit accumulator appends exactly the field's bits, stale high bits notwithstanding |
| `RawBits.BitWriter.Finish` | products/FRC/crates/frc-i/src/bits.rs:38-44 | the bytes are the bits written, padded with zeros to a byte |
| `RawBits.TokenIsCanonical` | tools/frc-i-compete/audit_v7.py:298-312 | a symbol and raw field read back as a value if and only if they are that value's own token |
| `RawBits.TokenFits` | tools/frc-i-compete/audit_v7.py:308-312 | every value to 2^20 has a symbol of its alphabet, and every run in a block one of the first 22 |
| `RawBits.ZigzagInverts` | tools/frc-i-compete/audit_v7.py:397-398 | unzigzag is the inverse of zigzag, both ways |
| `PlaneSyntax.AcsReplay` | tools/frc-i-compete/audit_v7.py:545-597 | the coefficient loop returns a list if and only if the streams say exactly its end flags, runs, levels and raw bits, from any position and context |
| `PlaneSyntax.PlaneReplay` | tools/frc-i-compete/audit_v7.py:545-663 | the parser returns a plane if and only if the plane is valid for the area and the streams say exactly the operations that write it |
| `PlaneCodec.PlaneRoundTrip` | tools/frc-i-compete/audit_v7.py:646-667 | from any bank state, the section written for any valid plane decodes to it, both streams are used up, and bank, trace and bills are those of its operations |
| `PlaneCodec.PlaneSound` | tools/frc-i-compete/audit_v7.py:646-667 | every accepted section says exactly the operations of the plane returned, and nothing more |
| `Quadtree.EachSampleInOneLeaf` | tools/frc-i-compete/audit_v7.py:613-663 | for any size and any split decisions every sample of the plane lies in exactly one leaf |
| `Quadtree.LeavesStartInPlane` | tools/frc-i-compete/audit_v7.py:613-663 | every leaf's origin is in the plane |
| `Tallies.PlaneCounted` | tools/frc-i-compete/audit_v7.py:613-663 | block counts are the leaves of each size, whole counts at 8, 16 and 32 equal them, and raw bits by purpose sum to the plane's bits |
| `PlaneMachine.PlaneSyntaxDecoder.Coefficients` | tools/frc-i-compete/audit_v7.py:545-597 | the loop of the object reads the value model's coefficients and tallies them |
| `PlaneMachine.PlaneSyntaxDecoder.DecodeRoot` | tools/frc-i-compete/audit_v7.py:613-663 | a root is walked to its leaves as the value model walks it, with its tallies and faults |
| `PlaneMachine.PlaneSyntaxDecoder.Decode` | tools/frc-i-compete/audit_v7.py:646-667 | the object decodes the whole plane as the value model does, and refuses leftover bytes in either stream |
| `Sections.WriteThenRead` | products/FRC/crates/frc-i/src/section.rs:72-89 | the encoder objects and the decoder objects, run one after the other, return any valid plane and leave equal banks |
| `Container.FileConserves` | tools/frc-i-compete/audit_v7.py:684-783 | for every accepted file header, table, sections and alpha bytes add up to its length, and each plane has one prefixed section per tile |
| `Container.TileAreasAddUp` | tools/frc-i-compete/audit_v7.py:696-727 | the tile areas sum to width times height |
| `ContainerMachine.ParsePlaneSections` | tools/frc-i-compete/audit_v7.py:684-783 | the parser's nested loops over tiles and planes return what the value model reads, or its fault |
| `FileCodec.HeaderReads` | products/FRC/crates/frc-i/src/format.rs:130-162 | a serialised header reads back, whatever follows it |
| `FileCodec.FileRoundTrip` | products/FRC/crates/frc-i/src/encode.rs:168-193 | an assembled file is accepted, and every plane of every tile comes back with its symbols and as many alpha bytes as were put in |
| `FileWriter.WriteTile` | products/FRC/crates/frc-i/src/section.rs:72-89 | a tile's three sections share one bank, and unless a length is cut to 32 bits the payload is what the reader expects |
| `FileWriter.WriteFile` | products/FRC/crates/frc-i/src/encode.rs:168-193 | the whole encoder followed by the whole parser: the sections are the encodings of the planes, and unless the length of a section or a tile is cut to 32 bits, which takes a file of 2^32 bytes, the file is accepted and every tile's planes are returned |
| `TraceReplay.ReplayPerContext` | tools/frc-i-compete/probe_priors.py:289-307 | the replay loop returns, for each context, the costs and symbols of all tiles, each symbol at the table prepared for it in a new bank |
| `TraceReplay.ReplayExplainsBills` | tools/frc-i-compete/probe_priors.py:289-307 | for any cost, bank and history, what decoding was billed for a kind is the sum of the replayed costs of that kind's contexts |
| `TracingParser.AcceptedAlike` | tools/frc-i-compete/probe_priors.py:95-192 | the reader accepts what the tracing parser accepts if and only if the sections of every tile fill it or leave the rest to an alpha section, and then both decode the same symbols and totals |
| `FileReplay.ReplayReproducesDecoding` | tools/frc-i-compete/probe_priors.py:95-192 | for every file the tracing parser accepts, every cost and kind, the bills of the three planes are what replaying the recorded traces with the current priors costs, and so are the symbol counts |
| `VariantBanks.CurrentBankIsFresh` | tools/frc-i-compete/probe_priors.py:461-464 | a variant bank with the format's own priors is the decoder's bank |
| `VariantBanks.OnePerGroup` | tools/frc-i-compete/audit_v7.py:244-256 | in each group at most one table is ever used before the parent has learned, and none once it has |
| `TraceReplay.OwnPriorsRarelyMatter` | tools/frc-i-compete/probe_priors.py:261-307 | variants with equal parents hand out the same tables all along a trace if and only if they agree on the own priors of the contexts that come first in their groups |
| `TraceReplay.SameTablesCostTheSame` | tools/frc-i-compete/probe_priors.py:289-307 | where the tables are the same every context costs the same, whatever the cost function |
| `TraceReplay.SeesFirstOfGroup` | tools/frc-i-compete/audit_v7.py:244-256 | a context's own prior is used before its group's parent has learned if and only if the context is the first of its group in the trace |
| `TraceReplay.UnseenPrior` | tools/frc-i-compete/probe_priors.py:261-307 | two variants with different priors for a context, and a trace that uses the context and costs the same under both |
| `TraceReplay.SeesOnePerGroup` | tools/frc-i-compete/probe_priors.py:261-307 | of one group's contexts a replay sees the own prior of at most one |
| `PipelineRuns.EveryFileHasOneOwner` | apps/Mobile/lib/frcImagePipeline.ts:277-332 | a fetched file is held by exactly one task, that of its key, waiting for or in its decode, or it is discarded: never both, never neither |
| `PipelineRuns.FirstDecodeIsAlone` | apps/Mobile/lib/frcImagePipeline.ts:294-315 | a task's first decode works on a file no other run has |
| `PipelineRuns.CalledAtMostOnce` | apps/Mobile/lib/frcImagePipeline.ts:390-408 | a subscriber is called at most once, and is called, has left, or waits on the task of its key |
| `PipelineRuns.DeferredWorkAwaits` | apps/Mobile/lib/frcImagePipeline.ts:478-504 | between steps deferred work has something to wait for: a full waiting room, a download under way, or a stuck task |
| `PipelineRuns.StuckTaskBlocksResumption` | apps/Mobile/lib/frcImagePipeline.ts:478-490 | while a stuck task is marked downloading no resume pass resumes anything |
| `PipelineRuns.StrandedDownload` | apps/Mobile/lib/frcImagePipeline.ts:410-424 | a run of the real operations that ends with such a task |
| `PipelineRuns.Handle` | apps/Mobile/lib/frcImagePipeline.ts:146-196 | any one event does what it says to subscribers, files and runs, and discards no more files than it takes off the load, beyond the one it may ask for; a task gets stuck only by a departure that strands it, and is freed only by a new subscriber |
| `PipelineRuns.RunEvents` | apps/Mobile/lib/frcImagePipeline.ts:445-504 | over any run, event by event as each does, files discarded plus the load left are at most the initial load, or the limit, plus one for each new subscriber and each raise of a deferred task; tasks get stuck only by stranding departures; without one, from a state with no task stuck, deferred work always has a full room or a download under way to wait for |
| `PipelineMachine.FrcImagePipeline.Subscribe` | apps/Mobile/lib/frcImagePipeline.ts:146-196 | the subscriber is on the task of its key with its priority, the invariant holds, and the load grew by one at most |
| `PipelineMachine.FrcImagePipeline.Unsubscribe` | apps/Mobile/lib/frcImagePipeline.ts:175-185 | a departure changes nothing if the handle is stale, calls nobody, and strands the task if and only if it was the last subscriber of a task marked running without a run |
| `PipelineMachine.FrcImagePipeline.SetPriority` | apps/Mobile/lib/frcImagePipeline.ts:186-192 | only a raise of a deferred task adds load; nobody is called and no file moves |
| `PipelineMachine.FrcImagePipeline.ResumeDeferred` | apps/Mobile/lib/frcImagePipeline.ts:478-504 | a pass resumes exactly as many tasks as there is room, best first, and leaves no room or nothing deferred |
| `PipelineMachine.FrcImagePipeline.WorstWaiting` | apps/Mobile/lib/frcImagePipeline.ts:445-464 | the victim is of the lowest priority, and the newest of those |
| `PipelineMachine.FrcImagePipeline.EnforcePendingLimit` | apps/Mobile/lib/frcImagePipeline.ts:445-464 | exactly the excess is deferred, each victim worse than all that stay, and the count is back at its limit |
| `PipelineMachine.FrcImagePipeline.DeferTask` | apps/Mobile/lib/frcImagePipeline.ts:466-476 | the task loses its file and its place and keeps its subscribers; the file is discarded |
| `PipelineMachine.FrcImagePipeline.Answer` | apps/Mobile/lib/frcImagePipeline.ts:390-408 | each subscriber is called once, all with the same answer |
| `PipelineMachine.FrcImagePipeline.DownloadReturns` | apps/Mobile/lib/frcImagePipeline.ts:277-292 | whatever a fetch returns to whatever state, the file it fetched gets its owner, the invariant holds, the right subscribers are called, and discards are paid for by load |
| `PipelineMachine.FrcImagePipeline.DecodeReturns` | apps/Mobile/lib/frcImagePipeline.ts:294-315 | the consumed file is deleted in every outcome, and the subscribers are called exactly if the run still speaks for its entry |
| `PipelineMachine.FrcImagePipeline.OnRunSettled` | apps/Mobile/lib/frcImagePipeline.ts:317-332 | a settled run is struck from its task, and an unobserved task goes with its file; no task becomes stuck |
| `CommitBuffer.FrcCommitBuffer.Enqueue` | apps/Mobile/lib/frcCommitBuffer.ts:61-77 | commits stay in the order of enqueueing, at once or in line, with the timers armed |
| `CommitBuffer.FrcCommitBuffer.FlushBatch` | apps/Mobile/lib/frcCommitBuffer.ts:168-178 | the first entries, a batch at most, are committed in order and never twice, cancelled or over a moving list, and the timers cover the rest |
| `CommitBuffer.FrcCommitBuffer.FireCoalesced` | apps/Mobile/lib/frcCommitBuffer.ts:141-147 | the coalescing timer commits if the list is settled and the pause, if any, has reached its ceiling |
| `CommitBuffer.FrcCommitBuffer.FireHold` | apps/Mobile/lib/frcCommitBuffer.ts:149-166 | afterwards the ceiling has a timer if and only if the timer did not misfire, which takes an earlier cancellation |
| `CommitBuffer.FrcCommitBuffer.SetPaused` | apps/Mobile/lib/frcCommitBuffer.ts:79-90 | pausing and resuming keep order, gates and timers |
| `CommitBuffer.OverdueForEver` | apps/Mobile/lib/frcCommitBuffer.ts:149-166 | a run that ends settled, paused and overdue with no timer left |
| `CacheIndex.ExactIffLosesNothing` | apps/Mobile/lib/frcImageCache.ts:729-761 | after a restore the byte total is exact if and only if nothing with bytes was written over |
| `CacheIndex.DuplicateRowsCountTwice` | apps/Mobile/lib/frcImageCache.ts:750-756 | two rows of one key for which it is not |
| `CacheIndex.RestoreWhatWasFlushed` | apps/Mobile/lib/frcImageCache.ts:657-761 | restoring a flushed index gives the same keys, sizes, formats and order of use, and an exact total |
| `CacheIndex.RestoreDistinct` | apps/Mobile/lib/frcImageCache.ts:729-761 | rows of distinct keys restore to exactly those keys in their order and lose nothing |
| `CacheIndex.NothingShadowed` | apps/Mobile/lib/frcImageCache.ts:800-840 | with one file for each key no listed file is hidden behind another |
| `CacheIndex.NowReconciled` | apps/Mobile/lib/frcImageCache.ts:800-840 | after adoption, deletion and eviction every entry has a listed file of its size, and every unclaimed file that survives is leased, pinned, hidden in the listing or refused deletion; leased and pinned files all survive |
| `CacheIndex.ReconciledAgrees` | apps/Mobile/lib/frcImageCache.ts:800-840 | with one file for each key every final file left is an entry's, or is leased or pinned, or cannot be deleted |
| `ImageCache.FrcImageCache.EnforceBudget` | apps/Mobile/lib/frcImageCache.ts:883-904 | eviction takes unprotected entries oldest first, stops as soon as both limits hold, and otherwise leaves protected entries only |
| `ImageCache.FrcImageCache.FlushIndex` | apps/Mobile/lib/frcImageCache.ts:657-673 | the stored rows are the entries in order of use |
| `ImageCache.FrcImageCache.RestoreIndex` | apps/Mobile/lib/frcImageCache.ts:729-761 | the entries are the restored rows less what eviction needed, and what was counted twice is added to `drift` |
| `ImageCache.FrcImageCache.ReconcileIndexWithDirectory` | apps/Mobile/lib/frcImageCache.ts:800-840 | from the listing of the disk as it was, the entries become what it says of theirs, unclaimed files go, and only what the budget needs is evicted; if the directory cannot be listed nothing changes |
| `ImageCache.FrcImageCache.Reconcile` | apps/Mobile/lib/frcImageCache.ts:641-654 | once per session the index is restored if it was not, the partial files not in flight go, and index and directory agree where no image is there in two formats; the byte total gains no difference beyond the restore's, and no partial file in flight is deleted |
| `ImageCache.FrcImageCache.AdoptExact` | apps/Mobile/lib/frcImageCache.ts:488-503 | a file the index did not know is indexed with its size, or 0 if that cannot be read, and the budget is not enforced |
| `ImageCache.FrcImageCache.Peek` | apps/Mobile/lib/frcImageCache.ts:447-467 | the wanted variant, else a legacy image, else the widest narrower variant whose file exists |
| `ImageCache.FrcImageCache.EndFetch` | apps/Mobile/lib/frcImageCache.ts:511-565 | a finished download is handed on for its decode exactly if it is such an image and its size can be read; its partial file is left in flight with no owner exactly if it is such an image and the size cannot be read |
| `ImageCache.LeakedDownload` | apps/Mobile/lib/frcImageCache.ts:544-555 | a run that ends with such a file, after maintenance |
| `ImageCache.FrcImageCache.EndDecode` | apps/Mobile/lib/frcImageCache.ts:567-612 | for every outcome of deletion, move and size read: the image is indexed and within budget, or under its final name without an entry, or not there, with the earlier file of that name lost exactly if only the move failed; no other image goes but by eviction, and neither partial file stays in the cache's care |
| `ImageCache.LostImage` | apps/Mobile/lib/frcImageCache.ts:592-600 | a run in which a failed move loses the image it was to replace |
| `WarmSelection.SelectChatWarmMeasureIds` | apps/Mobile/lib/chatListEnterMount.ts:287-357 | the loops choose what offering slots greedily, round by round, comes to |
| `WarmSelection.FingerIsSelected` | apps/Mobile/lib/chatListEnterMount.ts:326-338 | between slides the finger's chat is selected however full the slots are, unless its window is closed or it gave its slot up |
| `WarmSelection.SelectionFits` | apps/Mobile/lib/chatListEnterMount.ts:306-333 | nobody is chosen twice, and no more than the limit, but for the finger's chat |
| `WarmSelection.CachedFirst` | apps/Mobile/lib/chatListEnterMount.ts:319-345 | while a cached chat waits, every selected chat but the finger's is cached |
| `WarmSelection.ColdStartsLast` | apps/Mobile/lib/chatListEnterMount.ts:341-346 | a chat that is not cached is newly selected only when every cached chat's window is closed, and never while its page is held |
| `WarmSelection.RetriesLast` | apps/Mobile/lib/chatListEnterMount.ts:347-355 | a chat that gave its slot up is selected only if every open cached chat that has not is |
| `WarmSelection.NoIdleSlot` | apps/Mobile/lib/chatListEnterMount.ts:326-340 | no slot is left over while an open cached chat on its first attempt is not selected |
| `WarmSelection.MountedOnce` | apps/Mobile/lib/chatListEnterMount.ts:514-534 | exactly the started chats of the list, the measured and the active one are mounted, each once |
| `WarmSelection.MeasuredOnTop` | apps/Mobile/lib/chatListEnterMount.ts:461-484 | slots are restacked without loss; with the host lowered one open slot is measured, on top of all others and covered by none, the active one if open; with the host raised none is |
| `WarmBench.PumpKeeps` | apps/Mobile/lib/chatPushTransition.ts:587-638 | a pump keeps the bench sound, takes nothing back, hands no slot out too often, and never fills the tree past five or what it was |
| `WarmBench.PumpPrefersCached` | apps/Mobile/lib/chatPushTransition.ts:587-638 | a pump touches a chat that is not cached only when the window of every cached chat of the list is closed |
| `WarmBench.PumpRetriesLast` | apps/Mobile/lib/chatPushTransition.ts:587-638 | after a second attempt is given, every open cached chat on its first is started, or the tree is full |
| `WarmBench.PumpLeavesNoneIdle` | apps/Mobile/lib/chatPushTransition.ts:587-638 | after a pump an open cached chat on its first attempt is started, or the tree or the selection is full |
| `WarmBench.SyncKeeps` | apps/Mobile/lib/chatPushTransition.ts:789-829 | following the list keeps what listed chats have reached, starts new ones afresh, and forgets the rest but the parked one |
| `WarmBench.ReportsMount` | apps/Mobile/lib/chatPushTransition.ts:925-933 | chats that gave their slot up all have windows for as long as, and only as long as, no other chat reports a passed deadline |
| `WarmBench.RetriesMount` | apps/Mobile/lib/chatPushTransition.ts:618-630 | a pump keeps that, and a second attempt then adds no window |
| `WarmBench.ChatWarmBench.PumpWarm` | apps/Mobile/lib/chatPushTransition.ts:587-638 | the loop over the selection yields the pumped bench, and the published slots are the started windows in list order |
| `WarmBench.ChatWarmBench.SyncChatWarmTargets` | apps/Mobile/lib/chatPushTransition.ts:789-829 | the order is the list without repetitions, then the parked chat; the entries are the synced ones, pumped |
| `WarmBench.ChatWarmBench.NotifyChatWarmWindowClosed` | apps/Mobile/lib/chatPushTransition.ts:912-919 | the window is closed for as long as the chat is tracked, and its slot is free for the next |
| `WarmBench.ChatWarmBench.NotifyChatWarmMeasureYielded` | apps/Mobile/lib/chatPushTransition.ts:925-933 | an open chat gives its slot up, and the queue is pumped |
| `WarmBench.ChatWarmBench.ParkChatPush` | apps/Mobile/lib/chatPushTransition.ts:1102-1137 | the tapped chat is parked, tracked and started, first in order if new; nothing else adds a window over the limit |
| `WarmBench.ChatWarmBench.RetainChatPushOffEdge` | apps/Mobile/lib/chatPushTransition.ts:702-721 | after the slide back the parked chat is closed and stays, and the queue is pumped |
| `WarmBench.ChatWarmBench.SetChatWarmAssemblyEnabled` | apps/Mobile/lib/chatPushTransition.ts:835-847 | the cold fallback is armed if and only if assembly is on and cold chats are not yet allowed |
| `SessionRecords.WrittenThenRead` | apps/Gov/lib/govSessionStore.ts:127-165 | a record with a safe revision and, if active, a cookie capability reads back as itself; any other reads as nothing |
| `SessionRecords.ReadIsProper` | apps/Gov/lib/govSessionStore.ts:199-207 | whatever the cell holds, what is read is such a record, and writing it back changes nothing |
| `SessionRecords.StepRaises` | apps/Gov/lib/govSessionStore.ts:219-246 | a mutation that succeeds raises the revision by exactly one and reads back as intended; any other leaves the cell alone |
| `SessionRecords.RevisionCounts` | apps/Gov/lib/govSessionStore.ts:219-246 | over any sequence of operations of any tabs the revision counts the successes |
| `SessionRecords.OneWinner` | apps/Gov/lib/govSessionStore.ts:298-323 | of all comparisons with one revision, by any tabs at any time, at most one succeeds |
| `SessionRecords.PassesIffUnchanged` | apps/Gov/lib/govSessionStore.ts:298-323 | a comparison with a snapshot passes its check if and only if nothing has succeeded since, and then the cell is the very same |
| `SessionRecords.TombstoneStands` | apps/Gov/lib/govSessionStore.ts:238-323 | after a successful sign-out no comparison with an older snapshot changes the cell |
| `SessionRecords.EveryRecordReadsBack` | apps/Gov/lib/govSessionStore.ts:199-211 | after any success the cell holds a proper record that reads back as itself |
| `SessionRecords.UndisturbedIsSerial` | apps/Gov/lib/govSessionStore.ts:298-323 | tabs between whose look and write nobody else acts do what they would one after another |
| `SessionRecords.DisturbedBothWin` | apps/Gov/lib/govSessionStore.ts:298-323 | two tabs that look at one revision before either writes both succeed, and one session is lost |
| `SessionRecords.RaisesIffUnbeaten` | apps/Gov/lib/govSessionStore.ts:298-323 | for every interleaving of looks and writes, each success raises the revision by one if and only if no success goes by a look another success has outdated |
| `SessionRecords.OneWinnerAmongTabs` | apps/Gov/lib/govSessionStore.ts:298-323 | where each success raises the revision by one, at most one comparison per revision succeeds |
| `SessionRecords.WinnersAreSerial` | apps/Gov/lib/govSessionStore.ts:298-323 | where no success is outdated, the cell is what the successes alone make of it, one after another |
| `SessionStore.GovSessionStore.SaveSession` | apps/Gov/lib/govSessionStore.ts:219-236 | saving is the operation `Save` on the shared cell, with its refusals, and each handler hears of it once exactly if it succeeded |
| `SessionStore.GovSessionStore.ClearSession` | apps/Gov/lib/govSessionStore.ts:238-246 | signing out writes the tombstone and clears the pending flag, and is silent without storage |
| `SessionStore.GovSessionStore.CompareAndSetSession` | apps/Gov/lib/govSessionStore.ts:298-313 | the method is the operation `CompareAndSet` on the shared cell, with its refusals in their order |
| `SessionStore.GovSessionStore.CompareAndClearSession` | apps/Gov/lib/govSessionStore.ts:314-323 | the method is the operation `CompareAndClear`, and clears the pending flag exactly if it succeeded |
| `SessionStore.GovSessionStore.ReadEffective` | apps/Gov/lib/govSessionStore.ts:213-217 | a session read out always has the cookie capability, never a token |

## Left out

- The audit's diagnostics beyond the format: banks conditioned on size and transform, `CoefficientSyntaxProbe`, histograms of modes, transforms and filter strengths, the sum of end positions. The sign bit is read and kept in the model although the audit ignores its value.
- Pixels: prediction, transforms, quantisation, filters, the encoder's choice of splits and modes. The encoder is modelled from a plane's syntax on.
- Lossless, palette and metadata files, other bitstream versions, decoding of the alpha section.
- The statistics around a replay: `scaled_freq`, `shannon_bits`, folds and aggregation. Priors are any well-formed tables.
- `SubscriberTaskQueue` itself: its limits, pauses and order by priority are covered by any choice of reactions, not modelled as such.
- `PipelineRuns.FirstDecodeIsAlone`: says nothing of a decode started again after an abandoned one, which may share its file with it.
- `PipelineRuns.RunEvents`: an event that cannot happen in the state reached is passed over, so a list of events stands for the run of those that can.
- Callbacks that call back into the pipeline or the buffer, and the gap of a microtask between a run's abort check and its settling.
- The cache's JSON text, its listeners, the purge of the legacy namespace, the native decoder and the parsing of image headers: a download is told to be an image or not. Deletions that fail are the set `stubborn`, listings that fail the fields `listable` and `sweepable`, moves and size reads that fail arguments of the methods.
- The slide and enter half of the chat transition: `MoveSlide` stands for whatever it does to the flags the bench reads. Chat ids are taken as already trimmed and lower-cased, and lists of ids are compared as lists, not joined by a separator.
- Real clocks and timers: timers are fields with a deadline, fired by a step.
- The session store's `storage` listener registration, unsubscribing a handler, and the Web Lock around refresh: other tabs' writes arrive as `OnStorage`.
- Cells written by something other than these stores: erasing the key resets the revision, and then an old snapshot may match again.
