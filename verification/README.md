# A Dafny model of a transformer runtime's stateful core

The project models the parts of the repository in which state is hard to keep straight, and proves what they promise
over every input, every run or every reachable state.

| files | what is modelled |
|---|---|
| `PagedPlan`, `PagedAddress`, `PagedLedger`, `PagedPool`, `PagedCache` | the transactional copy-on-write paged K/V cache: plan arithmetic, flat addressing, ledger, pool, append |
| `PagedLedgerProofs`, `PagedPoolProofs`, `PagedRuns`, `PagedFrame` | its invariants, exact rollback, refinement of plain lists over every script, cell-level copy-on-write frame |
| `NativePool`, `NativePoolProofs`, `NativeRuns`, `NativeCache` | the device variant: parked commit, poison flag, mirrored device page table, every launch allowed to fail; its answers over every script and fault are those of plain lists |
| `Execution`, `ExecutionSpec`, `ExecutionProofs`, `ExecutionRuns`, `ExecutionObject` | token-serial staged execution over the paged cache, call splitting, last-token selection, atomic batches |
| `ResourceOwner`, `ResourceObject` | the native resource-ownership state machine with its guard, both destructors and unwinding |
| `TensorNames`, `Qwen3Inventory`, `Qwen35Inventory` | tensor-inventory admission: counts, names, the lenient parser, maps, linear scans |
| `Logits`, `DescendingSort`, `Softmax`, `TopKProcessor`, `NucleusProcessor`, `DecodeChain` | logit processors, greedy sampling, whole chains |
| `HeadLayout`, `RecurrentArrangement` | head-layout adapters and the Q/K/V arrangement of the recurrence |
| `FlatCodec`, `FlatCache` | the flat byte cache and its little-endian codec |
| `Arith`, `Lists`, `Wrappers` | checked machine arithmetic, division by repeated subtraction, lists and slices, options and results |

Code that the repository writes as pure helpers is functions here. Objects that are updated in place are classes
(`PagedKvLedger`, `PagedKvPool`, `PagedAppend`, `NativePagedKvPool`, `NativePagedAppend`, `StagedExecution`,
`Qwen35Execution`, `Owner`, `InFlight`, `GreedyChain`, `FlatKvCache`), loops are loops, and logit rows are arrays. Each
class method of the cache, the execution and the owner is tied to a function of the old abstract value, and the
theorems over all runs are proved about those functions.

Modelling decisions that matter to a reader:

- Machine words are 64 bits. Checked arithmetic is written out (`CheckedAdd`, `CheckedMul`) and every refusal it can
  cause is a branch of the model; many of them are then shown unreachable.
- An `f32` stored in a cache is its bit pattern. Logits are exact reals with explicit NaN and infinities; the
  exponential is a parameter of which only positivity and strict monotonicity are used, and the greatest finite
  magnitude is a parameter that the temperature check compares against.
- Layer arithmetic (embedding, normalisation, projections, RoPE, attention, convolution, recurrence, feed-forward,
  the language-model head) is a record of deterministic partial functions; what is modelled is which rows and states
  they are given, in which order, and what happens when one refuses.
- Device kernels are writes to a memory indexed by layer, bundle and slot. A fault names the launch that fails and
  the arbitrary device contents it leaves behind.
- A guard's synchronisation, validation and commit may each succeed, fail or unwind. Whether the device still has
  work in flight is a ghost bit of the model.

What the proofs found out about the code:

- `qwen35_native.rs` (lines 138-143) keeps the whole bundle when a synchronisation fails, because that is no proof that
  the device is idle. A synchronisation that unwinds inside a destructor is no such proof either, yet it releases the
  resource. `BusyReleaseIff` gives the exact condition, `BusyReleaseExample` a run, and `ReleasedIdle` the promise for
  all runs without it.
- `heads_from_tokens` compares the planned length with the requested token count and not with the rows it finds;
  `PlannedIffEnoughRows` says exactly when the two agree, and `ShortInputAccepted` gives a short input that passes.
- A chain of processors in front of the greedy sampler can refuse a row that the bare sampler accepts, when a
  temperature below one overflows (`SmallTemperatureRefuses`). `SucceedsIffFits` tells beforehand, from the greatest
  magnitude and the temperatures, exactly which rows pass when the temperatures come first, and on rows whose greatest
  logit is greatest in magnitude for every order; `DocumentedChain` is the chain of the documentation. Whenever a chain
  succeeds, the chosen token is the one bare greedy sampling gives.
- `role_for_name` accepts non-canonical block numbers (`LenientNames`); only count, distinctness and coverage together
  make the Qwen3 inventory exact.

## Model

| member | source | states |
|---|---|---|
| `PagedPlan.AdmittedIff` | `crates/cache/src/paged.rs:87-187` | A plan is admitted exactly when every dimension is non-zero and the total of K/V, table, fill, free-stack and staging bytes fits a machine word; otherwise the first zero dimension or the overflow is named. An admitted plan has the rounded-up page count, one spare bundle and exactly those sizes. The tail-copy bytes are derived beside the total, and like every intermediate checked product they are no refusal of their own. |
| `PagedPlan.SelectIsCheapest` | `crates/cache/src/paged.rs:73-86` | `select` succeeds exactly when the dimensions are positive and the requests for pages of 8, 16 and 32 tokens all fit a word. It returns the page size with the fewest requested bytes, then the fewest tail-copy bytes, then the fewest tokens, written out over the byte counts. |
| `PagedPlan.BackingCovers` | `crates/cache/src/paged.rs:108-187` | The admitted total bounds the backing elements and every partial sum on the way to it. |
| `PagedPlan.TailBelowBundle` | `crates/cache/src/paged.rs:108-187` | The tail-copy byte chain is checked exactly, and its value never exceeds the bytes of one bundle. |
| `PagedAddress.SpanIff` | `crates/cache/src/paged.rs:572-646` | `span` succeeds exactly for coordinates of the plan whose rows stay on the page, and then names exactly the rows of that coordinate; every machine-arithmetic refusal inside it is unreachable for an admitted plan. |
| `PagedAddress.RowIndexInjective` | `crates/cache/src/paged.rs:572-646` | Two coordinates (bundle, layer, K or V, token) with the same flat row are the same coordinate. |
| `PagedAddress.RowIndexBound` | `crates/cache/src/paged.rs:572-646` | Every coordinate of the plan addresses a row inside the backing. |
| `PagedAddress.SpanInside` | `crates/cache/src/paged.rs:572-646` | The range of an accepted span lies inside the backing. |
| `PagedAddress.CopyRows` | `crates/cache/src/paged.rs:550-571` | Copying a run of rows replaces exactly the destination rows by the source rows, row by row. |
| `PagedAddress.OverwriteRow` | `crates/cache/src/paged.rs:767-779` | Writing one row changes that row and no other. |
| `PagedLedgerProofs.InitialSettled` | `crates/cache/src/paged.rs:230-247` | A new ledger satisfies the between-transactions invariant: empty table, zero counters, and every bundle free once with bundle 0 on top. |
| `PagedLedgerProofs.SpareSuffices` | `crates/cache/src/paged.rs:108-115` | Table and free stack together always hold one bundle more than the pages of the whole context. |
| `PagedLedgerProofs.BeginAdmits` | `crates/cache/src/paged.rs:249-308` | In every settled ledger a non-empty append within the context limit is admitted and opens; only the empty append and the context limit are ever refused, and refusing changes nothing. Capacity and preflight refusals are unreachable. |
| `PagedLedgerProofs.Preflight` | `crates/cache/src/paged.rs:249-300` | The pages an append needs, and one more for a partial tail, are always on the free stack. |
| `PagedLedgerProofs.ReserveOpens` | `crates/cache/src/paged.rs:284-342` | Reserving swaps a partial tail for a fresh bundle and adds empty pages, leaving exactly the state of an open append. |
| `PagedLedgerProofs.LocationOfOpen` | `crates/cache/src/paged.rs:394-445` | In an open append the next row of a layer is located on the page and slot of its position; layer, token and write-order are the only refusals. |
| `PagedLedgerProofs.RecordKeepsOpen` | `crates/cache/src/paged.rs:447-470` | Recording an accepted write never fails, keeps the open invariant, and advances only that layer and the fill of its page. |
| `PagedLedgerProofs.RollbackExact` | `crates/cache/src/paged.rs:375-392` | Rollback from any state of an open append gives back the settled ledger it was opened from, free-stack order included. |
| `PagedLedgerProofs.OpenInventory` | `crates/cache/src/paged.rs:1927-1947` | In an open append, table, free stack and held old tail contain each bundle exactly once. |
| `PagedLedgerProofs.IncompleteIff` | `crates/cache/src/paged.rs:353-365` | The completeness scan passes exactly when every layer staged the expected rows, and otherwise names the first layer that did not. |
| `PagedLedgerProofs.PublishSettles` | `crates/cache/src/paged.rs:367-373` | Publishing a complete append is settled again: inventory, table length and fills. |
| `PagedLedgerProofs.OpenTableDistinct` | `crates/cache/src/paged.rs:310-342` | All table entries of an open append are distinct bundles of the plan and none is the held old tail. |
| `PagedPoolProofs.CopyLayersRow` | `crates/cache/src/paged.rs:550-571` | The tail copy puts the filled rows of the old bundle into the replacement, layer by layer for K and V, and moves no other row; it never refuses. |
| `PagedPoolProofs.BeginStages` | `crates/cache/src/paged.rs:536-571` | After an admitted begin every layer still shows its committed rows, now through the replaced tail. |
| `PagedPoolProofs.WriteOutcome` | `crates/cache/src/paged.rs:720-782` | A layer write is refused exactly for row width, layer, token range or order, checked in that order, and a refused write changes nothing. |
| `PagedPoolProofs.WriteStages` | `crates/cache/src/paged.rs:720-782` | An accepted write appends its row to that layer and leaves every other row visible as before. |
| `PagedPoolProofs.DropRepresents` | `crates/cache/src/paged.rs:840-847` | Dropping restores the ledger exactly and the pool represents the rows it had before. |
| `PagedPoolProofs.CommitRepresents` | `crates/cache/src/paged.rs:799-838` | A commit succeeds exactly when all layers are complete, and then every layer holds its old rows followed by the written ones. |
| `PagedPoolProofs.CommittedRead` | `crates/cache/src/paged.rs:521-534` | Between transactions a row read gives exactly the listed row below the length and the visibility refusal from there on. |
| `PagedPoolProofs.StagedRead` | `crates/cache/src/paged.rs:784-906` | Inside an append a layer shows its committed rows followed by its own written prefix; every read below that length passes the fill and table checks, whatever the other layers have done. |
| `PagedPoolProofs.NewPoolRepresents` | `crates/cache/src/paged.rs:512-519` | A new pool represents empty layers. |
| `PagedRuns.StepRefines` | `crates/cache/src/paged.rs:503-907` | Every operation answers as the list specification does and keeps pool and lists related. |
| `PagedRuns.PoolIsAList` | `crates/cache/src/paged.rs:503-907` | Over every script of begin, write, read, prepare, commit and drop, the pool gives the same answers as plain lists of rows, one per layer. |
| `PagedRuns.ScanFindsShort` | `crates/cache/src/paged.rs:353-365` | The scan over the write counters finds the first layer whose list is not complete. |
| `PagedRuns.EveryRunKeepsInventory` | `crates/cache/src/paged.rs:229-392` | After every script each bundle occurs exactly once in table, free stack and held tail; when idle the table has the rounded-up page count and only the last page is partly filled. |
| `PagedFrame.OtherBundleUntouched` | `crates/cache/src/paged.rs:572-646` | Writing rows of one bundle changes no cell of another bundle. |
| `PagedFrame.WriteFrame` | `crates/cache/src/paged.rs:720-779` | A layer write changes no cell of a bundle that was committed when the append was opened. |
| `PagedFrame.TailCopyFrame` | `crates/cache/src/paged.rs:550-571` | The tail copy changes no cell outside the replacement bundle. |
| `PagedFrame.OpenRunFrames` | `crates/cache/src/paged.rs:718-827` | Any accepted or refused writes and reads of an open append leave every previously committed bundle unchanged, cell by cell. |
| `PagedFrame.AbandonedAppendIsInvisible` | `crates/cache/src/paged.rs:249-392` | Begin, then anything at all inside the append, then drop: the ledger is exactly the old one and no committed cell differs. |
| `PagedCache.PagedKvLedger.constructor` | `crates/cache/src/paged.rs:230-247` | The object starts in the initial ledger. |
| `PagedCache.PagedKvLedger.BeginAppend` | `crates/cache/src/paged.rs:249-308` | Step-by-step reservation with a page loop computes the specified reservation and new ledger. |
| `PagedCache.PagedKvLedger.ReplaceTailWithoutCopy` | `crates/cache/src/paged.rs:310-342` | Pops a bundle and swaps it into the table as specified. |
| `PagedCache.PagedKvLedger.TakeFree` | `crates/cache/src/paged.rs:344-351` | Pops the top of the free stack. |
| `PagedCache.PagedKvLedger.ValidateCommit` | `crates/cache/src/paged.rs:353-365` | The scanning loop reports the first incomplete layer. |
| `PagedCache.PagedKvLedger.PublishCommit` | `crates/cache/src/paged.rs:367-373` | Moves the committed count and returns the held tail to the free stack. |
| `PagedCache.PagedKvLedger.Rollback` | `crates/cache/src/paged.rs:375-392` | The popping loop and tail restoration compute the specified rollback. |
| `PagedCache.PagedKvLedger.WriteLocation` | `crates/cache/src/paged.rs:394-445` | Locates a row or refuses as specified, without changing the ledger. |
| `PagedCache.PagedKvLedger.RecordWrite` | `crates/cache/src/paged.rs:447-470` | Raises the fill and the layer position as specified. |
| `PagedCache.PagedKvPool.constructor` | `crates/cache/src/paged.rs:512-519` | The pool starts zeroed over an initial ledger. |
| `PagedCache.PagedKvPool.BeginAppend` | `crates/cache/src/paged.rs:536-549` | Reserves, copies the tail in place, rolls back if the copy is refused, and hands out an append over the same pool. |
| `PagedCache.PagedKvPool.CopyTail` | `crates/cache/src/paged.rs:550-571` | The layer loop copies K and V rows in place as specified. |
| `PagedCache.PagedKvPool.Row` | `crates/cache/src/paged.rs:870-906` | The checked row read of a layer view gives the specified row or refusal. |
| `PagedCache.PagedAppend.WriteLayerRow` | `crates/cache/src/paged.rs:720-731` | Checks, copies K then V in place and records the write, as specified. |
| `PagedCache.PagedAppend.VisibleTokens` | `crates/cache/src/paged.rs:472-489` | Committed tokens plus the rows this layer has staged. |
| `PagedCache.PagedAppend.PrepareCommit` | `crates/cache/src/paged.rs:799-802` | Refuses an incomplete append and rolls it back, else keeps it staged. |
| `PagedCache.PagedAppend.Publish` | `crates/cache/src/paged.rs:829-838` | Publishes the append; its later drop does nothing. |
| `PagedCache.PagedAppend.Drop` | `crates/cache/src/paged.rs:840-847` | Rolls back unless the append was committed. |
| `NativePoolProofs.PreparedDevice` | `crates/cache/src/paged.rs:1251-1301` | Preparing the device copies the tail and mirrors every new page. It fails exactly when one of its launches fails: two for a replaced tail, one for each new page; afterwards the device table agrees with the host on all live pages. |
| `NativePoolProofs.DeviceRowSurvivesWrite` | `crates/cache/src/paged.rs:1325-1396` | Appending one row to device memory leaves every other visible row in place. |
| `NativePoolProofs.WriteRowsKeeps` | `crates/cache/src/paged.rs:1325-1396` | Staging a whole layer is staging its rows one by one; a refusal before the first launch changes nothing, one after a launch poisons. |
| `NativePoolProofs.BeginKeeps` | `crates/cache/src/paged.rs:1191-1213` | Opening an append keeps the invariant, and a failed launch rolls the ledger back and poisons the pool. |
| `NativePoolProofs.CommitKeeps` | `crates/cache/src/paged.rs:1229-1234` | Publishing a parked reservation gives a settled ledger whose device rows are the old rows followed by the staged ones. |
| `NativePoolProofs.StepKeeps` | `crates/cache/src/paged.rs:1191-1302` | One command with any launch failing: the invariant is kept, the committed count moves only in `commit_prepared_after_completion`, and poison stays and publishes nothing. |
| `NativePoolProofs.RunKeeps` | `crates/cache/src/paged.rs:1191-1524` | The invariant over every script; a poisoned pool stays poisoned and its published ledger never changes again. |
| `NativePoolProofs.EveryNativeRun` | `crates/cache/src/paged.rs:1085-1524` | From a new pool, after every script: unpoisoned means device table mirrors host table; a parked reservation means unpoisoned and complete; without an open or parked append the ledger is the last published one, also when poisoned. |
| `NativeRuns.NativePoolIsAList` | `crates/cache/src/paged.rs:1085-1524` | Over every script and every choice of failing launches, each answer of a native pool, success or named refusal, is the one plain lists give. In particular an open healthy append whose layers are all complete is parked, a parked one commits, a layer is staged from any two buffers with enough scalars, and a begin, a row or a layer fails exactly when one of its launches does. While the pool is not poisoned the device holds exactly the listed rows. |
| `NativeRuns.StepAnswers` | `crates/cache/src/paged.rs:1085-1524` | One command gives the answer of the lists and related states again. |
| `NativeRuns.BeginAnswers` | `crates/cache/src/paged.rs:1191-1301` | Beginning refuses, poisons or opens exactly as the lists decide from the length, the context and the number of launches. |
| `NativeRuns.RowAnswers` | `crates/cache/src/paged.rs:1413-1458` | A row is appended, refused in the order layer, token range, write order, or poisons because its launch fails or its width is wrong; each case exactly. |
| `NativeRuns.LayerAnswers` | `crates/cache/src/paged.rs:1325-1396` | A layer is staged exactly when both buffers have enough scalars, the layer exists, nothing was written to it and none of its launches fails; every other case has its named answer. |
| `NativeRuns.EndAnswers` | `crates/cache/src/paged.rs:1488-1524` | Preparing parks a complete healthy append and otherwise drops it with the first short layer or the poison; dropping poisons. |
| `NativeRuns.LaunchesAre` | `crates/cache/src/paged.rs:1251-1301` | The launches of an opening, counted from tokens and page size alone. |
| `NativeRuns.OpeningCopies` | `crates/cache/src/paged.rs:1251-1301` | Opening copies exactly the filled slots of a partial tail, for every layer, to the bundle that now backs the tail page, and changes no other device cell. |
| `NativeCache.NativePagedKvPool.BeginAppend` | `crates/cache/src/paged.rs:1191-1213` | Refuses parked and poisoned pools, reserves, prepares the device and hands out an append, as specified for every fault. |
| `NativeCache.NativePagedKvPool.PrepareDeviceAppend` | `crates/cache/src/paged.rs:1251-1301` | The page loop of table writes computes the specified device state. |
| `NativeCache.NativePagedKvPool.CommitPreparedAfterCompletion` | `crates/cache/src/paged.rs:1229-1234` | Takes the parked reservation and publishes it. |
| `NativeCache.NativePagedAppend.WriteLayerRow` | `crates/cache/src/paged.rs:1413-1458` | Poisons before the launch result is known and records the row, as specified. |
| `NativeCache.NativePagedAppend.WriteLayerRows` | `crates/cache/src/paged.rs:1325-1396` | The row loop stages a layer as specified. |
| `NativeCache.NativePagedAppend.PrepareCommit` | `crates/cache/src/paged.rs:1488-1500` | Parks a complete reservation, refuses an incomplete one. |
| `NativeCache.NativePagedAppend.Drop` | `crates/cache/src/paged.rs:1513-1524` | Rolls back and poisons when the reservation was not parked. |
| `ExecutionSpec.TokensSplit` | `crates/decoders/src/qwen35_execution.rs:332-417` | Reading tokens `a + b` is reading `a` and then `b` from the state and rows `a` left. |
| `ExecutionSpec.RefusalSplits` | `crates/decoders/src/qwen35_execution.rs:224-246` | Admission of a joint call is admission of both parts and the joint step bounds. |
| `ExecutionSpec.StepSplits` | `crates/decoders/src/qwen35_execution.rs:210-222` | A joint call succeeds exactly when both parts do and the joint batch is within the step bounds; logits, recurrent state, rows and position then agree. |
| `ExecutionSpec.LastTokenStep` | `crates/decoders/src/qwen35_execution.rs:404-413` | Where an all-token call succeeds, the last-token call succeeds in the same state with its final row. |
| `ExecutionSpec.TokensLogits` | `crates/decoders/src/qwen35_execution.rs:391-412` | The logits of a specified call are the projections of the normalised block outputs, one for every token or one for the last. |
| `ExecutionProofs.FullAttentionIs` | `crates/decoders/src/qwen35_execution.rs:542-716` | A full-attention layer inside an open append never fails its write-order check or its visible-token check, and attends over the committed rows, this layer's earlier rows and the row just written. |
| `ExecutionProofs.MixRefines` | `crates/decoders/src/qwen35_execution.rs:349-381` | One layer, recurrent or cached, does to staging what the specification does to lists. |
| `ExecutionProofs.BlocksRefine` | `crates/decoders/src/qwen35_execution.rs:349-383` | All layers of one token, with the cached layers at different positions of the append on the way. |
| `ExecutionProofs.TokensRefine` | `crates/decoders/src/qwen35_execution.rs:332-417` | The whole token loop computes the specified logits, states and rows, or stops with the kernel's refusal. |
| `ExecutionProofs.CompletePrepares` | `crates/decoders/src/qwen35_execution.rs:332-417` | After the token loop every layer is complete, so preparing the commit cannot be refused, and publishing gives exactly the specified rows. |
| `ExecutionProofs.StageRefines` | `crates/decoders/src/qwen35_execution/batch.rs:184-211` | A staged member either refuses and leaves its session unchanged, or can be both dropped without trace and published with the specified result. |
| `ExecutionProofs.StepRefines` | `crates/decoders/src/qwen35_execution.rs:210-222` | `step` over pages returns what the page-free specification returns; a refused step leaves layers, position, ledger and rows as they were. |
| `ExecutionRuns.BuildHolds` | `crates/decoders/src/qwen35_execution.rs:140-186` | A freshly built session satisfies the invariant with empty rows. |
| `ExecutionRuns.BuildIs` | `crates/decoders/src/qwen35_execution.rs:140-186` | A session is built exactly when its step bound is positive and within the context and the cache it needs can be planned. Every `interval`-th block, counted from one, owns the next cache layer, every other block starts from its own state; position zero, new pool. |
| `ExecutionRuns.CallsRefine` | `crates/decoders/src/qwen35_execution.rs:210-222` | Any sequence of calls, refused or not, gives the specified results and keeps the invariant. |
| `ExecutionRuns.SessionsMeanFolds` | `crates/decoders/src/qwen35_execution.rs:140-222` | Every life of a built session answers as the page-free fold over its calls. |
| `ExecutionRuns.PagedStepSplits` | `crates/decoders/src/qwen35_execution.rs:210-222` | If the paged joint step succeeds, the two paged part steps succeed with the same logits, recurrent layers, position and abstract rows, although the pages differ. |
| `ExecutionRuns.PagedLogits` | `crates/decoders/src/qwen35_execution.rs:391-412` | Over pages: the row a successful call returns for a token is `head(normalize(h))` for the vector `h` the blocks leave for that token, for all tokens and for the last one. |
| `ExecutionRuns.PagedLastToken` | `crates/decoders/src/qwen35_execution.rs:404-413` | Over pages: where the all-token call succeeds, the last-token call from the same session succeeds with its final row and ends in the same layers, position and abstract rows. |
| `ExecutionRuns.PackedPlanIs` | `crates/kernels/src/packed_prefill.rs:33-95` | A packed geometry is accepted exactly when there are sequences, none is empty, each ends within the context, and one scalar for each token can be laid out in memory. |
| `ExecutionRuns.BatchAdmitted` | `crates/decoders/src/qwen35_execution/batch.rs:40-101` | When a batch is planned: one session per member and at least one, every member non-empty, within its step and context bounds and its vocabulary, with the first member's digest and length, and not too many tokens for one allocation. Otherwise the first refused member gives its error. |
| `ExecutionRuns.BatchIsAtomic` | `crates/decoders/src/qwen35_execution/batch.rs:128-173` | A batch succeeds exactly when it is not empty, all members have the same content, the tokens are not too many for one allocation and every member's own call would succeed; then each member gets its own result and state, and otherwise every member is left as it was. |
| `ExecutionObject.StagedExecution.FullAttention` | `crates/decoders/src/qwen35_execution.rs:542-716` | The write-then-read skeleton over the live append computes the specified staging. |
| `ExecutionObject.StagedExecution.Mix` | `crates/decoders/src/qwen35_execution.rs:349-381` | One layer over the object's fields. |
| `ExecutionObject.StagedExecution.RunBlocks` | `crates/decoders/src/qwen35_execution.rs:349-383` | The layer loop over the object's fields. |
| `ExecutionObject.StagedExecution.RunTokens` | `crates/decoders/src/qwen35_execution.rs:341-417` | The token loop collecting logits. |
| `ExecutionObject.StagedExecution.StepStaged` | `crates/decoders/src/qwen35_execution.rs:332-417` | Positions, the logit-size check and the token loop, as specified. |
| `ExecutionObject.ReadRows` | `crates/decoders/src/qwen35_execution.rs:986-1000` | The row-reading loop collects exactly the rows of the layer view or its refusal. |
| `ExecutionObject.Qwen35Execution.Step` | `crates/decoders/src/qwen35_execution.rs:210-222` | Stage over clones, prepare, publish; every refusal drops the append. Equal to the specified step. |
| `ResourceOwner.CompleteKeeps` | `crates/decoders/src/qwen35_native.rs:175-204` | Completion succeeds exactly when the work was submitted and synchronisation, validation and commit all succeed; the owner is ready exactly after success or an unsubmitted refusal; with known-idle states the device is idle. |
| `ResourceOwner.CompletionEnds` | `crates/decoders/src/qwen35_native.rs:175-204` | The phase and the result of a completion, case by case over what the three calls do: ready after success, idle poison after a finished synchronisation, uncertain poison without one. |
| `ResourceOwner.CompletionCalls` | `crates/decoders/src/qwen35_native.rs:175-204` | The calls a completion makes, in order, up to the first one that does not succeed, and the destructor's own synchronisation after it. |
| `ResourceOwner.AbandonedGuardEnds` | `crates/decoders/src/qwen35_native.rs:247-261` | The phase a dropped guard leaves: ready without submitted work, otherwise by the result of its synchronisation. |
| `ResourceOwner.BeginsWhenReady` | `crates/decoders/src/qwen35_native.rs:95-107` | A guard is handed out exactly from the ready phase. |
| `ResourceOwner.EveryOwnerEnds` | `crates/decoders/src/qwen35_native.rs:119-146` | Over every life: dropping the owner retains the resource exactly when the phase is uncertain and the synchronisation fails, and releases it in every other phase and outcome; taking the resource out does neither. |
| `ResourceOwner.StepKeeps` | `crates/decoders/src/qwen35_native.rs:88-261` | Every operation and destructor keeps the invariant that ties phase, guard and device. |
| `ResourceOwner.DisciplineMeans` | `crates/decoders/src/qwen35_native.rs:175-204` | What the log discipline says of each commit and each pair of commits. |
| `ResourceOwner.EveryLifeIsDisciplined` | `crates/decoders/src/qwen35_native.rs:88-261` | Over every life, each commit comes immediately after a successful validation, itself immediately after a successful synchronisation, and between two commits a new guard was begun. |
| `ResourceOwner.BusyReleaseIff` | `crates/decoders/src/qwen35_native.rs:129-146` | An ordinary release while the device is busy happens exactly when a destructor's own synchronisation unwinds over submitted work. |
| `ResourceOwner.BusyReleaseExample` | `crates/decoders/src/qwen35_native.rs:234-261` | A concrete life in which that happens. |
| `ResourceOwner.ReleasedIdle` | `crates/decoders/src/qwen35_native.rs:88-146` | Over every life in which no destructor's synchronisation unwinds while the device is busy, an ordinary release only happens when the device is idle; otherwise the bundle is retained or handed out. |
| `ResourceOwner.PoisonIsAbsorbing` | `crates/decoders/src/qwen35_native.rs:62-107` | After poisoning, nothing is committed again and the phase never changes until the owner is gone. |
| `ResourceObject.Owner.Begin` | `crates/decoders/src/qwen35_native.rs:95-107` | Hands out a guard exactly from the ready state. |
| `ResourceObject.Owner.Drop` | `crates/decoders/src/qwen35_native.rs:129-146` | Synchronises a resource that may have work in flight, retains it if that fails, and releases it otherwise. |
| `ResourceObject.Owner.IntoResource` | `crates/decoders/src/qwen35_native.rs:119-126` | Takes the resource out of the owner in whatever phase, without its ordinary release. |
| `ResourceObject.InFlight.FinishAfterSubmission` | `crates/decoders/src/qwen35_native.rs:234-244` | Idle or uncertain poison by the synchronisation result, also while unwinding. |
| `ResourceObject.InFlight.Complete` | `crates/decoders/src/qwen35_native.rs:175-204` | Synchronise, validate, commit, restore; each failure poisons as specified. |
| `ResourceObject.InFlight.Drop` | `crates/decoders/src/qwen35_native.rs:247-261` | Restores unsubmitted work and settles submitted work. |
| `BlockCadence.CadenceCount` | `crates/decoders/src/qwen35.rs:352-402` | Counting every interval-th block one by one gives the closed form. |
| `TensorNames.ParsePrinted` | `crates/decoders/src/qwen3.rs:746-763` | The lenient name parser reads every printed block name back to its number and role. |
| `TensorNames.BlockNameInjective` | `crates/decoders/src/qwen35.rs:761-763` | Printed block names determine block number and role. |
| `TensorNames.LenientNames` | `crates/decoders/src/qwen3.rs:753-757` | The parser also accepts `blk.00.` and `blk.+1.` names, which are not the printed ones. |
| `Qwen3Inventory.CanonicalRole` | `crates/decoders/src/qwen3.rs:746-763` | `role_for_name` of every canonical name is its own role. |
| `Qwen3Inventory.CanonicalDistinct` | `crates/decoders/src/qwen3.rs:1017-1019` | No canonical name occurs twice. |
| `Qwen3Inventory.ExpectedCountIs` | `crates/decoders/src/qwen3.rs:626-640` | The checked count is the size of the canonical inventory, or refused when that does not fit. |
| `Qwen3Inventory.CoveredIsExact` | `crates/decoders/src/qwen3.rs:650-721` | Exact count, distinct names, admitted descriptors and full coverage leave only the canonical inventory. |
| `Qwen3Inventory.FirstMissing` | `crates/decoders/src/qwen3.rs:691-720` | The coverage walk finds nothing missing exactly when every canonical name was found. |
| `Qwen3Inventory.ValidateInventory` | `crates/decoders/src/qwen3.rs:621-758` | Accepted exactly when the tensors are, each once and nothing else, the embedding, the final norm, the rank head where asked for, and for every block the eleven named tensors with their dimensions and storage written out: Q, K, V, gate and up read the hidden width, the attention output reads what Q writes, down reads what gate and up write, both write the hidden width, norms are F32. The two count refusals are exact. |
| `Qwen3Inventory.ExactIsComplete` | `crates/decoders/src/qwen3.rs:621-758` | The role tables generate exactly the inventory that is written out. |
| `Qwen3Inventory.RecognisedNames` | `crates/decoders/src/qwen3.rs:746-763` | A name has a role exactly when it is a global, the rank head where asked for, or parses to a block below the count and one of eleven roles. |
| `Qwen35Inventory.CountIsInventory` | `crates/decoders/src/qwen35.rs:360-398` | The closed-form tensor count is the size of the generated inventory, or refused exactly when that does not fit. |
| `Qwen35Inventory.InventoryDistinct` | `crates/decoders/src/qwen35.rs:740-763` | No generated name occurs twice, so an insertion never replaces an entry. |
| `Qwen35Inventory.AddTemplates` | `crates/decoders/src/qwen35.rs:740-759` | Inserting one slice binds exactly its names to their checked shapes on top of the entries before, and is refused exactly when a shape overflows. |
| `Qwen35Inventory.AddBlock` | `crates/decoders/src/qwen35.rs:691-738` | One stored block, common slice first, adds exactly its entries. |
| `Qwen35Inventory.ExpectedTensors` | `crates/decoders/src/qwen35.rs:680-723` | The generated map binds exactly the inventory; it is refused exactly when the count or a shape overflows. |
| `Qwen35Inventory.AllTaken` | `crates/decoders/src/qwen35.rs:646-677` | After as many removals as the inventory has entries the map is empty and the descriptors are the inventory. |
| `Qwen35Inventory.ValidateTensorInventory` | `crates/decoders/src/qwen35.rs:633-678` | Accepted exactly when the tensors are, each once and nothing else, three globals and the tensors of every main and next-token block by its place in the cadence, with names and dimensions written out. Wrong count and overflow are characterised over the dimensions; the trailing missing-tensor branch is shown unreachable. |
| `Qwen35Inventory.ExactIsComplete` | `crates/decoders/src/qwen35.rs:544-600` | The templates and checked shapes generate exactly the inventory that is written out. |
| `Qwen35Inventory.ShapedIffFits` | `crates/decoders/src/qwen35.rs:404-450` | All shapes can be computed exactly when every width that some block of the model needs is a machine word. |
| `Logits.BestIsArgmax` | `crates/decode/src/lib.rs:77-88` | The greedy index is the only lowest index of a greatest logit. |
| `Logits.BestIsFirstGreatest` | `crates/decode/src/lib.rs:77-88` | The scan finds the index before which every logit is smaller and after which none is greater. |
| `Logits.ValidateLogits` | `crates/decode/src/validation.rs:10-36` | Passes exactly the rows without NaN or positive infinity and with a finite logit; the first offender, the empty row and the fully masked row are reported exactly. |
| `Logits.Greedy` | `crates/decode/src/lib.rs:77-88` | The token is the index of the first greatest logit of the row; a row is refused for its first NaN or positive infinity, for being empty or fully masked, and otherwise exactly when that index exceeds 32 bits. |
| `Softmax.ProbabilitiesOf` | `crates/decode/src/processors.rs:297-319` | Succeeds exactly on valid rows with the softmax of the row; the masked-sum refusal cannot fire. |
| `Softmax.ProbabilitiesOrder` | `crates/decode/src/processors.rs:297-319` | Probabilities keep the strict order of logits, and exactly the masked ones are zero. |
| `Softmax.MassAll` | `crates/decode/src/processors.rs:297-319` | The whole row carries probability one. |
| `Softmax.ProbabilitiesProportional` | `crates/decode/src/processors.rs:297-319` | Any two probabilities are in the ratio of the exponentials of their logits. |
| `DescendingSort.SortedSorts` | `crates/decode/src/processors.rs:107-107` | The stable sort is a descending permutation of its input. |
| `TopKProcessor.KeepTopK` | `crates/decode/src/processors.rs:94-114` | In place, a logit stays exactly when fewer than `k` logits are strictly greater; a refusal leaves the row unchanged. |
| `TopKProcessor.ThresholdRank` | `crates/decode/src/processors.rs:104-112` | A logit is below the `k`-th sorted value exactly when at least `k` logits exceed it. |
| `TopKProcessor.TopKMeans` | `crates/decode/src/processors.rs:94-114` | A logit survives with its value exactly when fewer than `k` indices of the row hold a greater one, counted as a set; every other logit is masked. |
| `TopKProcessor.TopKLeavesEnough` | `crates/decode/src/processors.rs:94-114` | At least `min(k, unmasked)` candidates remain unmasked. |
| `TopKProcessor.SurvivorsAreGreater` | `crates/decode/src/processors.rs:94-114` | Every unmasked survivor is strictly greater than everything dropped, so ties survive together. |
| `NucleusProcessor.KeepPrefix` | `crates/decode/src/processors.rs:144-156` | The accumulating loop keeps exactly the shortest ranked prefix whose mass reaches `p`. |
| `NucleusProcessor.KeepNucleus` | `crates/decode/src/processors.rs:133-163` | In place, a logit of the nucleus keeps its value and everything outside is masked; `p = 1` changes nothing; a refusal leaves the row unchanged. |
| `NucleusProcessor.PrefixIsHeaviest` | `crates/decode/src/processors.rs:144-156` | No index set outweighs the ranked prefix of its own size. |
| `NucleusProcessor.NucleusIsMinimal` | `crates/decode/src/processors.rs:133-163` | For `p < 1` the kept set carries at least the fraction `p`, and every non-empty index set that does has at least as many elements. |
| `NucleusProcessor.NucleusIsTop` | `crates/decode/src/processors.rs:144-156` | Whatever is kept is at least as probable as whatever is dropped. |
| `NucleusProcessor.BestIsFirst` | `crates/decode/src/processors.rs:144-144` | The first-ranked index is the greedy choice, because ties are ranked in index order. |
| `NucleusProcessor.TiesKeptInOrder` | `crates/decode/src/processors.rs:144-156` | Of two equally probable tokens the one with the lower index is kept first. |
| `DecodeChain.ScaleTemperature` | `crates/decode/src/processors.rs:44-61` | All quotients are checked before any is stored: refused at the first one that leaves the finite range, else every logit is divided. |
| `DecodeChain.KeepMinP` | `crates/decode/src/processors.rs:181-196` | In place, a logit survives exactly when its weight relative to the peak is at least `p` of the peak's; the softmax sum cancels; `p = 0` changes nothing. |
| `DecodeChain.MinPMeans` | `crates/decode/src/processors.rs:181-196` | A finite logit survives exactly when `p` is zero or its exponential, relative to the greatest logit, is at least `p` times that of the greatest one. |
| `DecodeChain.OneProcessor` | `crates/decode/src/chain.rs:74-81` | What a chain of one processor leaves of a row, processor by processor. |
| `DecodeChain.OneTemperature` | `crates/decode/src/processors.rs:44-61` | A temperature refuses exactly when some quotient leaves the finite range, and names the first such logit. |
| `DecodeChain.ChainSplits` | `crates/decode/src/chain.rs:74-81` | A chain is its processors in order: the longer one goes on from the row the shorter one leaves, and an earlier refusal is the refusal. |
| `DecodeChain.ProcessorKeepsBest` | `crates/decode/src/processors.rs:44-196` | Each of the four processors keeps a valid row valid, keeps its greedy choice and never unmasks a token. |
| `DecodeChain.ChainKeepsBest` | `crates/decode/src/chain.rs:74-81` | Any list of processors keeps validity, greedy choice and masks; the only refusal is a temperature overflow. |
| `DecodeChain.SmallTemperatureRefuses` | `crates/decode/src/processors.rs:47-55` | A concrete row that bare greedy accepts and a chain with temperature one half refuses. |
| `DecodeChain.FittingChainSucceeds` | `crates/decode/src/chain.rs:74-81` | Whatever the masks and their order, a chain succeeds if the greatest magnitude of the row stays in the finite range through its temperatures. |
| `DecodeChain.PeakOverflowRefuses` | `crates/decode/src/chain.rs:74-81` | The greatest logit survives every mask, so any chain whose temperatures take it out of the range is refused. |
| `DecodeChain.LeadingOverflowRefuses` | `crates/decode/src/chain.rs:74-81` | With temperatures before the masks, any logit that a temperature takes out of the range refuses the chain. |
| `DecodeChain.SucceedsIffFits` | `crates/decode/src/chain.rs:74-81` | From the row and the temperatures alone: a chain whose temperatures precede its masks, or any chain on a row whose greatest logit is greatest in magnitude, succeeds exactly when the greatest magnitude stays in the finite range at every temperature. |
| `DecodeChain.DocumentedChain` | `crates/decode/src/chain.rs:9-18` | The documented chain (temperature 0.8, top-k 50, top-p 0.95) succeeds exactly on rows whose greatest magnitude is at most 0.8 of the greatest finite one. |
| `DecodeChain.ChainSucceeds` | `crates/decode/src/chain.rs:74-81` | A corollary: with temperatures of at least one, no chain refuses a valid row. |
| `DecodeChain.MaskDecides` | `crates/decode/src/chain.rs:74-81` | Two chains with the same temperatures on the same row, of which only the one that masks first succeeds: behind a mask, temperatures and magnitudes do not decide. |
| `DecodeChain.GreedyChain.Push` | `crates/decode/src/chain.rs:54-57` | Appends a processor. |
| `DecodeChain.GreedyChain.Process` | `crates/decode/src/processors.rs:44-196` | Dispatch over the live array computes the specified row or refuses without changing it. |
| `DecodeChain.GreedyChain.Step` | `crates/decode/src/chain.rs:74-81` | Over the live array: the token is the index of the first greatest logit of the original row, refused exactly beyond 32 bits; the validations between processors never fail, and masked tokens stay masked. |
| `HeadLayout.HeadsFromTokens` | `crates/decoders/src/qwen35_recurrent.rs:1171-1210` | Succeeds exactly when the planned length is right and the head range lies inside the channels; the result is the head-major rearrangement of the rows present. |
| `HeadLayout.FromTokensCell` | `crates/decoders/src/qwen35_recurrent.rs:1190-1208` | Row `t` of head `h` is the claimed channel range of token `t`, at any channel offset. |
| `HeadLayout.PlannedIffEnoughRows` | `crates/decoders/src/qwen35_recurrent.rs:1190-1209` | The result has the planned length exactly when the input holds every requested row: a short input is not refused. |
| `HeadLayout.RowsTakenIs` | `crates/decoders/src/qwen35_recurrent.rs:1190-1194` | The rows rearranged are the whole rows present, at most the requested number. |
| `HeadLayout.ShortInputAccepted` | `crates/decoders/src/qwen35_recurrent.rs:1190-1209` | One row where two are planned: the conditions for acceptance hold and the result has half the planned elements. |
| `HeadLayout.HeadsToTokens` | `crates/decoders/src/qwen35_recurrent.rs:1244-1282` | Succeeds exactly when the planned length is right and the values cover all heads; the result is the token-major rearrangement. |
| `HeadLayout.ToTokensCell` | `crates/decoders/src/qwen35_recurrent.rs:1259-1281` | Head range `h` of token row `t` is row `t` of head `h`. |
| `HeadLayout.RoundTrip` | `crates/decoders/src/qwen35_recurrent.rs:1171-1282` | `heads_to_tokens` undoes `heads_from_tokens` at offset zero and full width, for all dimensions. |
| `HeadLayout.TileKeyHeads` | `crates/decoders/src/qwen35_recurrent.rs:1212-1242` | Succeeds exactly when the planned length is right and every source head used is present. |
| `HeadLayout.TiledHead` | `crates/decoders/src/qwen35_recurrent.rs:1227-1241` | After tiling, value head `v` holds exactly key head `v % keyHeads`. |
| `RecurrentArrangement.SlicesPartition` | `crates/decoders/src/qwen35_recurrent.rs:638-655` | The Q, K and V ranges partition a convolution row: every channel of every head has one place and every place one channel. |
| `RecurrentArrangement.L2Heads` | `crates/decoders/src/qwen35_recurrent.rs:1131-1165` | Cuts and normalises head row by head row; refused exactly for a wrong plan or a row that cannot be normalised. |
| `RecurrentArrangement.NormalCell` | `crates/decoders/src/qwen35_recurrent.rs:1131-1165` | A normalised row of a head is the normalised channel range of that token and head. |
| `RecurrentArrangement.Arrange` | `crates/decoders/src/qwen35_recurrent.rs:480-539` | Every value head reads, for every token, its own V channels and the normalised Q and K channels of key head `h % keyHeads`; with the planned counts only a row that cannot be normalised is refused. |
| `RecurrentArrangement.ArrangedReads` | `crates/decoders/src/qwen35_recurrent.rs:518-538` | The composition of cutting, normalising and tiling, cell range by cell range. |
| `FlatCodec.DecodeEncode` | `crates/cache/src/flat.rs:461-505` | Little-endian decoding undoes encoding for every width. |
| `FlatCodec.EncodeDecode` | `crates/cache/src/flat.rs:549-605` | Encoding undoes decoding of any bytes. |
| `FlatCodec.EncodedByte` | `crates/cache/src/flat.rs:461-505` | Byte `i` of an encoded element is its `i`-th base-256 digit, the least significant first. |
| `FlatCodec.EncodedAt` | `crates/cache/src/flat.rs:492-505` | Element `j` of a buffer occupies the bytes from `j` widths on. |
| `FlatCodec.DecodeEncodeAll` | `crates/cache/src/flat.rs:492-605` | A whole buffer of elements survives the round trip bit for bit. |
| `FlatCodec.DecodeChunks` | `crates/cache/src/flat.rs:536-605` | The chunk loop decodes every whole chunk and refuses exactly a wrong element count. |
| `FlatCache.NewLayoutIff` | `crates/cache/src/flat.rs:59-106` | A geometry is accepted exactly when no dimension is zero and all K and V buffers together can be addressed; the intermediate checked products refuse nothing else. |
| `FlatCache.NewLayoutChecked` | `crates/cache/src/flat.rs:59-144` | Accepted geometry has the row and buffer sizes of its dtype: 4, 2 or 1 byte per element, two elements to a byte for I4 rounded up. A refusal is a zero dimension or an overflow. |
| `FlatCache.FormatsAre` | `crates/cache/src/flat.rs:461-529` | The dtypes that can be marshalled, and the bit patterns one element of each has. |
| `FlatCache.SpanInBuffer` | `crates/cache/src/flat.rs:146-191` | With checked geometry an append is refused exactly beyond the maximum length; accepted spans start at the end of the rows so far and stay inside the buffer. |
| `FlatCache.AppendHolds` | `crates/cache/src/flat.rs:361-386` | Copying encoded rows behind the rows held keeps them and adds the new ones. |
| `FlatCache.ReadHolds` | `crates/cache/src/flat.rs:407-443` | Decoding the first `n` rows of a buffer gives the first `n` rows written. |
| `FlatCache.SinceReset` | `crates/cache/src/flat.rs:454-458` | What a run leaves depends only on what follows its last reset. |
| `FlatCache.TensorAsBytes` | `crates/cache/src/flat.rs:255-308` | Accepts exactly CPU tensors of the cache's dtype and row width, with their row count and encoding. |
| `FlatCache.TensorFromBytes` | `crates/cache/src/flat.rs:507-529` | Decodes exactly F32, F16, BF16, I32, I8 and U8. |
| `FlatCache.FlatKvCache.constructor` | `crates/cache/src/flat.rs:231-245` | A new cache holds empty layers. |
| `FlatCache.FlatKvCache.Put` | `crates/cache/src/flat.rs:323-387` | Accepted exactly for a valid layer, matching tensors and enough room, with every refusal named in the order of the checks; it appends both row blocks to that layer, and a refusal changes no buffer and no length. |
| `FlatCache.FlatKvCache.Get` | `crates/cache/src/flat.rs:389-444` | Returns the first `n` rows appended to the layer since the last reset, bit-identical, exactly when the layer has them and the dtype is F32, F16, BF16, I32, I8 or U8; each refusal is named. |
| `FlatCache.FlatKvCache.Reset` | `crates/cache/src/flat.rs:454-458` | Zeroes the lengths; every layer is empty again. |
| `FlatCache.FlatKvCache.Run` | `crates/cache/src/flat.rs:322-459` | Any run of puts and resets leaves exactly the logged rows. |

## Left out

- HIP devices, streams, pointers, buffers and kernels, and the attention and prefill launchers: foreign code; only their intended effect on arrays is modelled.
- Device and stream identity checks, the 32-bit limits of the native layout, and binding of caller-supplied native buffers: they guard foreign code.
- Floating-point numerics: RMS norm, RoPE, softmax rounding, SiLU, gates, quantised row decoding. The decode results hold in exact arithmetic; rounding can merge two close logits and move the greedy choice.
- Allocator failure (`try_reserve`) and error locations: an error is a constructor of a small datatype.
- Workspace and requirement reports, GGUF loading and metadata lookup: straight-line checked sums that would only add easy members.
- Leaking a guard or an append with `mem::forget`: outside the normal lifecycle.
- A commit closure that itself submits device work, and panics other than in the three guarded calls.
- Batches of live session objects: `ExecuteBatch` runs on values, so updating several sessions in place, and aliasing between them, is not captured.
- The borrow that ties an append or a guard to its owner: it is a session value that has at most one of them.
- `MultinomialSampler`, its random generator, and `TypicalSampling`: no deterministic law beyond a refusal.
- `RepetitionPenalty`: it is meant to change the greedy choice; chains here consist of the other four processors.
- The scratch buffer that `TopK` keeps between calls: its contents are overwritten before use.
- The library sort: modelled by a stable insertion sort with the same order on every valid row.
- HIP tensors in the flat cache beyond their refusal, and the tensor layout check behind `Tensor::from_cpu`.
- SucceedsIffFits: decides neither way when a temperature stands behind a mask, the greatest logit is not the greatest in magnitude, the greatest magnitude overflows and the greatest logit does not. `MaskDecides` shows that there it depends on what the masks keep; `RefusedIffOverflow` follows the row through them.
- ChainSucceeds: a corollary for temperatures of at least one; the general statements are `FittingChainSucceeds` and `SucceedsIffFits`.
