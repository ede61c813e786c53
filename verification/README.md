# OxideLake in Dafny

OxideLake runs SQL on DataFusion and moves filters, joins and aggregates to a GPU. These files model the parts where
it could silently compute something else, and prove that it does not, or say exactly when it does:

- **Placement** (`Orders`, `Merging`, `Plans`, `Placement`, `Determinacy`, `Preservation`, `Decisions`, `Refinement`,
  `Soundness`, `Liveness`, `Stranding`, `Refusal`, `Overtaking`). Plans run partition by partition in any order the
  runtime likes; a merge join on the CPU is a merge with two cursors that needs its inputs sorted. The rule that
  replaces nodes by device nodes is sound over every run of the plan before and after, on a condition decided before
  placement. The repository promises more (`docs/verification.md:151`): the same queries answer with the same rows
  under every target. That is not so, in three ways, each characterised exactly and with a concrete query: a merge
  join left on the CPU over a lowered join loses rows, a partition-wise join left on the CPU over a lowered aggregate
  has no run, and the rule itself fails on some queries that run.
- **Kernels and operators** (`Comparisons`, `FilterKernel`, `JoinTables`, `JoinKernel`, `AggregateMeaning`,
  `AggregateKernel`, `FilterOperator`, `JoinOperator`, `AggregateOperator`, `GpuOperators`, `JoinExec`, `Execution`).
  The reference kernels compute the rows the plans speak of, and comparisons mean the order of the numbers compared.
  The device path sends only some columns, may return rows in any order, may decline or fail, and still gives the same
  rows. Executed nodes are runs of the plan.
- **Spilling** (`SpillState`, `Spilling`). A three-tier cache that never loses a batch and whose books balance under
  any sequence of operations and any failures, and that fails only when a call to the device or the store does.
- **io_uring** (`Uring`). A worker whose replies are exact against a kernel that accepts, completes, transfers and
  fails as it likes, and whose errors each have a cause outside it.
- **Wire format** (`Postcard`, `Fingerprints`, `Codec`, `Wire`, `Layout`). Device nodes survive serialization, in
  bytes that are written out here; plans from a different build are refused, except when the fingerprint collides.

`Core`, `Bags`, `Groups`, `Batches` and `Execs` hold the shared vocabulary: values and machine integers, multisets of
rows, grouped folds, record batches, and the checked constructors of the device nodes.

Conventions. Rows are sequences of cells; a plan means a bag of rows. Floats are their bit patterns, compared in the
IEEE 754 total order, as Arrow's comparison kernels do. Sorting and merging are ascending with NULL first, which is
how the planner sorts for merge joins; a sort in another direction is a sort by no columns, whose runs include its
own. The sides of a merge join are joined on columns, which is what the planner hands over. Integers are unbounded
except where a width is written out (`i64`, `u32`, `i128`, `AddWrap`, `SaturatingSub`). What the outside world decides
is an argument or an arbitrary choice: partition contents and order, hash functions, device answers and output order,
store failures, batch sizes, kernel behaviour. A device that runs is taken to compute what its backend documents: the
matches of a join in an order of its own, and sums that wrap in 64 bits.

Where code and documentation disagree the model follows the code. `STATUS.md:79` says that a lowered merge join has
the same inner-join semantics and drops only the sorts inserted for the merge; its rows are the same, its order is
not, and `Overtaking.StackedMergesLoseRows` shows what depends on it. The predicate lowering message lists `!=` among
the supported comparisons while the code has none; the codec's module comment leaves out the four fingerprint bytes of
the header; and its remark that a new release always has a new fingerprint is refuted by
`Fingerprints.VersionsMayCollide`.

## Model

| member | source | states |
|---|---|---|
| Merging.MergeIsJoin | crates/oxidelake-planner/src/rule.rs:313-316 | The two-cursor merge of two inputs sorted by the join key is their join, row for row in nested-loop order, NULL keys and repeated keys included. |
| Merging.MergeExactIff | crates/oxidelake-planner/src/rule.rs:425-430 | Against a sorted right side the merge gives the join if and only if no left row with a match comes after a left row with a greater key. |
| Merging.AnyOrderIff | crates/oxidelake-compute/src/exec/mod.rs:94-105 | Every arrangement of the left rows merges to the join if and only if no left row with a match has a smaller key than another left row. |
| Determinacy.RunDelivers | docs/verification.md:151-151 | In every run of a well-formed plan that keeps the distribution and ordering contracts, whatever the partitioning, the interleaving and the device, the union of the output partitions is one fixed bag of rows. |
| Determinacy.RunOrdered | crates/oxidelake-planner/src/rule.rs:313-316 | Every partition of every run is sorted by the columns that the plan structure says it is sorted by. |
| Determinacy.RunRouted | crates/oxidelake-planner/src/rule.rs:362-372 | Every row of every run sits in the partition that the hash of the columns the plan is distributed by names. |
| Determinacy.FinalIsOnePass | crates/oxidelake-planner/src/rule.rs:362-393 | A final aggregate over partial states denotes one pass over the rows below the partial, through any exchanges between them. |
| Determinacy.FinalDenotes | crates/oxidelake-planner/src/rule.rs:362-393 | Merging the partial states of any split of the source rows gives the groups of the unsplit rows. |
| Groups.MergeIsExact | crates/oxidelake-planner/src/rule.rs:362-393 | States computed part by part merge to the states of the whole, for every split into parts. |
| Groups.GroupPerm | crates/oxidelake-compute/src/exec/aggregate.rs:193-227 | Aggregation depends only on the bag of input rows. |
| Groups.GroupPartitioned | crates/oxidelake-planner/src/rule.rs:350-361 | When no key occurs in two partitions, aggregating each partition is aggregating the whole. |
| Preservation.FlipSwaps | crates/oxidelake-planner/src/rule.rs:440-448 | A flipped comparison with swapped operands has the same three-valued outcome. |
| Preservation.LoweredPredicate | crates/oxidelake-planner/src/rule.rs:479-528 | A lowered predicate keeps a row if and only if the original expression is true of it, NULLs and operand order included, and it type-checks. |
| Preservation.LowersIffSpelled | crates/oxidelake-planner/src/rule.rs:479-528 | An expression lowers to a predicate if and only if it writes that predicate out, column on either side, and every leaf matches its column's type. |
| Preservation.FilterPreserves | crates/oxidelake-planner/src/rule.rs:127-147 | A lowered filter has the same schema, the same bag of rows and the same well-formedness as the filter. |
| Preservation.FusePreserves | crates/oxidelake-planner/src/rule.rs:151-177 | A projection folded into a device filter keeps schema and bag of rows. |
| Preservation.RecoverExact | crates/oxidelake-planner/src/rule.rs:267-291 | A join projection recovered from output fields alone, when every field is unambiguous, is the original projection. |
| Preservation.JoinPreserves | crates/oxidelake-planner/src/rule.rs:234-311 | A lowered hash join, with sides swapped and projection re-expressed, keeps schema and bag of rows. |
| Preservation.SortMergePreserves | crates/oxidelake-planner/src/rule.rs:313-348 | A lowered merge join, with the sorts below it dropped, keeps schema and bag of rows; what becomes of its order is `Soundness.OrderForetold`. |
| Preservation.SpecAgrees | crates/oxidelake-planner/src/rule.rs:536-607 | A lowered aggregate specification reads the same key and the same inputs as the aggregate's expressions on every row. |
| Preservation.AggregatePreserves | crates/oxidelake-planner/src/rule.rs:350-421 | A lowered aggregate, one-phase or two-phase with exchanges between, keeps schema and bag of rows. |
| Refinement.TransformRefines | crates/oxidelake-planner/src/rule.rs:95-125 | Rewriting bottom up, every subplan keeps its schema, its bag of rows and the hash distribution its parents rely on. |
| Refinement.DistributedContract | crates/oxidelake-planner/src/rule.rs:609-619 | A plan distributed as the planner distributes keeps the distribution contract under which runs are determinate. |
| Soundness.OrderForetold | crates/oxidelake-planner/src/rule.rs:313-348 | Which columns the placed plan is sorted by is decided, both ways, on the plan before placement: an order survives through sorts, row-wise nodes and joins that stay on the CPU, and through nothing else. |
| Soundness.KeptForetold | crates/oxidelake-planner/src/rule.rs:609-619 | The placed plan keeps the ordering contract of merge joins if and only if every merge join of the original is lowered or gets each side's order without crossing a lowered join or aggregate. |
| Soundness.PlacementSound | crates/oxidelake-planner/src/rule.rs:609-619 | For every distributed plan and target, if no merge join is left above an order that placement takes away, the optimized plan has the same schema and any run of it delivers the same bag of rows as any run of the original, with overflowing sums on a device included. |
| Soundness.OrderSurvives | crates/oxidelake-planner/src/rule.rs:609-619 | Every run of the optimized plan is sorted by every order foretold to survive. |
| Overtaking.ExposedIff | crates/oxidelake-planner/src/rule.rs:313-348 | A merge join over unordered left rows delivers its rows in every run if and only if in no run of its sides a left row with a match shares its partition with a left row of a greater key. |
| Overtaking.StackedIff | crates/oxidelake-planner/src/rule.rs:313-348 | For a merge join left on the CPU over a lowered join, one partition a side: after placement every run delivers the rows if and only if, in the rows of the original plan, no left row with a match has a smaller key than another. |
| Overtaking.StackedMergesLoseRows | crates/oxidelake-planner/src/rule.rs:425-430 | A concrete distributed query of two stacked merge joins with a run before placement and a run after it that deliver different rows. |
| Overtaking.OrderIsLost | crates/oxidelake-compute/src/exec/mod.rs:94-105 | A concrete query sorted by its merge join, with no sort above, that has an unsorted run after placement. |
| Liveness.RunnableIffHasRun | crates/oxidelake-compute/src/exec/aggregate.rs:193-219 | A plan has a run if and only if its joins find the partition counts they need and every aggregation with a sum outside 64 bits runs on a device. |
| Decisions.JoinLowersIff | crates/oxidelake-planner/src/rule.rs:239-311 | A hash join is lowered if and only if it has no filter, NULL keys do not match, its one key pair is two plain columns of type Int64, and its projection is not empty and names no ambiguous field; it is refused if and only if the key is so and the projection is empty. The comparison with the planned schema never decides. |
| Decisions.MergeLowersIff | crates/oxidelake-planner/src/rule.rs:317-348 | A merge join is lowered if and only if it has no filter, NULL keys do not match and its one key pair is two plain Int64 columns; it then becomes the device join of its sides with the sorts directly below it removed. It is never refused. |
| Decisions.AggregateLowersIff | crates/oxidelake-planner/src/rule.rs:350-421 | An aggregate is lowered if and only if it delivers results and its raw phase has one plain Int64 key and plain, unfiltered inputs of type Int64 or Float64; it is never refused, and the planned types always agree. |
| Refusal.FilterOutcome | crates/oxidelake-planner/src/rule.rs:127-147 | A filter is lowered if and only if its predicate is, and errors if and only if it keeps no column or has more than 64 comparisons. |
| Refusal.FuseOutcome | crates/oxidelake-planner/src/rule.rs:151-177 | A projection fuses if and only if it only picks columns of a device filter under their own names, in any order and with repeats, and errors if and only if it picks none. |
| Stranding.PlacedPlanRuns | crates/oxidelake-planner/src/rule.rs:395-421 | The optimized plan has a run if and only if no partition-wise join left on the CPU lost its partner's partition count to a lowered aggregate and every lowered aggregation whose sums leave 64 bits runs on a device. |
| Stranding.ReadyOnDevice | crates/oxidelake-device/src/cuda/ops.rs:10-11 | With every aggregation on a device, partition counts alone decide: no sum keeps a plan from running. |
| Refusal.PlacementFails | crates/oxidelake-planner/src/rule.rs:609-619 | The rule returns an error if and only if the target is Cuda or Metal and the plan holds a recognised filter or join that keeps no column, a fused empty projection, or more than 64 comparisons; with CpuSimd it returns the plan as it was. |
| Refusal.StrandedJoin | crates/oxidelake-planner/src/rule.rs:395-421 | A concrete distributed query that runs before placement and has no run afterwards. |
| Refusal.EmptyProjectionFails | crates/oxidelake-compute/src/exec/filter.rs:39-65 | A concrete query that runs and on which the rule fails. |
| Refusal.PlacedExample | crates/oxidelake-planner/src/rule.rs:362-421 | A concrete two-phase aggregate that is rewritten and runs before and after, so the premises of `PlacementSound` can be met. |
| Execs.DeriveOutputSchema | crates/oxidelake-compute/src/exec/aggregate.rs:29-60 | The field-by-field loop succeeds if and only if the key is Int64 and every input is Int64 or Float64; the result is the key field, then per aggregate a nullable field named SUM(x), COUNT(x), MIN(x) or MAX(x), of type Int64 for COUNT and of the input's type otherwise. |
| Comparisons.IntegersCompare | crates/oxidelake-device/src/cpu/kernels.rs:82-88 | Integer cells compare as their numbers, for each of the five operators. |
| Comparisons.FloatsCompare | crates/oxidelake-device/src/cpu/kernels.rs:82-88 | Finite float cells compare as the numbers their bits stand for, with -0 before +0 and equality on bits. |
| Comparisons.SpecialsCompare | crates/oxidelake-device/src/cpu/kernels.rs:82-88 | Every finite float lies between the infinities, and NaNs lie outside them on the side of their sign. |
| Comparisons.Trichotomy | crates/oxidelake-device/src/cpu/kernels.rs:82-88 | Of two non-NULL cells of one type exactly one of less, equal and greater holds, and `<=` and `>=` negate `>` and `<`. |
| Comparisons.LessTransitive | crates/oxidelake-device/src/cpu/kernels.rs:82-88 | Less than is transitive. |
| Comparisons.ConjunctionTable | crates/oxidelake-device/src/cpu/kernels.rs:89-96 | AND is true if and only if both sides are and false if and only if one side is. |
| Comparisons.PredicateIsConjunction | crates/oxidelake-core/src/params.rs:57-110 | A predicate tree is true of a row if and only if all its comparisons are, false if and only if one is, whatever the nesting; its leaf count and columns are those of the comparisons, in order. |
| Comparisons.ExpressionConnectives | crates/oxidelake-planner/src/rule.rs:479-528 | The CPU expression semantics of AND, OR and `!=` on three values. |
| Comparisons.FilterSplits | crates/oxidelake-device/src/cpu/kernels.rs:100-108 | A comparison and its opposite split the rows whose cell is not NULL: together the two filters keep each such row once and no other. |
| Comparisons.FilterLess | crates/oxidelake-device/src/cpu/kernels.rs:100-108 | Filtering by `c < v` on an Int64 column keeps exactly the rows whose cell is a number below v. |
| FilterKernel.MaskMeaning | crates/oxidelake-device/src/cpu/kernels.rs:56-97 | The column-wise mask is the three-valued predicate of each row, whose meaning `Comparisons` fixes. |
| FilterKernel.FilterProjectRows | crates/oxidelake-device/src/cpu/kernels.rs:100-108 | The kernel's rows are the kept rows, projected, in input order. |
| FilterKernel.FilterProjectOk | crates/oxidelake-device/src/cpu/kernels.rs:100-108 | The kernel succeeds if and only if every leaf matches its column's type and every projected column exists. |
| FilterOperator.SubBatchShape | crates/oxidelake-compute/src/operator.rs:61-98 | What a cut holds: the chosen columns unchanged, then row ids; it exists if and only if the columns do. |
| FilterOperator.RemapMask | crates/oxidelake-compute/src/operator.rs:100-119 | A remapped predicate has the same mask on the cut as the original on the whole batch. |
| FilterOperator.UniqueColumns | crates/oxidelake-compute/src/operator.rs:359-369 | The columns that travel are exactly those the predicate or an eligible projection reads, each once. |
| FilterOperator.DeviceProjection | crates/oxidelake-compute/src/operator.rs:376-388 | The device projection picks the eligible projected columns in output order, row ids last. |
| FilterOperator.Reassemble | crates/oxidelake-compute/src/operator.rs:404-423 | Device columns and host gathers at the returned row ids rebuild the projected columns of the kept rows. |
| FilterOperator.FilterProjectOnDevice | crates/oxidelake-compute/src/operator.rs:348-426 | Whenever the device runs, the batch equals the reference kernel's on the whole batch; declining and failing are passed on. |
| JoinTables.KeyRowsMeaning | crates/oxidelake-device/src/cpu/kernels.rs:185-190 | A key's rows are exactly the build rows holding it, ascending. |
| JoinTables.CountKeys | crates/oxidelake-device/src/cpu/kernels.rs:156-162 | The first pass counts each non-NULL key exactly. |
| JoinTables.LayOut | crates/oxidelake-device/src/cpu/kernels.rs:163-170 | Whatever order the hash map yields keys in, their ranges are disjoint, leave no gap and have the counted lengths; it fails if and only if the total leaves 32 bits. |
| JoinTables.Scatter | crates/oxidelake-device/src/cpu/kernels.rs:171-181 | The second pass fills every slot, each key's rows in build order, or fails on a row number past 32 bits. |
| JoinTables.Build | crates/oxidelake-device/src/cpu/kernels.rs:155-182 | The table answers every lookup with the key's rows in build order; it fails if and only if row numbers leave 32 bits. |
| JoinKernel.MatchPairsMeaning | crates/oxidelake-device/src/cpu/kernels.rs:229-238 | The pairs are exactly the rows with equal non-NULL keys, each once, in nested-loop order. |
| JoinKernel.ProbeTable | crates/oxidelake-device/src/cpu/kernels.rs:226-238 | The two index vectors list those pairs; it fails if and only if a matching probe row is past 32 bits. |
| JoinKernel.GatherSelected | crates/oxidelake-device/src/cpu/kernels.rs:242-275 | Each selected column is taken at its own side's row numbers; it fails if and only if an index is out of range. |
| JoinKernel.HashJoinProbe | crates/oxidelake-device/src/cpu/kernels.rs:219-275 | The probe gathers the selected columns at the matching pairs, and reports an error exactly in the listed cases. |
| JoinKernel.ProbeIsJoin | crates/oxidelake-device/src/cpu/kernels.rs:219-275 | That batch's rows are the nested-loop inner join of the two batches' rows, in that order. |
| JoinKernel.ArrangementPerm | crates/oxidelake-device/src/backend.rs:99-104 | Another order of the matches gives another order of the same rows. |
| JoinOperator.PlanSide | crates/oxidelake-compute/src/operator.rs:463-481 | One side sends its key first and otherwise exactly the eligible selected columns, none twice, and row ids if and only if a selected column cannot travel. |
| JoinOperator.JoinHostColumn | crates/oxidelake-compute/src/operator.rs:574-597 | For any order of device output, the host's column for a selected index is that column of the full join at the device's matches. |
| JoinOperator.ReassembleJoin | crates/oxidelake-compute/src/operator.rs:563-600 | All selected columns are rebuilt, for any order of device output. |
| GpuOperators.SomeDeviceArranges | crates/oxidelake-device/src/backend.rs:99-104 | The contract assumed of a joining device can be met. |
| GpuOperators.GpuOperator.BuildOnDevice | crates/oxidelake-compute/src/operator.rs:486-507 | The build slot is written once; what comes back is the requested cut if and only if the slot was empty or held that cut. |
| GpuOperators.GpuOperator.HashJoinOnDevice | crates/oxidelake-compute/src/operator.rs:509-600 | A device run gives the schema and bag of rows of the inner join; the cached build keeps serving the join. |
| GpuOperators.GpuOperator.HashJoin | crates/oxidelake-compute/src/operator.rs:431-461 | Device or fallback, the batch is the inner join; errors come only from a failing device or where the kernel itself fails; a working device is used, its absence is counted as a fallback, and the counters move by this batch. |
| GpuOperators.GpuOperator.FilterBatch | crates/oxidelake-compute/src/operator.rs:324-346 | Device or fallback, a returned batch is the reference kernel's; on what the kernel accepts it errors if and only if the device fails, and a fallback is counted if and only if there is no device or it declines. |
| GpuOperators.GpuOperator.AggregateBatch | crates/oxidelake-compute/src/operator.rs:603-622 | Device or fallback, a returned batch holds the groups of the input; a device that answers decides success, and without one success means that no sum leaves 64 bits; a fallback is counted if and only if there is no device or it declines. |
| GpuOperators.GpuOperator.FellBack | crates/oxidelake-compute/src/operator.rs:294-307 | Every fallback is counted and at most one warning is logged per operator. |
| JoinExec.HashJoinExec.SharedBuild | crates/oxidelake-compute/src/exec/join.rs:26-46 | The first caller collects and hashes the whole right child; every later caller gets the same answer and collects nothing. |
| JoinExec.ProbePartition | crates/oxidelake-compute/src/exec/join.rs:288-299 | Over all of a partition's batches, sharing one cached device build, the output is the join of the partition with the build side. |
| JoinExec.HashJoinExec.Execute | crates/oxidelake-compute/src/exec/join.rs:261-304 | A partition delivers the join of its rows with the whole right child, whichever partition collected it. |
| JoinExec.ExecuteAll | crates/oxidelake-compute/src/exec/join.rs:261-304 | For every order of starting the partitions, together they deliver the join of all left rows with all right rows. |
| JoinExec.FragmentsSuffice | crates/oxidelake-compute/src/exec/join.rs:26-31 | Had each partition collected only its fragment of the build side, the result would be the join if and only if no row matches a row of another partition's fragment. |
| AggregateMeaning.CountIsHits | crates/oxidelake-device/src/cpu/kernels.rs:426-434 | COUNT is the number of non-NULL inputs of the group. |
| AggregateMeaning.SumIsExact | crates/oxidelake-device/src/cpu/kernels.rs:435-447 | The 64-bit wrapping sum equals the exact sum if and only if the exact sum fits. |
| AggregateMeaning.MinIsLeast | crates/oxidelake-device/src/cpu/kernels.rs:460-477 | MIN is an input of the group and no greater than any other, or NULL without inputs. |
| AggregateMeaning.MaxIsGreatest | crates/oxidelake-device/src/cpu/kernels.rs:460-477 | MAX is an input of the group and no less than any other, or NULL without inputs. |
| AggregateKernel.NoOverflow | crates/oxidelake-device/src/cpu/kernels.rs:372-388 | No count leaves 64 bits and no running sum leaves 128 bits, for any batch. |
| AggregateKernel.FinishMeaning | crates/oxidelake-device/src/cpu/kernels.rs:423-477 | An accumulator's output cell is the group's aggregate, or an error exactly when the exact sum does not fit. |
| AggregateKernel.FoldRow | crates/oxidelake-device/src/cpu/kernels.rs:351-407 | One row of the hash pass keeps every group's accumulators equal to the aggregates of the rows so far. |
| AggregateKernel.SortGroups | crates/oxidelake-device/src/cpu/kernels.rs:409-415 | Every group is listed, keys ascending and NULL last. |
| AggregateKernel.Aggregate | crates/oxidelake-device/src/cpu/kernels.rs:327-504 | One row per distinct key with its aggregates, in key order; it fails if and only if a column has the wrong type or a group's exact sum leaves 64 bits. |
| AggregateKernel.OrderInsensitive | crates/oxidelake-device/src/cpu/kernels.rs:327-504 | Batches with the same rows in any order aggregate to the same rows in the same order. |
| AggregateOperator.CutAligned | crates/oxidelake-compute/src/operator.rs:624-647 | The renumbered aggregates read, row by row, the same keys and inputs from the cut as the original from the batch. |
| AggregateOperator.AggregateOnDevice | crates/oxidelake-compute/src/operator.rs:624-659 | A device run on the cut gives the output schema and the bag of groups of the whole batch. |
| AggregateOperator.WrapExactIff | crates/oxidelake-device/src/cuda/ops.rs:10-11 | A device's wrapping sums are all exact if and only if no exact sum leaves 64 bits, the case in which the reference kernel does not fail. |
| AggregateOperator.SomeDeviceComputes | crates/oxidelake-device/src/backend.rs:106-111 | The contract assumed of an aggregating device can be met. |
| Execution.FilterPartition | crates/oxidelake-compute/src/exec/filter.rs:158-185 | A filter node's partition delivers the kept, projected rows of its input in order. |
| Execution.AggregateNode | crates/oxidelake-compute/src/exec/aggregate.rs:193-227 | The single output partition holds the groups of all input partitions under the planned names, and when it succeeds is decided exactly; any other partition is an error. |
| Execution.ExecuteFilter | crates/oxidelake-compute/src/exec/filter.rs:158-185 | Executing a filter node over what its input delivered yields a run of the node in the input's order, or an error from a failing device or kernel. |
| Execution.ExecuteJoin | crates/oxidelake-compute/src/exec/join.rs:261-304 | Executing a join node, partitions starting and batches arriving in any order, yields a run of the node, with or without a projection; an error comes from a failing device, a failing kernel or a build side that cannot be hashed. |
| Execution.ExecuteAggregate | crates/oxidelake-compute/src/exec/aggregate.rs:193-227 | Executing an aggregate node yields a run of the node, wrapped sums on a device included; it succeeds if and only if the plan semantics says so. |
| SpillState.PathInjective | crates/oxidelake-memory/src/spill.rs:172-174 | Two batches never share a spill file name. |
| SpillState.AccountMove | crates/oxidelake-memory/src/spill.rs:309-371 | Moving a batch between tiers moves exactly its bytes between the counters; the saturating subtraction never saturates. |
| Spilling.EvictOne | crates/oxidelake-memory/src/spill.rs:341-371 | Evicting the coldest batch keeps the evicted set the shortest least-recently-touched run that the budget asks for. |
| Spilling.SpillManager.Coldest | crates/oxidelake-memory/src/spill.rs:104-110 | The batch found is the least recently touched of its tier, in whatever order the map is walked. |
| Spilling.SpillManager.EnforceHost | crates/oxidelake-memory/src/spill.rs:341-371 | On success the host budget holds; success or failure, exactly the shortest coldest run of batches moved to disk and the books stay sound. It makes one store call per batch moved, and fails if and only if the last call fails. |
| Spilling.SpillManager.EnforceDevice | crates/oxidelake-memory/src/spill.rs:309-339 | The same for the device tier, with one device copy per batch moved. |
| Spilling.SpillManager.InsertHost | crates/oxidelake-memory/src/spill.rs:185-204 | The batch is registered under a fresh id even when the call fails; on success the budget holds and the gauges are right; it fails if and only if a needed write does. |
| Spilling.SpillManager.InsertDevice | crates/oxidelake-memory/src/spill.rs:207-231 | The same with both budgets: it fails if and only if a needed copy or write does. |
| Spilling.SpillManager.Promote | crates/oxidelake-memory/src/spill.rs:249-265 | A batch read back is the one inserted; it returns to the host at the size it first had there; it fails if and only if the read does, and then loses nothing; neither does a failed deletion, whatever it leaves in the file. |
| Spilling.SpillManager.Get | crates/oxidelake-memory/src/spill.rs:234-270 | A returned batch is the one inserted under that id, even if it is evicted again within the call; it becomes the most recently touched. A known host batch is always returned, a device batch if and only if its copy succeeds, a spilled one if and only if the read and every write needed to make room succeed; an unknown id is an error. |
| Spilling.SpillManager.Remove | crates/oxidelake-memory/src/spill.rs:293-307 | Exactly that entry is forgotten, its bytes leave the counters, and its file is gone unless the call fails, which is if and only if the deletion does; the answer says whether the id was known. |
| Spilling.Drive | crates/oxidelake-memory/src/spill.rs:185-307 | Over any sequence of operations and failures: a batch reads back as stored, ids are never reused, a dropped batch never comes back. If nothing outside fails, every batch put in is stored, and every read of a stored batch that was not dropped returns it. |
| Uring.Ring.SubmitAndWait | crates/oxidelake-storage/src/uring.rs:96-108 | Whatever the kernel does in one call, exactly the one submission stays queued, in flight or completed. |
| Uring.SubmitOne | crates/oxidelake-storage/src/uring.rs:77-140 | A submission that comes back left nothing queued, in flight or unreaped and reports its own result; the full queue and a foreign completion cannot happen; it is reported failed only if a call broke or the kernel reported a negative result, and it gives up only after 1024 waits and a broken call. A prompt completion is reported at once, with its result. |
| Uring.ReadRange | crates/oxidelake-storage/src/uring.rs:142-171 | However short the transfers, a successful read is exactly the range, an end-of-file error means the range leaves the file, and an I/O error means the file would not open, does not exist, or the kernel failed. |
| Uring.WriteAll | crates/oxidelake-storage/src/uring.rs:173-198 | However short the transfers, a successful write leaves exactly the data; a failed one leaves a prefix of it or the old file, and means that the file would not open, the kernel failed, or it wrote nothing; no other file changes. |
| Uring.Worker | crates/oxidelake-storage/src/uring.rs:200-215 | Over any jobs the ring is idle between jobs, every reply is right for the files at that point and every error has its cause; a kernel that completes each submission at once gets every job answered. |
| Uring.SmoothReplies | crates/oxidelake-storage/src/uring.rs:200-215 | Over a kernel that never fails and never writes nothing, every answered job that opens goes through: a range within the file is read, one past its end is an end-of-file error, a write leaves its data. |
| Uring.ReadYourWrite | crates/oxidelake-storage/src/uring.rs:200-215 | A successful read after a successful write, with no write to the path between, returns the written bytes. |
| Postcard.VarintTrip | crates/oxidelake-planner/src/codec.rs:308-344 | A varint within its width reads back, whatever follows it. |
| Postcard.VarintFits | crates/oxidelake-planner/src/codec.rs:308-328 | Whatever bytes arrive, a decoded varint fits its width. |
| Layout.VarintIff | crates/oxidelake-planner/src/codec.rs:308-344 | The varint of a number is the one byte string of that weight in base 128, low digits first, that has no superfluous last byte. |
| Layout.VarintLiterals | crates/oxidelake-planner/src/codec.rs:308-344 | One- and two-byte varints as literal bytes. |
| Layout.ZigzagLiterals | crates/oxidelake-core/src/params.rs:40-45 | Signs alternate: 0, -1, 1, -2 are 0 to 3, and the extreme integers the extreme codes. |
| Layout.TextLiterals | crates/oxidelake-planner/src/codec.rs:110-133 | UTF-8 of one, two, three and four bytes as literal bytes. |
| Postcard.Utf8Trip | crates/oxidelake-planner/src/codec.rs:110-133 | Every string of Unicode scalar values reads back from its UTF-8 bytes. |
| Postcard.SequenceTrip | crates/oxidelake-planner/src/codec.rs:91-134 | A counted sequence reads back when its items do. |
| Codec.PredicateTrip | crates/oxidelake-core/src/params.rs:57-72 | Every predicate tree reads back from its bytes, which the `Layout` rows fix. |
| Layout.ComparisonBytes | crates/oxidelake-core/src/params.rs:12-24 | The five comparison operators are the bytes 0 to 4 in the order of their declaration. |
| Layout.ComparisonReads | crates/oxidelake-core/src/params.rs:12-24 | Handwritten bytes of each comparison decode to it, whatever follows. |
| Layout.IntegerLiterals | crates/oxidelake-core/src/params.rs:39-45 | Positive, negative and two-byte integer literals as bytes. |
| Layout.FloatLiteral | crates/oxidelake-core/src/params.rs:39-45 | A float literal as bytes, low byte first. |
| Layout.BackendBytes | crates/oxidelake-core/src/hardware.rs:17-24 | The three backends are the bytes 0 to 2 in the order of their declaration, inside a whole join node. |
| Layout.BackendReads | crates/oxidelake-core/src/hardware.rs:17-24 | Handwritten join nodes decode to their backend. |
| Layout.FunctionBytes | crates/oxidelake-core/src/params.rs:115-126 | The four aggregate functions are the bytes 0 to 3 in the order of their declaration. |
| Layout.FunctionReads | crates/oxidelake-core/src/params.rs:115-126 | Handwritten bytes of each aggregate decode to it. |
| Layout.MetricBytes | crates/oxidelake-core/src/params.rs:149-156 | The two distance metrics as bytes, inside a whole node. |
| Layout.MetricReads | crates/oxidelake-core/src/params.rs:149-156 | Handwritten distance nodes decode to their metric. |
| Layout.FilterReads | crates/oxidelake-planner/src/codec.rs:91-134 | A handwritten filter node decodes to that filter. |
| Layout.JoinReads | crates/oxidelake-planner/src/codec.rs:91-134 | A handwritten join node with a projection decodes to that join. |
| Layout.UnknownRefused | crates/oxidelake-planner/src/codec.rs:308-328 | A tag past the last variant of any enumeration is refused. |
| Codec.NodeTrip | crates/oxidelake-planner/src/codec.rs:91-134 | Every device node reads back from its bytes, whatever follows them. |
| Codec.PrefixFree | crates/oxidelake-planner/src/codec.rs:91-134 | No node's encoding begins another's. |
| Wire.BuildDescribes | crates/oxidelake-planner/src/codec.rs:175-304 | Building from a node's description over its own children gives the node back. |
| Wire.DescribesBuilt | crates/oxidelake-planner/src/codec.rs:175-304 | Whatever is built describes itself as what it was built from, over exactly the children it was given. |
| Wire.PlacedIsChecked | crates/oxidelake-planner/src/rule.rs:95-125 | Every node the placement rule makes passes the constructors the codec rebuilds with. |
| Wire.AppendEncoded | crates/oxidelake-planner/src/codec.rs:330-344 | The frame that `WireTrip` reads back is appended to the buffer for a device node; for any other node the buffer is left alone. |
| Wire.WireTrip | crates/oxidelake-planner/src/codec.rs:308-344 | A checked node crosses between builds with one fingerprint unchanged, even with bytes after it. |
| Wire.RefusedIff | crates/oxidelake-planner/src/codec.rs:72-87 | A frame is refused if and only if the fingerprints differ or the node does not fit its children. |
| Layout.HeaderBytes | crates/oxidelake-planner/src/codec.rs:24-28 | A frame is OXGP, the version byte 2, the fingerprint low byte first, and the node. |
| Wire.FeatureMismatchRefused | crates/oxidelake-planner/src/codec.rs:55-87 | Across builds of one version a plan is read if and only if the features agree. |
| Wire.RecordedFilter | crates/oxidelake-planner/tests/snapshots/codec_wire__gpu_node_encodings.snap:5-5 | The encoding of the recorded filter is the recorded bytes. |
| Wire.RecordedJoin | crates/oxidelake-planner/tests/snapshots/codec_wire__gpu_node_encodings.snap:6-6 | The encoding of the recorded join is the recorded bytes. |
| Wire.RecordedAggregate | crates/oxidelake-planner/tests/snapshots/codec_wire__gpu_node_encodings.snap:7-7 | The encoding of the recorded aggregate is the recorded bytes. |
| Wire.RecordedDistance | crates/oxidelake-planner/tests/snapshots/codec_wire__gpu_node_encodings.snap:8-8 | The encoding of the recorded vector distance is the recorded bytes. |
| Fingerprints.Fnv1a | crates/oxidelake-planner/src/codec.rs:45-53 | The byte loop computes the recursive hash that the injectivity results are about. |
| Fingerprints.MixInjective | crates/oxidelake-planner/src/codec.rs:45-53 | One step of the hash is injective in the hash and in the byte. |
| Fingerprints.OneByteShows | crates/oxidelake-planner/src/codec.rs:45-53 | Byte strings that differ in exactly one place never collide. |
| Fingerprints.TwoBytesShow | crates/oxidelake-planner/src/codec.rs:45-53 | Byte strings that differ within two adjacent places never collide. |
| Fingerprints.ComputeFingerprint | crates/oxidelake-planner/src/codec.rs:55-59 | The three hashed pieces in sequence give the fingerprint that the results on features and versions are about. |
| Fingerprints.KnownFingerprint | crates/oxidelake-planner/src/codec.rs:55-59 | The fingerprint of version 0.2.0 with the first feature is a literal number. |
| Fingerprints.FeaturesShow | crates/oxidelake-compute/src/lib.rs:36-38 | Builds of one version have one fingerprint if and only if they have the same features. |
| Fingerprints.VersionsShow | crates/oxidelake-planner/src/codec.rs:55-59 | Builds with the same features have one fingerprint if and only if their version strings hash alike. |
| Fingerprints.PatchShows | crates/oxidelake-planner/src/codec.rs:55-59 | Versions that differ within two adjacent characters, as when a digit rolls over, always have different fingerprints. |
| Fingerprints.VersionsMayCollide | crates/oxidelake-planner/src/codec.rs:30-43 | Versions 3.27.2 and 0.159.98 share a fingerprint, for every feature set. |

## Left out

- AggregateKernel.Aggregate: SUM, MIN and MAX over Float64 columns are excluded by a precondition, since floating-point
  addition is not associative and the reference and device results then differ by rounding; COUNT over Float64 is in.
- GpuOperators.GpuOperator.AggregateBatch: carries the same precondition, as do AggregateOperator.AggregateOnDevice,
  Execution.AggregateNode and Execution.ExecuteAggregate.
- Soundness.PlacementSound: plans with SUM, MIN or MAX over Float64 columns are not well formed in the model, for the
  same reason; COUNT over Float64 is in. This holds for every theorem about placement.
- Stranding.PlacedPlanRuns: where some aggregation falls back to the reference kernel, the plan must also keep the order
  its merge joins need, since otherwise which rows are summed depends on the run.
- Overtaking.StackedIff: one partition a side; for more, Overtaking.ExposedIff states the condition on the runs. Both are
  about the left side; that an unsorted right side breaks a merge is not characterised beyond Soundness.KeptForetold.
- Fingerprints.VersionsShow: the condition is on the hashes. Which strings collide has no simpler description: whether two
  strings that differ far apart collide depends on every byte between the differences.
- Execution.ExecuteJoin: the methods are stated node by node; a driver that executes a whole plan is the query engine's.
- JoinTables.Build: requires that no single key occurs more than 2^32 - 1 times, where the source's 32-bit per-key
  counter would wrap; JoinExec.HashJoinExec.Execute and JoinExec.ExecuteAll pass this on.
- GpuOperators.GpuOperator.HashJoin: requires that an operator serves one join, as the join node uses it; what happens
  otherwise is the if-and-only-if of GpuOperators.GpuOperator.BuildOnDevice.
- Spilling.SpillManager.InsertHost: byte counters and the clock are unbounded, where the source has 64-bit words.
- Uring.SubmitOne: a kernel that neither completes nor fails keeps the call waiting, as in the source.
- Wire.WireTrip: requires indices, counts and string lengths below 2^64, which the source's types guarantee.
- The vector-distance lowering in the placement rule, and the distance kernels; the device node itself is in the plan
  language and in the codec.
- Aggregates without a group key, which SQL answers with one row on empty input: the rule never lowers them, and the model
  gives them no row there.
- Limits on sorts, sort-preserving merges of partitions, and orders declared by table scans.
- Joins other than inner equi-joins, DISTINCT and grouping sets, and aggregate functions other than the four: the rule
  never lowers them.
- Field metadata, and the nullability check when a batch is built.
- Telemetry other than fallback, batch, row and spill counters and the gauges; logging other than the fallback warning.
- Device streams, buffer handles and transfer sizes: the choice of stream has no effect on results.
- Arrow IPC encoding of spilled batches: a file holds the batch that was written.
- The object-store wrapper around the io_uring worker, the catalog, the cluster scheduler, the SQL surface and the FFI.
