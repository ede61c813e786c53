/**
 Which plans still run after placement, decided on the plan before placement.

 A lowered aggregate collapses its partitions into one. A partition-wise join
 that stays on the CPU above it is then stranded with sides of different
 partition counts, and execution refuses it. Where a lowered aggregate falls back
 to the reference kernel, a sum outside 64 bits is refused as well.
 */
module Stranding {
  import opened Core
  import opened Bags
  import opened Plans
  import opened Placement
  import opened Preservation
  import opened Decisions
  import opened Refinement
  import opened Soundness
  import opened Liveness

  /** The partition count `p` will have once placed. */
  function NewCount(target: BackendKind, p: Plan): nat {
    if p.Scan? then |p.parts|
    else if p.Repartition? then p.scheme.n
    else if p.Coalesce? || p.GpuAggregate? || (p.Aggregate? && Lowers(target, p)) then 1
    else if Unary(p) then NewCount(target, p.input)
    else if p.GpuHashJoin? || (p.SortMergeJoin? && Lowers(target, p)) then NewCount(target, p.left)
    else NewCount(target, p.right)
  }

  /** The aggregation that a lowered aggregate will be asked for succeeds. */
  ghost predicate SourceAggregates(env: Env, p: Plan)
    requires p.Aggregate?
  {
    var a := AggregateSource(p);
    a.Some? && LowerSpec(a.value).Some? ==> Aggregates(env, LowerSpec(a.value).value, Denote(env, a.value.input))
  }

  /** No join is stranded, and no aggregation that falls back overflows. */
  ghost predicate Ready(env: Env, target: BackendKind, p: Plan)
    decreases p
  {
    if Unary(p) then
      && Ready(env, target, p.input)
      && (p.GpuAggregate? ==> Aggregates(env, p.spec, Denote(env, p.input)))
      && (p.Aggregate? && Lowers(target, p) ==> SourceAggregates(env, p))
    else if p.Scan? then true
    else
      && Ready(env, target, p.left) && Ready(env, target, p.right)
      && (PartitionWise(p) && !Lowers(target, p) ==> NewCount(target, p.left) == NewCount(target, p.right))
  }

  // ------------------------------------------- decisions before and after

  lemma {:induction false} AggregateDecision(env: Env, target: BackendKind, p: Plan, i: Plan)
    requires p.Aggregate? && WellFormed(p) && Same(env, p.input, i)
    ensures var q := Aggregate(p.aggMode, p.group, p.aggrs, i);
            Lowers(target, q) == Lowers(target, p) && SourceAggregates(env, q) == SourceAggregates(env, p)
  {
    var q := Aggregate(p.aggMode, p.group, p.aggrs, i);
    AggregateFits(p, i);
    RawSource(p);
    RawSource(q);
    SourceDecision(env, target, p, q);
  }

  lemma {:induction false} SourceDecision(env: Env, target: BackendKind, p: Plan, q: Plan)
    requires p.Aggregate? && q.Aggregate? && q.aggMode == p.aggMode && WellFormed(p) && WellFormed(q)
    requires AggregateSource(p) == (if p.aggMode.Partial? then None else Some(RawAggregate(p)))
    requires AggregateSource(q) == (if q.aggMode.Partial? then None else Some(RawAggregate(q)))
    requires var (a, b) := (RawAggregate(p), RawAggregate(q));
             && a.group == b.group && a.aggrs == b.aggrs && SchemaOf(a.input) == SchemaOf(b.input)
             && Perm(Denote(env, b.input), Denote(env, a.input))
    ensures Lowers(target, q) == Lowers(target, p)
    ensures SourceAggregates(env, q) == SourceAggregates(env, p)
  {
    var (a, b) := (RawAggregate(p), RawAggregate(q));
    AggregateLowersIff(target, p);
    AggregateLowersIff(target, q);
    if LowerSpec(a).Some? {
      AggregatesIff(env, LowerSpec(a).value, Denote(env, a.input), Denote(env, b.input));
    }
  }

  // -------------------------------------------------------- after placement

  lemma {:induction false} StripSortRunnable(env: Env, p: Plan)
    ensures Runnable(env, StripSort(p)) == Runnable(env, p) && PartCount(StripSort(p)) == PartCount(p)
  {
  }

  lemma {:induction false} ChainRunnable(env: Env, p: Plan)
    requires HoldsStates(p)
    ensures Runnable(env, p) == Runnable(env, PartialOf(p).input)
  {
    if !p.Aggregate? {
      ChainRunnable(env, p.input);
    }
  }

  lemma {:induction false} SourceRunnable(env: Env, p: Plan)
    requires p.Aggregate? && WellFormed(p) && AggregateSource(p).Some?
    ensures Runnable(env, p.input) == Runnable(env, AggregateSource(p).value.input)
  {
    if p.aggMode.Final? || p.aggMode.FinalPartitioned? {
      StateChain(p.input);
      ChainRunnable(env, p.input);
    }
  }

  /** A lowered aggregate runs when its source does and its aggregation succeeds. */
  lemma {:induction false} LoweredAggregateRunnable(env: Env, target: BackendKind, p: Plan)
    requires p.Aggregate? && WellFormed(p) && Lowers(target, p)
    ensures Runnable(env, Lowered(target, p).value.value) <==> Runnable(env, p.input) && SourceAggregates(env, p)
    ensures PartCount(Lowered(target, p).value.value) == 1
  {
    LoweredAggregateShape(target, p);
    SourceRunnable(env, p);
    DeviceAggregateRunnable(env, Lowered(target, p).value.value, AggregateSource(p).value.input);
  }

  lemma {:induction false} DeviceAggregateRunnable(env: Env, q: Plan, source: Plan)
    requires q.GpuAggregate? && (q.input == source || q.input == Coalesce(source))
    ensures Runnable(env, q) <==> Runnable(env, source) && Aggregates(env, q.spec, Denote(env, source))
    ensures PartCount(q) == 1
  {
    assert Runnable(env, Coalesce(source)) == Runnable(env, source);
    assert Denote(env, Coalesce(source)) == Denote(env, source);
  }

  /** `p` has been placed as `q`: `NewCount` and `Ready` foretold it. */
  ghost predicate Foretold(env: Env, target: BackendKind, p: Plan, q: Plan) {
    PartCount(q) == NewCount(target, p) && (Runnable(env, q) <==> Ready(env, target, p))
  }

  lemma {:induction false} TransformForetold(env: Env, target: BackendKind, p: Plan)
    requires WellFormed(p) && Distributed(p) && TransformUp(target, p).Ok?
    ensures Foretold(env, target, p, TransformUp(target, p).value)
    decreases p, 1
  {
    if p.Aggregate? {
      AggregateForetold(env, target, p);
    } else if Unary(p) {
      OtherForetold(env, target, p);
    } else if p.GpuHashJoin? {
      GpuHashJoinForetold(env, target, p);
    } else if !p.Scan? {
      JoinForetold(env, target, p);
    }
  }

  lemma {:induction false} GpuHashJoinForetold(env: Env, target: BackendKind, p: Plan)
    requires p.GpuHashJoin? && WellFormed(p) && Distributed(p) && TransformUp(target, p).Ok?
    ensures Foretold(env, target, p, TransformUp(target, p).value)
    decreases p, 0
  {
    SidesDistributed(p);
    DeviceJoinTransform(target, p);
    TransformForetold(env, target, p.left);
    TransformForetold(env, target, p.right);
    GpuHashJoinStep(env, target, p, TransformUp(target, p.left).value, TransformUp(target, p.right).value);
  }

  lemma {:induction false} GpuHashJoinStep(env: Env, target: BackendKind, p: Plan, l: Plan, r: Plan)
    requires p.GpuHashJoin? && Foretold(env, target, p.left, l) && Foretold(env, target, p.right, r)
    ensures Foretold(env, target, p, WithSides(p, l, r))
  {
  }

  lemma {:induction false} JoinForetold(env: Env, target: BackendKind, p: Plan)
    requires (p.HashJoin? || p.SortMergeJoin?) && WellFormed(p) && Distributed(p) && TransformUp(target, p).Ok?
    ensures Foretold(env, target, p, TransformUp(target, p).value)
    decreases p, 0
  {
    var mid := SidesTransform(env, target, p);
    SidesDistributed(p);
    TransformForetold(env, target, p.left);
    TransformForetold(env, target, p.right);
    if p.HashJoin? {
      CollectedOnce(env, target, p);
      HashJoinStep(env, target, p, mid);
    } else {
      SortMergeStep(env, target, p, mid);
    }
  }

  /** A collected side still has its one partition. */
  lemma {:induction false} CollectedOnce(env: Env, target: BackendKind, p: Plan)
    requires p.HashJoin? && WellFormed(p) && Distributed(p) && TransformUp(target, p.left).Ok?
    ensures p.mode.CollectLeft? ==> PartCount(TransformUp(target, p.left).value) == 1
  {
    TransformRefines(env, target, p.left);
  }

  lemma {:induction false} HashJoinStep(env: Env, target: BackendKind, p: Plan, mid: Plan)
    requires p.HashJoin? && mid.HashJoin? && mid.mode == p.mode && WellFormed(mid)
    requires Foretold(env, target, p.left, mid.left) && Foretold(env, target, p.right, mid.right)
    requires p.mode.CollectLeft? ==> PartCount(mid.left) == 1
    requires Lowers(target, mid) == Lowers(target, p) && Rewrite(target, mid).Ok?
    ensures Foretold(env, target, p, Rewrite(target, mid).value)
  {
    if Lowers(target, mid) {
      LoweredJoinShape(target, mid);
      HashJoinLowered(env, target, p, mid, Lowered(target, mid).value.value);
    } else {
      HashJoinStays(env, target, p, mid);
    }
  }

  lemma {:induction false} HashJoinLowered(env: Env, target: BackendKind, p: Plan, mid: Plan, q: Plan)
    requires p.HashJoin? && mid.HashJoin? && q.GpuHashJoin? && q.left == mid.right && q.right == mid.left
      && Lowers(target, p)
    requires Foretold(env, target, p.left, mid.left) && Foretold(env, target, p.right, mid.right)
    ensures Foretold(env, target, p, q)
  {
  }

  lemma {:induction false} HashJoinStays(env: Env, target: BackendKind, p: Plan, mid: Plan)
    requires p.HashJoin? && mid.HashJoin? && mid.mode == p.mode && !Lowers(target, p)
    requires Foretold(env, target, p.left, mid.left) && Foretold(env, target, p.right, mid.right)
    requires p.mode.CollectLeft? ==> PartCount(mid.left) == 1
    ensures Foretold(env, target, p, mid)
  {
  }

  lemma {:induction false} SortMergeStep(env: Env, target: BackendKind, p: Plan, mid: Plan)
    requires p.SortMergeJoin? && mid.SortMergeJoin?
    requires Foretold(env, target, p.left, mid.left) && Foretold(env, target, p.right, mid.right)
    requires Lowers(target, mid) == Lowers(target, p) && Rewrite(target, mid).Ok?
    ensures Foretold(env, target, p, Rewrite(target, mid).value)
  {
    StripSortRunnable(env, mid.left);
    StripSortRunnable(env, mid.right);
    if Lowers(target, mid) {
      LoweredMergeShape(target, mid);
    }
  }

  lemma {:induction false} AggregateForetold(env: Env, target: BackendKind, p: Plan)
    requires p.Aggregate? && WellFormed(p) && Distributed(p) && TransformUp(target, p).Ok?
    ensures Foretold(env, target, p, TransformUp(target, p).value)
    decreases p, 0
  {
    var mid := InputTransform(env, target, p);
    UnaryChild(p);
    TransformForetold(env, target, p.input);
    TransformRefines(env, target, p.input);
    AggregateDecision(env, target, p, mid.input);
    AggregateStep(env, target, p, mid);
  }

  lemma {:induction false} AggregateStep(env: Env, target: BackendKind, p: Plan, mid: Plan)
    requires p.Aggregate? && mid.Aggregate? && WellFormed(mid) && Foretold(env, target, p.input, mid.input)
    requires Lowers(target, mid) == Lowers(target, p) && SourceAggregates(env, mid) == SourceAggregates(env, p)
    requires Rewrite(target, mid).Ok?
    ensures Foretold(env, target, p, Rewrite(target, mid).value)
  {
    if Lowers(target, mid) {
      LoweredAggregateRunnable(env, target, mid);
    }
  }

  lemma {:induction false} OtherForetold(env: Env, target: BackendKind, p: Plan)
    requires Unary(p) && !p.Aggregate? && WellFormed(p) && Distributed(p) && TransformUp(target, p).Ok?
    ensures Foretold(env, target, p, TransformUp(target, p).value)
    decreases p, 0
  {
    var mid := InputTransform(env, target, p);
    UnaryChild(p);
    TransformForetold(env, target, p.input);
    if p.GpuAggregate? {
      TransformRefines(env, target, p.input);
      GpuAggregateStep(env, target, p, mid.input);
    } else {
      OtherStep(env, target, p, mid);
    }
  }

  lemma {:induction false} OtherStep(env: Env, target: BackendKind, p: Plan, mid: Plan)
    requires Unary(p) && !p.Aggregate? && !p.GpuAggregate? && Unary(mid) && mid == WithInput(p, mid.input)
    requires Foretold(env, target, p.input, mid.input) && Rewrite(target, mid).Ok?
    ensures Foretold(env, target, p, Rewrite(target, mid).value)
  {
    if Lowers(target, mid) {
      if p.Filter? {
        LoweredFilterShape(target, mid);
      } else {
        FusedShape(target, mid);
        assert Runnable(env, mid.input) == Runnable(env, mid.input.input) && PartCount(mid.input) == PartCount(mid.input.input);
      }
    }
  }

  lemma {:induction false} GpuAggregateStep(env: Env, target: BackendKind, p: Plan, i: Plan)
    requires p.GpuAggregate? && Perm(Denote(env, i), Denote(env, p.input)) && Foretold(env, target, p.input, i)
    ensures Foretold(env, target, p, GpuAggregate(p.spec, p.schema, p.target, i))
  {
    AggregatesIff(env, p.spec, Denote(env, p.input), Denote(env, i));
    DeviceAggregateRunnable(env, GpuAggregate(p.spec, p.schema, p.target, i), i);
  }

  /**
   Exactly when a placed plan runs. For every plan the planner distributed, the
   plan `Optimize` returns has a run if and only if no partition-wise join left on
   the CPU is stranded and every lowered aggregation whose sums leave 64 bits runs
   on a device. Where some aggregation falls back, which rows it sees must not
   depend on the order that placement takes away.
   */
  lemma {:induction false} PlacedPlanRuns(env: Env, target: BackendKind, p: Plan)
    requires target.IsGpu() && WellFormed(p) && !HoldsStates(p) && Distributed(p) && Optimize(target, p).Ok?
    requires AllRan(env) || Kept(target, p)
    ensures HasRun(env, Optimize(target, p).value) <==> Ready(env, target, p)
  {
    var q := TransformUp(target, p).value;
    TransformRefines(env, target, p);
    KeptForetold(env, target, p);
    TransformForetold(env, target, p);
    RunnableIffHasRun(env, q);
  }

  /** With every aggregation on a device, partition counts alone decide. */
  lemma {:induction false} ReadyOnDevice(env: Env, target: BackendKind, p: Plan)
    requires AllRan(env)
    ensures Ready(env, target, p) <==> CountsStay(target, p)
    decreases p
  {
    if Unary(p) {
      ReadyOnDevice(env, target, p.input);
    } else if !p.Scan? {
      ReadyOnDevice(env, target, p.left);
      ReadyOnDevice(env, target, p.right);
    }
  }

  /** No partition-wise join is stranded. */
  predicate CountsStay(target: BackendKind, p: Plan)
    decreases p
  {
    if Unary(p) then CountsStay(target, p.input)
    else if p.Scan? then true
    else
      && CountsStay(target, p.left) && CountsStay(target, p.right)
      && (PartitionWise(p) && !Lowers(target, p) ==> NewCount(target, p.left) == NewCount(target, p.right))
  }
}
