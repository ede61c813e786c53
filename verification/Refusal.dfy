/**
 The placement rule is partial: the constructors' errors propagate out of it and
 fail the whole query. This module says exactly which plans it refuses.
 */
module Refusal {
  import opened Core
  import opened Plans
  import opened Execs
  import opened Placement
  import opened Preservation
  import opened Decisions
  import opened Refinement
  import opened Soundness
  import opened Liveness
  import opened Stranding

  /** A projection that only picks columns, each under its own name. */
  predicate PicksByName(exprs: seq<(Expr, string)>, s: Schema) {
    forall k :: 0 <= k < |exprs| ==>
      match exprs[k].0
      case Column(i) => i < |s| && s[i].name == exprs[k].1
      case _ => false
  }

  /** Will the placed plan be a device filter? */
  predicate BecomesFilter(p: Plan) {
    if p.Filter? then LowerPredicate(p.condition, SchemaOf(p.input)).Some?
    else if p.Projection? then BecomesFilter(p.input) && PicksByName(p.exprs, SchemaOf(p.input))
    else p.GpuFilter?
  }

  /** A filter the rule recognises but whose constructor rejects. */
  predicate RefusedFilter(e: Expr, projection: Option<seq<nat>>, s: Schema) {
    && LowerPredicate(e, s).Some?
    && (LowerPredicate(e, s).value.LeafCount() > 64 || projection == Some([]))
  }

  predicate RefusedNode(p: Plan) {
    match p
    case Filter(e, proj, i) => RefusedFilter(e, proj, SchemaOf(i))
    case Projection(es, i) => es == [] && BecomesFilter(i)
    case HashJoin(_, cond, proj, l, r) => IntColumnPair(cond, SchemaOf(l), SchemaOf(r)) && proj == Some([])
    case _ => false
  }

  /** Does `p` hold a node that makes the rule fail? */
  predicate Refused(p: Plan)
    decreases p
  {
    || RefusedNode(p)
    || (if Unary(p) then Refused(p.input) else !p.Scan? && (Refused(p.left) || Refused(p.right)))
  }

  lemma {:induction false} FilterOutcome(target: BackendKind, p: Plan)
    requires p.Filter? && WellFormed(p)
    ensures Lowered(target, p).Err? <==> RefusedFilter(p.condition, p.projection, SchemaOf(p.input))
    ensures Lowered(target, p).Ok? ==> (Lowered(target, p).value.Some? <==> BecomesFilter(p))
    ensures Lowers(target, p) ==> Lowered(target, p).value.value.GpuFilter?
  {
    var s := SchemaOf(p.input);
    if LowerPredicate(p.condition, s).Some? {
      LoweredPredicate(p.condition, s, []);
      var pred := LowerPredicate(p.condition, s).value;
      assert |s| > 0 by {
        PredicateNeedsColumn(pred, |s|);
      }
      var cols := FilterColumns(p.projection, s);
      NewFilterOutcome(p.input, pred, cols, target);
      assert ProjectSchema(s, cols) == SchemaOf(p);
    }
  }

  lemma {:induction false} NewFilterOutcome(input: Plan, pred: Predicate, cols: seq<nat>, target: BackendKind)
    requires LeavesTyped(SchemaOf(input), pred) && ColsInRange(cols, |SchemaOf(input)|)
    ensures NewFilter(input, pred, cols, target)
         == if pred.LeafCount() > MAX_PREDICATE_LEAVES || cols == [] then Err(PlanError) else Ok(GpuFilter(pred, cols, target, input))
    ensures SchemaOf(GpuFilter(pred, cols, target, input)) == ProjectSchema(SchemaOf(input), cols)
  {
  }

  lemma {:induction false} PredicateNeedsColumn(p: Predicate, width: nat)
    requires PredicateInRange(p, width)
    ensures width > 0
  {
    match p
    case Compare(_, _, _) =>
    case And(l, _) => PredicateNeedsColumn(l, width);
  }

  lemma {:induction false} RenamingIff(exprs: seq<(Expr, string)>, s: Schema)
    ensures PlainRenaming(exprs, s) <==> PicksByName(exprs, s)
  {
  }

  /** Fusing fails only on an empty projection. */
  lemma {:induction false} FuseOutcome(target: BackendKind, p: Plan)
    requires p.Projection?
      && (p.input.GpuFilter? ==> NewFilter(p.input.input, p.input.filter, p.input.cols, target).Ok?)
    ensures Lowered(target, p).Err? <==> p.exprs == [] && p.input.GpuFilter?
    ensures Lowered(target, p).Ok?
       ==> (Lowered(target, p).value.Some? <==> p.input.GpuFilter? && PicksByName(p.exprs, SchemaOf(p.input)))
    ensures Lowers(target, p) ==> Lowered(target, p).value.value.GpuFilter?
  {
    RenamingIff(p.exprs, SchemaOf(p.input));
    if p.input.GpuFilter? && PlainRenaming(p.exprs, SchemaOf(p.input)) {
      var cols := Fused(p.exprs, p.input.cols);
      assert ProjectSchema(SchemaOf(p.input.input), cols) == SchemaOf(p);
    }
  }

  /** What the rewrite does to a node, foretold on the plan before it. */
  ghost predicate Decided(target: BackendKind, p: Plan) {
    && (TransformUp(target, p).Err? <==> Refused(p))
    && (TransformUp(target, p).Ok? ==> (TransformUp(target, p).value.GpuFilter? <==> BecomesFilter(p)))
    && (TransformUp(target, p).Ok? && TransformUp(target, p).value.GpuFilter? ==> Rebuildable(target, TransformUp(target, p).value))
  }

  /** A device filter in the result passes its own constructor. */
  predicate Rebuildable(target: BackendKind, q: Plan)
    requires q.GpuFilter?
  {
    NewFilter(q.input, q.filter, q.cols, target).Ok?
  }

  /** Device filters that are already in the plan passed their constructor. */
  predicate Constructed(p: Plan)
    decreases p
  {
    if Unary(p) then Constructed(p.input) && (p.GpuFilter? ==> NewFilter(p.input, p.filter, p.cols, p.target).Ok?)
    else p.Scan? || (Constructed(p.left) && Constructed(p.right))
  }

  lemma {:induction false} TransformDecided(env: Env, target: BackendKind, p: Plan)
    requires WellFormed(p) && Distributed(p) && Constructed(p)
    ensures Decided(target, p)
    decreases p, 1
  {
    if p.Filter? {
      FilterDecided(env, target, p);
    } else if p.Projection? {
      ProjectionDecided(env, target, p);
    } else if Unary(p) {
      OtherDecided(env, target, p);
    } else if !p.Scan? {
      JoinDecided(env, target, p);
    }
  }

  lemma {:induction false} JoinDecided(env: Env, target: BackendKind, p: Plan)
    requires TwoSided(p) && WellFormed(p) && Distributed(p) && Constructed(p)
    ensures Decided(target, p)
    decreases p, 0
  {
    SidesDistributed(p);
    TransformDecided(env, target, p.left);
    TransformDecided(env, target, p.right);
    if TransformUp(target, p.left).Ok? && TransformUp(target, p.right).Ok? && !p.GpuHashJoin? {
      var mid := SidesTransform(env, target, p);
      JoinOutcome(target, p, mid);
    }
  }

  lemma {:induction false} JoinOutcome(target: BackendKind, p: Plan, mid: Plan)
    requires (p.HashJoin? && mid.HashJoin? && mid.projection == p.projection)
      || (p.SortMergeJoin? && mid.SortMergeJoin?)
    requires WellFormed(mid) && mid.cond == p.cond
    requires SchemaOf(mid.left) == SchemaOf(p.left) && SchemaOf(mid.right) == SchemaOf(p.right)
    ensures Rewrite(target, mid).Err? <==> RefusedNode(p)
    ensures Rewrite(target, mid).Ok? ==> !Rewrite(target, mid).value.GpuFilter?
  {
    if p.HashJoin? {
      JoinLowersIff(target, mid);
    } else {
      MergeLowersIff(target, mid);
    }
  }

  lemma {:induction false} FilterDecided(env: Env, target: BackendKind, p: Plan)
    requires p.Filter? && WellFormed(p) && Distributed(p) && Constructed(p)
    ensures Decided(target, p)
    decreases p, 0
  {
    UnaryChild(p);
    TransformDecided(env, target, p.input);
    UnaryUnfold(target, p);
    if TransformUp(target, p.input).Ok? {
      var mid := InputTransform(env, target, p);
      FilterRewritten(target, mid);
    }
  }

  lemma {:induction false} FilterRewritten(target: BackendKind, p: Plan)
    requires p.Filter? && WellFormed(p)
    ensures Rewrite(target, p).Err? <==> RefusedFilter(p.condition, p.projection, SchemaOf(p.input))
    ensures Rewrite(target, p).Ok? ==>
      (Rewrite(target, p).value.GpuFilter? <==> LowerPredicate(p.condition, SchemaOf(p.input)).Some?)
    ensures Rewrite(target, p).Ok? && Rewrite(target, p).value.GpuFilter? ==>
      Rebuildable(target, Rewrite(target, p).value)
  {
    FilterOutcome(target, p);
    if Lowers(target, p) {
      FilterRebuildable(target, p);
    }
  }

  lemma {:induction false} FilterRebuildable(target: BackendKind, p: Plan)
    requires p.Filter? && Lowers(target, p)
    ensures Lowered(target, p).value.value.GpuFilter? && Rebuildable(target, Lowered(target, p).value.value)
  {
  }

  lemma {:induction false} ProjectionDecided(env: Env, target: BackendKind, p: Plan)
    requires p.Projection? && WellFormed(p) && Distributed(p) && Constructed(p)
    ensures Decided(target, p)
    decreases p, 0
  {
    UnaryChild(p);
    TransformDecided(env, target, p.input);
    UnaryUnfold(target, p);
    if TransformUp(target, p.input).Ok? {
      var mid := InputTransform(env, target, p);
      FuseOutcome(target, mid);
      FusedRebuildable(target, mid);
    }
  }

  lemma {:induction false} FusedRebuildable(target: BackendKind, p: Plan)
    requires p.Projection?
    ensures Lowers(target, p) ==>
      Lowered(target, p).value.value.GpuFilter? && Rebuildable(target, Lowered(target, p).value.value)
  {
  }

  lemma {:induction false} OtherDecided(env: Env, target: BackendKind, p: Plan)
    requires Unary(p) && !p.Filter? && !p.Projection?
    requires WellFormed(p) && Distributed(p) && Constructed(p)
    ensures Decided(target, p)
    decreases p, 0
  {
    UnaryChild(p);
    UnaryUnfold(target, p);
    TransformDecided(env, target, p.input);
    if TransformUp(target, p.input).Ok? {
      var mid := InputTransform(env, target, p);
      if p.Aggregate? {
        AggregateLowersIff(target, mid);
      } else if p.GpuFilter? {
        assert Rebuildable(target, mid);
      }
    }
  }

  /** The rule fails on a plan exactly when the plan holds a refused node. */
  lemma {:induction false} PlacementFails(env: Env, target: BackendKind, p: Plan)
    requires WellFormed(p) && Distributed(p) && Constructed(p)
    ensures Optimize(target, p).Err? <==> (target == Cuda || target == Metal) && Refused(p)
    ensures target == CpuSimd ==> Optimize(target, p) == Ok(p)
  {
    TransformDecided(env, target, p);
  }

  // ---------------------------------------------------------------- examples

  const KEY: Field := Field("k", Int64, true)

  /** A scan of one key column in two (empty) partitions. */
  const TWO_PARTS: Plan := Scan([KEY], [[], []])

  const GROUP: seq<(Expr, string)> := [(Column(0), "k")]

  const KEY_STATES: Plan := Aggregate(Partial, GROUP, [], TWO_PARTS)

  const SHUFFLED_STATES: Plan := Repartition(HashBy([0], 2), KEY_STATES)

  /** `SELECT DISTINCT k`, planned in two phases and hash-partitioned by `k`. */
  const DISTINCT_KEYS: Plan := Aggregate(FinalPartitioned, GROUP, [], SHUFFLED_STATES)

  const RIGHT_KEYS: Plan := Repartition(HashBy([0], 2), TWO_PARTS)

  const RESIDUAL: JoinOn := JoinOn([(Column(0), Column(0))], Some(Constant(Bool(true))), false)

  /** A partition-wise join on `k` with a residual filter, which the rule leaves on the CPU. */
  const STRANDED: Plan := HashJoin(Partitioned, RESIDUAL, None, DISTINCT_KEYS, RIGHT_KEYS)

  /** A plan the planner may hand over. */
  ghost predicate Valid(p: Plan) {
    && WellFormed(p) && Distributed(p) && Constructed(p) && !Refused(p) && MergeFree(p)
    && SchemaOf(p) == [KEY] && PartCount(p) == 2
  }

  lemma {:induction false} StatesValid()
    ensures Valid(TWO_PARTS) && Valid(KEY_STATES) && Valid(SHUFFLED_STATES) && Valid(RIGHT_KEYS)
    ensures !HoldsStates(TWO_PARTS) && HoldsStates(SHUFFLED_STATES) && PartialOf(SHUFFLED_STATES) == KEY_STATES
  {
    assert Valid(TWO_PARTS) && !HoldsStates(TWO_PARTS);
    assert SchemaOf(KEY_STATES) == [KEY];
    assert Valid(KEY_STATES) && HoldsStates(KEY_STATES) && PartialOf(KEY_STATES) == KEY_STATES;
  }

  lemma {:induction false} DistinctValid()
    ensures Valid(DISTINCT_KEYS) && !HoldsStates(DISTINCT_KEYS) && HashCols(DISTINCT_KEYS) == Some([0])
  {
    StatesValid();
    assert HashCols(SHUFFLED_STATES) == Some([0]);
    assert KeyDetermines(GROUP, [0]) by {
      assert GROUP[0].0 == Column([0][0]);
    }
    assert ForwardExprs(GROUP, [0]) == Some([0]) by {
      assert FirstColumn(GROUP, 0) == Some(0);
      assert ForwardExprs(GROUP, [0][1..]) == Some([]);
      assert [0] + [] == [0];
    }
    assert SchemaOf(DISTINCT_KEYS) == [KEY];
  }

  lemma {:induction false} DistinctCollapses()
    ensures NewCount(Cuda, DISTINCT_KEYS) == 1
  {
    StatesValid();
    DistinctValid();
    AggregateLowersIff(Cuda, DISTINCT_KEYS);
    assert RawAggregate(DISTINCT_KEYS) == KEY_STATES && AggregateLowerable(KEY_STATES);
  }

  lemma {:induction false} StrandedValid(env: Env)
    ensures WellFormed(STRANDED) && Distributed(STRANDED) && Constructed(STRANDED) && !Refused(STRANDED)
    ensures Runnable(env, STRANDED) && MergeFree(STRANDED)
  {
    StatesValid();
    DistinctValid();
    assert HashCols(RIGHT_KEYS) == Some([0]);
    assert OnDetermines(RESIDUAL, [0], [0]) by {
      assert (Column([0][0]), Column([0][0])) == RESIDUAL.on[0];
    }
    assert CoDistributed(DISTINCT_KEYS, RIGHT_KEYS, RESIDUAL);
    assert Runnable(env, TWO_PARTS) && Runnable(env, KEY_STATES) && Runnable(env, SHUFFLED_STATES);
    assert Runnable(env, DISTINCT_KEYS) && Runnable(env, RIGHT_KEYS);
  }

  /**
   A query that runs before placement and not after it: the lowered aggregate has
   one partition, the other side of the join still has two.
   */
  lemma {:induction false} StrandedJoin(env: Env)
    ensures WellFormed(STRANDED) && Distributed(STRANDED) && HasRun(env, STRANDED)
    ensures Optimize(Cuda, STRANDED).Ok? && !HasRun(env, Optimize(Cuda, STRANDED).value)
  {
    StrandedValid(env);
    DistributedContract(STRANDED);
    DistributedOrderly(STRANDED);
    MergeFreeKept(Cuda, STRANDED);
    RunnableIffHasRun(env, STRANDED);
    PlacementFails(env, Cuda, STRANDED);
    DistinctCollapses();
    StrandedNotReady(env);
    PlacedPlanRuns(env, Cuda, STRANDED);
  }

  lemma {:induction false} StrandedNotReady(env: Env)
    requires NewCount(Cuda, DISTINCT_KEYS) == 1
    ensures !Ready(env, Cuda, STRANDED)
  {
    assert NewCount(Cuda, RIGHT_KEYS) == 2;
    assert SingleKey(RESIDUAL, SchemaOf(DISTINCT_KEYS), SchemaOf(RIGHT_KEYS)) == None;
    assert !Lowers(Cuda, STRANDED);
  }

  lemma {:induction false} DistinctRuns(env: Env)
    ensures HasRun(env, DISTINCT_KEYS) && Ready(env, Cuda, DISTINCT_KEYS)
  {
    DistinctValid();
    DistributedContract(DISTINCT_KEYS);
    DistributedOrderly(DISTINCT_KEYS);
    RunnableIffHasRun(env, DISTINCT_KEYS);
    assert Runnable(env, TWO_PARTS) && Runnable(env, KEY_STATES) && Runnable(env, SHUFFLED_STATES);
    assert Ready(env, Cuda, TWO_PARTS) && Ready(env, Cuda, KEY_STATES) && Ready(env, Cuda, SHUFFLED_STATES);
  }

  /** A two-phase aggregate that is rewritten and runs before and after: the premises of soundness can be met. */
  lemma {:induction false} PlacedExample(env: Env)
    ensures WellFormed(DISTINCT_KEYS) && !HoldsStates(DISTINCT_KEYS) && Distributed(DISTINCT_KEYS)
      && Kept(Cuda, DISTINCT_KEYS)
    ensures Optimize(Cuda, DISTINCT_KEYS).Ok?
    ensures HasRun(env, DISTINCT_KEYS) && HasRun(env, Optimize(Cuda, DISTINCT_KEYS).value)
    ensures Optimize(Cuda, DISTINCT_KEYS).value != DISTINCT_KEYS
  {
    DistinctValid();
    DistinctRuns(env);
    MergeFreeKept(Cuda, DISTINCT_KEYS);
    PlacementFails(env, Cuda, DISTINCT_KEYS);
    PlacedPlanRuns(env, Cuda, DISTINCT_KEYS);
    DistinctCollapses();
    TransformForetold(env, Cuda, DISTINCT_KEYS);
  }

  /** `WHERE k > 0` keeping no column, as under `COUNT(*)`. */
  const BARE_FILTER: Plan :=
    Filter(Binary(OpCompare(Gt), Column(0), Constant(I64(0))), Some([]), TWO_PARTS)

  /** A runnable query on which the rule fails. */
  lemma {:induction false} EmptyProjectionFails(env: Env)
    ensures WellFormed(BARE_FILTER) && Distributed(BARE_FILTER) && HasRun(env, BARE_FILTER)
    ensures Optimize(Cuda, BARE_FILTER).Err?
  {
    DistributedContract(BARE_FILTER);
    DistributedOrderly(BARE_FILTER);
    RunnableIffHasRun(env, BARE_FILTER);
    PlacementFails(env, Cuda, BARE_FILTER);
  }
}
