/**
 The placement theorem. Device joins and aggregates promise no row order, and the
 rule drops the sorts below the merge joins it replaces. A merge join that stays
 on the CPU above them reads unsorted rows and loses matches. Placement is sound
 for exactly the plans in which no merge join is left in that position, which is
 decided here on the plan before placement.
 */
module Soundness {
  import opened Core
  import opened Bags
  import opened Plans
  import opened Placement
  import opened Determinacy
  import opened Preservation
  import opened Decisions
  import opened Refinement

  // ------------------------------------------------- order, before placement

  /** Will the placed plan deliver ascending `cols`: by a sort, through nodes that keep order and stay on the CPU? */
  ghost predicate StaysOrdered(target: BackendKind, p: Plan, cols: seq<nat>)
    decreases p
  {
    && ColsInRange(cols, |SchemaOf(p)|)
    && if RowWise(p) then Behind(p, cols).Some? && StaysOrdered(target, p.input, Behind(p, cols).value)
       else match p
         case Sort(keys, _, _) => cols <= keys
         case HashJoin(_, _, proj, l, r) =>
           var back := OnRight(proj, |SchemaOf(l)|, cols);
           !Lowers(target, p) && back.Some? && StaysOrdered(target, r, back.value)
         case SortMergeJoin(cond, l, _) =>
           && !Lowers(target, p) && AllOnLeft(cond.on, |SchemaOf(l)|, cols)
           && StaysOrdered(target, l, ToLeft(cond.on, |SchemaOf(l)|, cols))
         case _ => false
  }

  ghost predicate SidesStay(target: BackendKind, on: seq<(Expr, Expr)>, l: Plan, r: Plan) {
    OnColumns(on) && StaysOrdered(target, l, LeftCols(on)) && StaysOrdered(target, r, RightCols(on))
  }

  /** Every merge join is lowered or keeps the order it merges by. */
  ghost predicate Kept(target: BackendKind, p: Plan)
    decreases p
  {
    if Unary(p) then Kept(target, p.input)
    else if p.Scan? then true
    else
      && Kept(target, p.left) && Kept(target, p.right)
      && (p.SortMergeJoin? && !Lowers(target, p) ==> SidesStay(target, p.cond.on, p.left, p.right))
  }

  // ------------------------------------------------------ order of one node

  /** A lowered filter delivers what order the filter delivered. */
  lemma {:induction false} FilterOrder(target: BackendKind, p: Plan, cols: seq<nat>)
    requires p.Filter? && Lowers(target, p)
    ensures OrderOn(Lowered(target, p).value.value, cols) <==> OrderOn(p, cols)
  {
    LoweredFilterShape(target, p);
    var (s, out) := (SchemaOf(p.input), FilterColumns(p.projection, SchemaOf(p.input)));
    if ColsInRange(cols, |out|) {
      assert Through(out, cols) == Back(p.projection, cols);
    }
  }

  lemma {:induction false} FusedShape(target: BackendKind, p: Plan)
    requires p.Projection? && Lowers(target, p)
    ensures p.input.GpuFilter? && PlainRenaming(p.exprs, SchemaOf(p.input))
    ensures var q := Lowered(target, p).value.value;
            q == GpuFilter(p.input.filter, Fused(p.exprs, p.input.cols), target, p.input.input) && SchemaOf(q) == SchemaOf(p)
  {
  }

  lemma {:induction false} FuseOrder(target: BackendKind, p: Plan, cols: seq<nat>)
    requires p.Projection? && Lowers(target, p)
    ensures OrderOn(Lowered(target, p).value.value, cols) <==> OrderOn(p, cols)
  {
    FusedShape(target, p);
    var out := Fused(p.exprs, p.input.cols);
    if ColsInRange(cols, |out|) {
      assert PlainCols(p.exprs, cols);
      assert Through(out, cols) == Through(p.input.cols, ThroughExprs(p.exprs, cols));
      assert ColsInRange(ThroughExprs(p.exprs, cols), |SchemaOf(p.input)|);
    }
  }

  /** The rewrite of a node keeps its order, except that lowered joins have none. */
  lemma {:induction false} RewriteOrder(target: BackendKind, mid: Plan, cols: seq<nat>)
    requires WellFormed(mid) && Rewrite(target, mid).Ok?
    ensures OrderOn(Rewrite(target, mid).value, cols)
       <==> OrderOn(mid, cols) && ((mid.HashJoin? || mid.SortMergeJoin?) ==> !Lowers(target, mid))
  {
    if Lowers(target, mid) {
      match mid
      case Filter(_, _, _) => FilterOrder(target, mid, cols);
      case Projection(_, _) => FuseOrder(target, mid, cols);
      case HashJoin(_, _, _, _, _) => JoinLowersIff(target, mid);
      case SortMergeJoin(_, _, _) => MergeLowersIff(target, mid);
      case Aggregate(_, _, _, _) => AggregateLowersIff(target, mid);
    }
  }

  /** Joins over rewritten sides are decided as before. */
  lemma {:induction false} SameDecision(target: BackendKind, p: Plan, mid: Plan)
    requires WellFormed(p) && WellFormed(mid)
    requires (p.HashJoin? && mid.HashJoin? && mid.projection == p.projection)
      || (p.SortMergeJoin? && mid.SortMergeJoin?)
    requires mid.cond == p.cond && SchemaOf(mid.left) == SchemaOf(p.left) && SchemaOf(mid.right) == SchemaOf(p.right)
    ensures Lowers(target, mid) == Lowers(target, p)
  {
    if p.HashJoin? {
      JoinLowersIff(target, p);
      JoinLowersIff(target, mid);
    } else {
      MergeLowersIff(target, p);
      MergeLowersIff(target, mid);
    }
  }

  // ------------------------------------------------------------ order foretold

  /** `StaysOrdered` foretells exactly the orders of the placed plan. */
  lemma {:induction false} OrderForetold(env: Env, target: BackendKind, p: Plan, cols: seq<nat>)
    requires WellFormed(p) && Distributed(p) && TransformUp(target, p).Ok?
    ensures OrderOn(TransformUp(target, p).value, cols) <==> StaysOrdered(target, p, cols)
    decreases p, 1
  {
    if Unary(p) {
      UnaryForetold(env, target, p, cols);
    } else if p.HashJoin? {
      HashJoinForetold(env, target, p, cols);
    } else if p.SortMergeJoin? {
      SortMergeForetold(env, target, p, cols);
    }
  }

  /** A join over its rewritten sides, before it is rewritten itself. */
  lemma {:induction false} SidesTransform(env: Env, target: BackendKind, p: Plan) returns (mid: Plan)
    requires (p.HashJoin? || p.SortMergeJoin?) && WellFormed(p) && Distributed(p)
    requires TransformUp(target, p.left).Ok? && TransformUp(target, p.right).Ok?
    ensures TwoSided(mid) && mid == WithSides(p, mid.left, mid.right) && WellFormed(mid) && SchemaOf(mid) == SchemaOf(p)
    ensures TransformUp(target, p.left) == Ok(mid.left) && TransformUp(target, p.right) == Ok(mid.right)
    ensures TransformUp(target, p) == Rewrite(target, mid)
    ensures SchemaOf(mid.left) == SchemaOf(p.left) && SchemaOf(mid.right) == SchemaOf(p.right)
    ensures Lowers(target, mid) == Lowers(target, p)
  {
    TransformRefines(env, target, p.left);
    TransformRefines(env, target, p.right);
    var (l, r) := (TransformUp(target, p.left).value, TransformUp(target, p.right).value);
    mid := WithSides(p, l, r);
    if p.HashJoin? {
      HashJoinSame(env, p, l, r);
    } else {
      SortMergeJoinSame(env, p, l, r);
    }
    SameDecision(target, p, mid);
  }

  lemma {:induction false} SidesDistributed(p: Plan)
    requires TwoSided(p) && WellFormed(p) && Distributed(p)
    ensures WellFormed(p.left) && Distributed(p.left) && WellFormed(p.right) && Distributed(p.right)
  {
  }

  lemma {:induction false} HashJoinForetold(env: Env, target: BackendKind, p: Plan, cols: seq<nat>)
    requires p.HashJoin? && WellFormed(p) && Distributed(p) && TransformUp(target, p).Ok?
    ensures OrderOn(TransformUp(target, p).value, cols) <==> StaysOrdered(target, p, cols)
    decreases p, 0
  {
    var mid := SidesTransform(env, target, p);
    RewriteOrder(target, mid, cols);
    SidesDistributed(p);
    var back := OnRight(p.projection, |SchemaOf(p.left)|, cols);
    if back.Some? {
      OrderForetold(env, target, p.right, back.value);
    }
    HashJoinOrder(target, p, mid, cols);
  }

  lemma {:induction false} HashJoinOrder(target: BackendKind, p: Plan, mid: Plan, cols: seq<nat>)
    requires p.HashJoin? && mid.HashJoin? && mid.projection == p.projection
    requires SchemaOf(mid) == SchemaOf(p) && SchemaOf(mid.left) == SchemaOf(p.left)
    requires var back := OnRight(p.projection, |SchemaOf(p.left)|, cols);
             back.Some? ==> (OrderOn(mid.right, back.value) <==> StaysOrdered(target, p.right, back.value))
    ensures OrderOn(mid, cols) && !Lowers(target, p) <==> StaysOrdered(target, p, cols)
  {
  }

  lemma {:induction false} SortMergeForetold(env: Env, target: BackendKind, p: Plan, cols: seq<nat>)
    requires p.SortMergeJoin? && WellFormed(p) && Distributed(p) && TransformUp(target, p).Ok?
    ensures OrderOn(TransformUp(target, p).value, cols) <==> StaysOrdered(target, p, cols)
    decreases p, 0
  {
    var mid := SidesTransform(env, target, p);
    RewriteOrder(target, mid, cols);
    SidesDistributed(p);
    if AllOnLeft(p.cond.on, |SchemaOf(p.left)|, cols) {
      OrderForetold(env, target, p.left, ToLeft(p.cond.on, |SchemaOf(p.left)|, cols));
    }
    SortMergeOrder(target, p, mid, cols);
  }

  lemma {:induction false} SortMergeOrder(target: BackendKind, p: Plan, mid: Plan, cols: seq<nat>)
    requires p.SortMergeJoin? && mid.SortMergeJoin? && mid.cond == p.cond
    requires SchemaOf(mid) == SchemaOf(p) && SchemaOf(mid.left) == SchemaOf(p.left)
    requires var (on, lw) := (p.cond.on, |SchemaOf(p.left)|);
             AllOnLeft(on, lw, cols)
             ==> (OrderOn(mid.left, ToLeft(on, lw, cols)) <==> StaysOrdered(target, p.left, ToLeft(on, lw, cols)))
    ensures OrderOn(mid, cols) && !Lowers(target, p) <==> StaysOrdered(target, p, cols)
  {
  }

  lemma {:induction false} UnaryForetold(env: Env, target: BackendKind, p: Plan, cols: seq<nat>)
    requires Unary(p) && WellFormed(p) && Distributed(p) && TransformUp(target, p).Ok?
    ensures OrderOn(TransformUp(target, p).value, cols) <==> StaysOrdered(target, p, cols)
    decreases p, 0
  {
    var mid := InputTransform(env, target, p);
    UnaryChild(p);
    RewriteOrder(target, mid, cols);
    if RowWise(p) && Behind(p, cols).Some? {
      OrderForetold(env, target, p.input, Behind(p, cols).value);
    }
    UnaryOrder(target, p, mid.input, cols);
  }

  /** A one-input node over its rewritten input, before it is rewritten itself. */
  lemma {:induction false} InputTransform(env: Env, target: BackendKind, p: Plan) returns (mid: Plan)
    requires Unary(p) && WellFormed(p) && Distributed(p) && TransformUp(target, p.input).Ok?
    ensures Unary(mid) && mid == WithInput(p, mid.input) && WellFormed(mid) && SchemaOf(mid) == SchemaOf(p)
    ensures TransformUp(target, p.input) == Ok(mid.input) && TransformUp(target, p) == Rewrite(target, mid)
    ensures SchemaOf(mid.input) == SchemaOf(p.input)
  {
    UnaryChild(p);
    TransformRefines(env, target, p.input);
    var i := TransformUp(target, p.input).value;
    UnaryFits(p, i);
    WithInputShape(p, i);
    mid := WithInput(p, i);
  }

  lemma {:induction false} WithInputShape(p: Plan, i: Plan)
    requires Unary(p)
    ensures Unary(WithInput(p, i)) && WithInput(p, i).input == i
  {
  }

  lemma {:induction false} UnaryOrder(target: BackendKind, p: Plan, i: Plan, cols: seq<nat>)
    requires Unary(p) && SchemaOf(i) == SchemaOf(p.input) && SchemaOf(WithInput(p, i)) == SchemaOf(p)
    requires RowWise(p) && Behind(p, cols).Some?
             ==> (OrderOn(i, Behind(p, cols).value) <==> StaysOrdered(target, p.input, Behind(p, cols).value))
    ensures OrderOn(WithInput(p, i), cols) <==> StaysOrdered(target, p, cols)
  {
    if RowWise(p) {
      BehindStays(p, i, cols);
    }
  }

  lemma {:induction false} BehindStays(p: Plan, i: Plan, cols: seq<nat>)
    requires RowWise(p) && SchemaOf(i) == SchemaOf(p.input)
    ensures RowWise(WithInput(p, i)) && WithInput(p, i).input == i && Behind(WithInput(p, i), cols) == Behind(p, cols)
  {
  }

  // --------------------------------------------------------- merges foretold

  lemma {:induction false} StripSortOrderly(p: Plan)
    ensures Orderly(StripSort(p)) == Orderly(p)
  {
  }

  lemma {:induction false} ChainOrderly(p: Plan)
    requires HoldsStates(p)
    ensures Orderly(p) == Orderly(PartialOf(p).input)
  {
    match p
    case Repartition(_, i) => ChainOrderly(i);
    case Coalesce(i) => ChainOrderly(i);
    case _ =>
  }

  lemma {:induction false} AggregateOrderly(target: BackendKind, p: Plan)
    requires p.Aggregate? && WellFormed(p) && Lowers(target, p)
    ensures Orderly(Lowered(target, p).value.value) == Orderly(p)
  {
    LoweredAggregateShape(target, p);
    RawSource(p);
    if p.aggMode.Final? || p.aggMode.FinalPartitioned? {
      ChainOrderly(p.input);
    }
    var source := RawAggregate(p).input;
    assert Orderly(Coalesce(source)) == Orderly(source);
  }

  /** A merge join is relieved of its ordering contract by being lowered; no other node had one. */
  lemma {:induction false} RewriteOrderly(target: BackendKind, mid: Plan)
    requires WellFormed(mid) && Rewrite(target, mid).Ok?
    ensures Orderly(Rewrite(target, mid).value)
       <==> if mid.SortMergeJoin? && Lowers(target, mid) then Orderly(mid.left) && Orderly(mid.right) else Orderly(mid)
  {
    if Lowers(target, mid) {
      match mid
      case Filter(_, _, _) => LoweredFilterShape(target, mid);
      case Projection(_, _) =>
        FusedShape(target, mid);
        assert Orderly(mid.input) == Orderly(mid.input.input);
      case HashJoin(_, _, _, _, _) => LoweredJoinShape(target, mid);
      case SortMergeJoin(_, l, r) =>
        LoweredMergeShape(target, mid);
        StripSortOrderly(l);
        StripSortOrderly(r);
      case Aggregate(_, _, _, _) => AggregateOrderly(target, mid);
    }
  }

  /** `Kept` foretells exactly whether the placed plan keeps the ordering contract. */
  lemma {:induction false} KeptForetold(env: Env, target: BackendKind, p: Plan)
    requires WellFormed(p) && Distributed(p) && TransformUp(target, p).Ok?
    ensures Orderly(TransformUp(target, p).value) <==> Kept(target, p)
    decreases p, 1
  {
    if Unary(p) {
      UnaryKept(env, target, p);
    } else if p.HashJoin? {
      HashJoinKept(env, target, p);
    } else if p.SortMergeJoin? {
      SortMergeKept(env, target, p);
    } else if p.GpuHashJoin? {
      KeptForetold(env, target, p.left);
      KeptForetold(env, target, p.right);
    }
  }

  lemma {:induction false} HashJoinKept(env: Env, target: BackendKind, p: Plan)
    requires p.HashJoin? && WellFormed(p) && Distributed(p) && TransformUp(target, p).Ok?
    ensures Orderly(TransformUp(target, p).value) <==> Kept(target, p)
    decreases p, 0
  {
    var mid := SidesTransform(env, target, p);
    SidesDistributed(p);
    KeptForetold(env, target, p.left);
    KeptForetold(env, target, p.right);
    RewriteOrderly(target, mid);
  }

  lemma {:induction false} SortMergeKept(env: Env, target: BackendKind, p: Plan)
    requires p.SortMergeJoin? && WellFormed(p) && Distributed(p) && TransformUp(target, p).Ok?
    ensures Orderly(TransformUp(target, p).value) <==> Kept(target, p)
    decreases p, 0
  {
    var mid := SidesTransform(env, target, p);
    SidesDistributed(p);
    KeptForetold(env, target, p.left);
    KeptForetold(env, target, p.right);
    RewriteOrderly(target, mid);
    SidesStayIff(env, target, p, mid.left, mid.right);
  }

  lemma {:induction false} SidesStayIff(env: Env, target: BackendKind, p: Plan, l: Plan, r: Plan)
    requires p.SortMergeJoin? && WellFormed(p.left) && Distributed(p.left) && WellFormed(p.right)
      && Distributed(p.right)
    requires TransformUp(target, p.left) == Ok(l) && TransformUp(target, p.right) == Ok(r)
    ensures MergeOrdered(p.cond.on, l, r) <==> SidesStay(target, p.cond.on, p.left, p.right)
  {
    if OnColumns(p.cond.on) {
      OrderForetold(env, target, p.left, LeftCols(p.cond.on));
      OrderForetold(env, target, p.right, RightCols(p.cond.on));
    }
  }

  lemma {:induction false} UnaryKept(env: Env, target: BackendKind, p: Plan)
    requires Unary(p) && WellFormed(p) && Distributed(p) && TransformUp(target, p).Ok?
    ensures Orderly(TransformUp(target, p).value) <==> Kept(target, p)
    decreases p, 0
  {
    var mid := InputTransform(env, target, p);
    UnaryChild(p);
    KeptForetold(env, target, p.input);
    RewriteOrderly(target, mid);
    UnaryOrderly(mid);
  }

  lemma {:induction false} UnaryOrderly(p: Plan)
    requires Unary(p)
    ensures Orderly(p) == Orderly(p.input) && !p.SortMergeJoin?
  {
  }

  // -------------------------------------------------------------- the theorem

  /**
   Placement is sound. For every plan the planner distributed and every target,
   if no merge join is left on the CPU above an order that placement takes away:
   when `Optimize` returns a plan, it has the same schema, and any run of it
   delivers the same bag of rows as any run of the original, wherever its
   aggregates run.
   */
  lemma {:induction false} PlacementSound(env: Env, target: BackendKind, p: Plan, out: seq<seq<Row>>,
                                          out': seq<seq<Row>>)
    requires WellFormed(p) && !HoldsStates(p) && Distributed(p)
    requires Optimize(target, p).Ok? && (target.IsGpu() ==> Kept(target, p))
    requires Runs(env, p, out) && Runs(env, Optimize(target, p).value, out')
    ensures SchemaOf(Optimize(target, p).value) == SchemaOf(p)
    ensures Perm(Flatten(out'), Flatten(out))
  {
    DistributedContract(p);
    DistributedOrderly(p);
    RunDelivers(env, p, out);
    if target.IsGpu() {
      TransformRefines(env, target, p);
      KeptForetold(env, target, p);
      RunDelivers(env, TransformUp(target, p).value, out');
    } else {
      RunDelivers(env, p, out');
    }
  }

  /** An order the rule does not take away is still there in every run. */
  lemma {:induction false} OrderSurvives(env: Env, target: BackendKind, p: Plan, cols: seq<nat>, out: seq<seq<Row>>)
    requires WellFormed(p) && Distributed(p) && target.IsGpu() && Optimize(target, p).Ok?
    requires StaysOrdered(target, p, cols) && Runs(env, Optimize(target, p).value, out)
    ensures Ascending(cols, out)
  {
    TransformRefines(env, target, p);
    OrderForetold(env, target, p, cols);
    RunOrdered(env, TransformUp(target, p).value, out, cols);
  }

  /** Without merge joins, as embedded sessions plan, there is nothing to keep. */
  predicate MergeFree(p: Plan)
    decreases p
  {
    if Unary(p) then MergeFree(p.input)
    else p.Scan? || (!p.SortMergeJoin? && MergeFree(p.left) && MergeFree(p.right))
  }

  lemma {:induction false} MergeFreeKept(target: BackendKind, p: Plan)
    requires MergeFree(p)
    ensures Kept(target, p)
    decreases p
  {
    if Unary(p) {
      MergeFreeKept(target, p.input);
    } else if !p.Scan? {
      MergeFreeKept(target, p.left);
      MergeFreeKept(target, p.right);
    }
  }
}
