/**
 Rewriting bottom up: a plan the query planner distributed correctly becomes a
 plan with the same schema and the same bag of rows that keeps the distribution
 contract.
 */
module Refinement {
  import opened Core
  import opened Bags
  import opened Groups
  import opened Plans
  import opened Placement
  import opened Preservation

  // ---------------------------------------------- how the planner distributes

  /** `cols` read through the projection `p`; `None` if one of them is dropped. */
  function Forward(p: seq<nat>, cols: seq<nat>): (r: Option<seq<nat>>)
    ensures r.Some? ==> ColsInRange(r.value, |p|) && Through(p, r.value) == cols
  {
    if cols == [] then Some([])
    else
      match (FirstIndex(p, cols[0]), Forward(p, cols[1..]))
      case (Some(k), Some(rest)) => Some([k] + rest)
      case _ => None
  }

  function ForwardOut(p: Option<seq<nat>>, cols: seq<nat>): (r: Option<seq<nat>>)
    ensures r.Some? ==> ProjCovers(p, r.value) && Back(p, r.value) == cols
  {
    if p.None? then Some(cols) else Forward(p.value, cols)
  }

  function FirstColumn(es: seq<(Expr, string)>, c: nat): (r: Option<nat>)
    ensures r.Some? ==> r.value < |es| && es[r.value].0.Column? && es[r.value].0.index == c
  {
    if es == [] then None
    else if es[0].0.Column? && es[0].0.index == c then Some(0)
    else match FirstColumn(es[1..], c)
      case None => None
      case Some(k) => Some(k + 1)
  }

  function ForwardExprs(es: seq<(Expr, string)>, cols: seq<nat>): (r: Option<seq<nat>>)
    ensures r.Some? ==> PlainCols(es, r.value) && ThroughExprs(es, r.value) == cols
  {
    if cols == [] then Some([])
    else
      match (FirstColumn(es, cols[0]), ForwardExprs(es, cols[1..]))
      case (Some(k), Some(rest)) => Some([k] + rest)
      case _ => None
  }

  /** The columns the planner knows a node's output to be hash-partitioned by. */
  function HashCols(p: Plan): Option<seq<nat>> {
    match p
    case Repartition(s, _) => if s.HashBy? then Some(s.cols) else None
    case Filter(_, proj, i) => if HashCols(i).Some? then ForwardOut(proj, HashCols(i).value) else None
    case Projection(es, i) => if HashCols(i).Some? then ForwardExprs(es, HashCols(i).value) else None
    case HashJoin(_, _, proj, l, r) =>
      if HashCols(r).Some? then ForwardOut(proj, Shift(HashCols(r).value, |SchemaOf(l)|)) else None
    case SortMergeJoin(_, l, r) => if HashCols(r).Some? then Some(Shift(HashCols(r).value, |SchemaOf(l)|)) else None
    case Sort(_, _, i) => HashCols(i)
    case Aggregate(_, g, _, i) => if HashCols(i).Some? then ForwardExprs(g, HashCols(i).value) else None
    case GpuFilter(_, cols, _, i) => if HashCols(i).Some? then Forward(cols, HashCols(i).value) else None
    case GpuVectorDistance(_, _, _, _, _, i) => HashCols(i)
    case _ => None
  }

  ghost predicate CoDistributed(l: Plan, r: Plan, cond: JoinOn) {
    && PartCount(l) == PartCount(r)
    && (PartCount(l) <= 1
        || (HashCols(l).Some? && HashCols(r).Some? && OnDetermines(cond, HashCols(l).value, HashCols(r).value)))
  }

  ghost predicate GroupsDistributed(p: Plan)
    requires p.Aggregate?
  {
    || p.aggMode.Partial? || PartCount(p.input) <= 1
    || (&& (p.aggMode.FinalPartitioned? || p.aggMode.SinglePartitioned?)
        && HashCols(p.input).Some? && KeyDetermines(p.group, HashCols(p.input).value))
  }

  /** Every node's requirements on the distribution and order of its inputs are met. */
  ghost predicate Distributed(p: Plan)
    decreases p
  {
    if Unary(p) then Distributed(p.input) && (p.Aggregate? ==> GroupsDistributed(p))
    else if p.Scan? then true
    else
      && Distributed(p.left) && Distributed(p.right)
      && (p.HashJoin? && p.mode.CollectLeft? ==> PartCount(p.left) == 1)
      && (PartitionWise(p) ==> CoDistributed(p.left, p.right, p.cond))
      && (p.SortMergeJoin? ==> MergeOrdered(p.cond.on, p.left, p.right))
  }

  lemma {:induction false} HashColsInRange(p: Plan)
    requires WellFormed(p) && HashCols(p).Some?
    ensures ColsInRange(HashCols(p).value, |SchemaOf(p)|)
    decreases p
  {
    match p
    case Repartition(_, _) =>
    case Filter(_, _, i) => HashColsInRange(i);
    case Projection(_, _) =>
    case HashJoin(_, _, proj, l, r) => HashColsInRange(r);
    case SortMergeJoin(_, _, r) => HashColsInRange(r);
    case Sort(_, _, i) => HashColsInRange(i);
    case Aggregate(_, _, _, _) =>
    case GpuFilter(_, _, _, _) =>
    case GpuVectorDistance(_, _, _, _, _, i) => HashColsInRange(i);
  }

  // ---------------------------------------------------------- the invariant

  ghost predicate SamePartial(p: Plan, q: Plan)
    requires HoldsStates(p) && HoldsStates(q)
  {
    && PartialOf(p).group == PartialOf(q).group && PartialOf(p).aggrs == PartialOf(q).aggrs
    && SchemaOf(PartialOf(p).input) == SchemaOf(PartialOf(q).input)
  }

  /** `q` fits wherever `p` fits. */
  ghost predicate Fits(p: Plan, q: Plan) {
    && SchemaOf(q) == SchemaOf(p)
    && WellFormed(q)
    && HoldsStates(q) == HoldsStates(p)
    && (HoldsStates(p) ==> SamePartial(p, q))
  }

  /** `q` means what `p` means. */
  ghost predicate Same(env: Env, p: Plan, q: Plan) {
    && Fits(p, q)
    && Perm(Denote(env, q), Denote(env, p))
    && (HoldsStates(p) ==> Perm(Denote(env, PartialOf(q).input), Denote(env, PartialOf(p).input)))
  }

  /** `q` keeps the contract, and either `p`'s partitioning or a single partition. */
  ghost predicate Placed(p: Plan, q: Plan) {
    && Contract(q)
    && (PartCount(q) == PartCount(p) || PartCount(q) == 1)
    && (HashCols(p).Some? ==> HashOn(q, HashCols(p).value) || PartCount(q) <= 1)
  }

  // -------------------------------------------------------- new children

  lemma {:induction false} NodeRowsPerm(env: Env, p: Plan, s: seq<Row>, t: seq<Row>)
    requires Unary(p) && Perm(s, t)
    ensures Perm(NodeRows(env, p, s), NodeRows(env, p, t))
  {
    if RowWise(p) {
      FlatMapPerm(RowFn(env, p), s, t);
    } else if p.Aggregate? {
      GroupPerm(GroupingOf(p.aggMode, p.group, p.aggrs), s, t);
    } else if p.GpuAggregate? {
      GroupPerm(SpecGrouping(p.spec), s, t);
    }
  }

  lemma {:induction false} WithInputRows(env: Env, p: Plan, i: Plan)
    requires Unary(p)
    ensures Denote(env, WithInput(p, i)) == NodeRows(env, p, Denote(env, i))
  {
    if RowWise(p) {
    } else if p.Aggregate? {
    } else if p.GpuAggregate? {
    } else {
    }
  }

  lemma {:induction false} UnaryBag(env: Env, p: Plan, i: Plan)
    requires Unary(p) && Perm(Denote(env, i), Denote(env, p.input))
    ensures Perm(Denote(env, WithInput(p, i)), Denote(env, p))
  {
    WithInputRows(env, p, i);
    NodeRowsPerm(env, p, Denote(env, i), Denote(env, p.input));
  }

  lemma {:induction false} UnaryFits(p: Plan, i: Plan)
    requires Unary(p) && WellFormed(p) && Fits(p.input, i)
    ensures Fits(p, WithInput(p, i))
  {
    match p
    case Filter(_, _, _) =>
    case Projection(_, _) =>
    case Sort(_, _, _) =>
    case Repartition(_, _) =>
    case Coalesce(_) =>
    case Aggregate(_, _, _, _) => AggregateFits(p, i);
    case GpuFilter(_, _, _, _) =>
    case GpuAggregate(_, _, _, _) =>
    case GpuVectorDistance(_, _, _, _, _, _) =>
  }

  lemma {:induction false} AggregateFits(p: Plan, i: Plan)
    requires p.Aggregate? && WellFormed(p) && Fits(p.input, i)
    ensures Fits(p, Aggregate(p.aggMode, p.group, p.aggrs, i))
  {
    var q := Aggregate(p.aggMode, p.group, p.aggrs, i);
    assert SchemaOf(q) == SchemaOf(p);
  }

  lemma {:induction false} UnarySame(env: Env, p: Plan, i: Plan)
    requires Unary(p) && WellFormed(p) && Same(env, p.input, i)
    ensures Same(env, p, WithInput(p, i))
  {
    UnaryFits(p, i);
    UnaryBag(env, p, i);
  }

  /** The distribution a planner knows of a node, it knows from the node's input. */
  lemma {:induction false} UnaryHash(p: Plan, i: Plan)
    requires Unary(p) && WellFormed(p) && SchemaOf(i) == SchemaOf(p.input) && HashCols(p).Some?
    requires p.Repartition? || (HashCols(p.input).Some? ==> HashOn(i, HashCols(p.input).value))
    ensures HashOn(WithInput(p, i), HashCols(p).value)
  {
    if HashCols(p.input).Some? {
      HashColsInRange(p.input);
    }
  }

  lemma {:induction false} UnaryCount(p: Plan, i: Plan)
    requires Unary(p) && (PartCount(i) == PartCount(p.input) || PartCount(i) == 1)
    ensures PartCount(WithInput(p, i)) == PartCount(p) || PartCount(WithInput(p, i)) == 1
    ensures p.Repartition? || PartCount(i) > 1 || PartCount(WithInput(p, i)) <= 1
  {
  }

  lemma {:induction false} UnaryPlaced(p: Plan, i: Plan)
    requires Unary(p) && WellFormed(p) && Distributed(p) && Placed(p.input, i) && SchemaOf(i) == SchemaOf(p.input)
    ensures Placed(p, WithInput(p, i))
  {
    UnaryCount(p, i);
    if HashCols(p).Some? && (p.Repartition? || PartCount(i) > 1) {
      UnaryHash(p, i);
    }
    if p.Aggregate? && !p.aggMode.Partial? && PartCount(i) > 1 {
      assert GroupsLocal(i, p.group);
    }
  }

  lemma {:induction false} HashJoinSame(env: Env, p: Plan, l: Plan, r: Plan)
    requires p.HashJoin? && WellFormed(p) && Same(env, p.left, l) && Same(env, p.right, r)
    ensures Same(env, p, HashJoin(p.mode, p.cond, p.projection, l, r))
  {
    PairPerm(JoinFn(p.cond, p.projection), Denote(env, l), Denote(env, p.left), Denote(env, r), Denote(env, p.right));
  }

  lemma {:induction false} SortMergeJoinSame(env: Env, p: Plan, l: Plan, r: Plan)
    requires p.SortMergeJoin? && WellFormed(p) && Same(env, p.left, l) && Same(env, p.right, r)
    ensures Same(env, p, SortMergeJoin(p.cond, l, r))
  {
    PairPerm(JoinFn(p.cond, None), Denote(env, l), Denote(env, p.left), Denote(env, r), Denote(env, p.right));
  }

  lemma {:induction false} GpuHashJoinSame(env: Env, p: Plan, l: Plan, r: Plan)
    requires p.GpuHashJoin? && WellFormed(p) && Same(env, p.left, l) && Same(env, p.right, r)
    ensures Same(env, p, GpuHashJoin(p.leftKey, p.rightKey, p.projection, p.target, l, r))
  {
    PairPerm(JoinFn(OnKeys(p.leftKey, p.rightKey), p.projection),
             Denote(env, l), Denote(env, p.left), Denote(env, r), Denote(env, p.right));
  }

  /** Sides distributed together stay together, unless one of them lost its partitions. */
  lemma {:induction false} StillCoHashed(l: Plan, r: Plan, l': Plan, r': Plan, cond: JoinOn)
    requires CoDistributed(l, r, cond) && Placed(l, l') && Placed(r, r')
    ensures PartCount(l') == PartCount(r') ==> PartCount(l') <= 1 || CoHashed(l', r', cond)
  {
    if PartCount(l') == PartCount(r') && PartCount(l') > 1 {
      assert HashOn(l', HashCols(l).value) && HashOn(r', HashCols(r).value);
    }
  }

  lemma {:induction false} UnshiftShift(cols: seq<nat>, k: nat)
    ensures Unshift(Shift(cols, k), k) == cols
  {
  }

  lemma {:induction false} HashJoinPlaced(p: Plan, l: Plan, r: Plan)
    requires p.HashJoin? && Distributed(p) && Placed(p.left, l) && Placed(p.right, r) && SchemaOf(l) == SchemaOf(p.left)
    ensures Placed(p, HashJoin(p.mode, p.cond, p.projection, l, r))
  {
    if p.mode.Partitioned? {
      StillCoHashed(p.left, p.right, l, r, p.cond);
    }
    if HashCols(p).Some? {
      UnshiftShift(HashCols(p.right).value, |SchemaOf(l)|);
    }
  }

  lemma {:induction false} SortMergeJoinPlaced(p: Plan, l: Plan, r: Plan)
    requires p.SortMergeJoin? && Distributed(p) && Placed(p.left, l) && Placed(p.right, r)
      && SchemaOf(l) == SchemaOf(p.left)
    ensures Placed(p, SortMergeJoin(p.cond, l, r))
  {
    StillCoHashed(p.left, p.right, l, r, p.cond);
    if HashCols(p).Some? {
      UnshiftShift(HashCols(p.right).value, |SchemaOf(l)|);
      assert OnRight(None, |SchemaOf(l)|, HashCols(p).value) == Some(HashCols(p.right).value);
    }
  }

  // ------------------------------------------------------- rewriting a node

  /** A lowered filter is partitioned as the filter was. */
  lemma {:induction false} FilterStays(target: BackendKind, p: Plan, cols: seq<nat>)
    requires p.Filter? && ColsInRange(cols, |SchemaOf(p)|)
    requires LowerFilter(target, p).Ok? && LowerFilter(target, p).value.Some?
    ensures HashOn(p, cols) ==> HashOn(LowerFilter(target, p).value.value, cols)
  {
    if p.projection.None? {
      assert Through(Upto(|SchemaOf(p.input)|), cols) == cols;
    }
  }

  lemma {:induction false} FuseStays(target: BackendKind, p: Plan, cols: seq<nat>)
    requires p.Projection?
    requires FuseProjection(target, p).Ok? && FuseProjection(target, p).value.Some?
    ensures HashOn(p, cols) ==> HashOn(FuseProjection(target, p).value.value, cols)
  {
    if HashOn(p, cols) {
      var q := FuseProjection(target, p).value.value;
      var inner := ThroughExprs(p.exprs, cols);
      assert HashOn(p.input, inner);
      assert HashOn(p.input.input, Through(p.input.cols, inner));
      assert Through(q.cols, cols) == Through(p.input.cols, inner);
      assert q == GpuFilter(p.input.filter, q.cols, target, p.input.input);
    }
  }

  /** Joined from the probe side, the right side's hash columns are still where they were. */
  lemma {:induction false} SwappedHash(target: BackendKind, p: Plan, bk: nat, pk: nat, cols: seq<nat>)
    requires p.HashJoin? && ColsInRange(JoinColumns(p), |SchemaOf(p.left)| + |SchemaOf(p.right)|)
    requires ColsInRange(cols, |JoinColumns(p)|) && HashOn(p, cols)
    ensures HashOn(SwappedExec(target, p, bk, pk), cols)
  {
    var (bl, pl) := (|SchemaOf(p.left)|, |SchemaOf(p.right)|);
    var back := Back(p.projection, cols);
    assert back == Through(JoinColumns(p), cols);
    ProbeColumns(JoinColumns(p), cols, bl, pl, pk);
    DeviceHash(pk, bk, Swapped(JoinColumns(p), bl, pl), target, p.right, p.left, cols);
  }

  /** Columns of the probe side, read through the swapped projection. */
  lemma {:induction false} ProbeColumns(out: seq<nat>, cols: seq<nat>, bl: nat, pl: nat, pk: nat)
    requires ColsInRange(out, bl + pl) && ColsInRange(cols, |out|) && AllAtLeast(Through(out, cols), bl)
    ensures Through(Swapped(out, bl, pl), cols) == Unshift(Through(out, cols), bl)
    ensures ColsInRange(Through(Swapped(out, bl, pl), cols), pl)
    ensures ToProbe(Through(Swapped(out, bl, pl), cols), pl, pk) == Unshift(Through(out, cols), bl)
  {
  }

  lemma {:induction false} DeviceHash(lk: nat, rk: nat, out: seq<nat>, target: BackendKind, l: Plan, r: Plan,
                                      cols: seq<nat>)
    requires ColsInRange(cols, |out|) && ColsInRange(Through(out, cols), |SchemaOf(l)|)
    requires HashOn(l, ToProbe(Through(out, cols), |SchemaOf(l)|, lk))
    ensures HashOn(GpuHashJoin(lk, rk, Some(out), target, l, r), cols)
  {
  }

  lemma {:induction false} JoinStays(target: BackendKind, p: Plan, cols: seq<nat>)
    requires p.HashJoin? && WellFormed(p) && ColsInRange(cols, |SchemaOf(p)|)
    requires LowerJoin(target, p).Ok? && LowerJoin(target, p).value.Some?
    ensures HashOn(p, cols) ==> HashOn(LowerJoin(target, p).value.value, cols)
  {
    LoweredJoinShape(target, p);
    if HashOn(p, cols) {
      var (bk, pk) := SingleKey(p.cond, SchemaOf(p.left), SchemaOf(p.right)).value;
      SwappedHash(target, p, bk, pk, cols);
    }
  }

  /** Hashed by the right key in the planner's eyes, the lowered join is hashed by the equal left key. */
  lemma {:induction false} MergeHash(lk: nat, rk: nat, target: BackendKind, l: Plan, r: Plan, lc: seq<nat>,
                                     rc: seq<nat>)
    requires OnDetermines(OnKeys(lk, rk), lc, rc) && HashOn(l, lc)
    ensures HashOn(GpuHashJoin(lk, rk, None, target, l, r), Shift(rc, |SchemaOf(l)|))
  {
    forall k | 0 <= k < |lc| ensures lc[k] == lk && rc[k] == rk {
      assert (Column(lc[k]), Column(rc[k])) in OnKeys(lk, rk).on;
    }
    assert ToProbe(Shift(rc, |SchemaOf(l)|), |SchemaOf(l)|, lk) == lc;
  }

  /** A lowered merge join is partitioned by its left side, whose key equals the right key. */
  lemma {:induction false} SortMergeStays(target: BackendKind, p: Plan, l: Plan, r: Plan)
    requires p.SortMergeJoin? && CoDistributed(p.left, p.right, p.cond)
    requires Placed(p.left, l) && Placed(p.right, r) && SchemaOf(l) == SchemaOf(p.left)
    requires var q := SortMergeJoin(p.cond, l, r);
             LowerSortMergeJoin(target, q).Ok? && LowerSortMergeJoin(target, q).value.Some?
    ensures Placed(p, LowerSortMergeJoin(target, SortMergeJoin(p.cond, l, r)).value.value)
  {
    var mid := SortMergeJoin(p.cond, l, r);
    var q := LowerSortMergeJoin(target, mid).value.value;
    LoweredMergeShape(target, mid);
    var lc := if HashCols(p.left).Some? then HashCols(p.left).value else [];
    StripSortPlaced(l, lc);
    StripSortPlaced(r, []);
    if HashCols(p).Some? && PartCount(l) > 1 {
      MergeHash(q.leftKey, q.rightKey, target, StripSort(l), StripSort(r), lc, HashCols(p.right).value);
    }
  }

  lemma {:induction false} LoweredSame(env: Env, target: BackendKind, p: Plan)
    requires WellFormed(p) && Lowered(target, p).Ok? && Lowered(target, p).value.Some?
    ensures Preserves(env, p, Lowered(target, p).value.value)
    ensures !HoldsStates(p)
  {
    match p
    case Filter(_, _, _) => FilterPreserves(env, target, p);
    case Projection(_, _) => FusePreserves(env, target, p);
    case HashJoin(_, _, _, _, _) => JoinPreserves(env, target, p);
    case SortMergeJoin(_, _, _) => SortMergePreserves(env, target, p);
    case Aggregate(_, _, _, _) => AggregatePreserves(env, target, p);
  }

  lemma {:induction false} SameThen(env: Env, target: BackendKind, p: Plan, mid: Plan)
    requires Same(env, p, mid) && Rewrite(target, mid).Ok?
    ensures Same(env, p, Rewrite(target, mid).value)
  {
    if Lowered(target, mid).value.Some? {
      LoweredSame(env, target, mid);
    }
  }

  lemma {:induction false} FilterPlaced(target: BackendKind, p: Plan, mid: Plan)
    requires WellFormed(p) && SchemaOf(mid) == SchemaOf(p) && Placed(p, mid) && mid.Filter?
    requires LowerFilter(target, mid).Ok? && LowerFilter(target, mid).value.Some?
    ensures Placed(p, LowerFilter(target, mid).value.value)
  {
    if HashCols(p).Some? {
      HashColsInRange(p);
      FilterStays(target, mid, HashCols(p).value);
    }
  }

  lemma {:induction false} FusePlaced(target: BackendKind, p: Plan, mid: Plan)
    requires Placed(p, mid) && mid.Projection?
    requires FuseProjection(target, mid).Ok? && FuseProjection(target, mid).value.Some?
    ensures Placed(p, FuseProjection(target, mid).value.value)
  {
    assert Contract(mid.input) && PartCount(mid.input) == PartCount(mid.input.input);
    if HashCols(p).Some? {
      FuseStays(target, mid, HashCols(p).value);
    }
  }

  lemma {:induction false} JoinPlaced(target: BackendKind, p: Plan, mid: Plan)
    requires WellFormed(p) && WellFormed(mid) && SchemaOf(mid) == SchemaOf(p) && Placed(p, mid) && mid.HashJoin?
    requires LowerJoin(target, mid).Ok? && LowerJoin(target, mid).value.Some?
    ensures Placed(p, LowerJoin(target, mid).value.value)
  {
    LoweredJoinShape(target, mid);
    if HashCols(p).Some? {
      HashColsInRange(p);
      JoinStays(target, mid, HashCols(p).value);
    }
  }

  lemma {:induction false} LoweredPlaced(env: Env, target: BackendKind, p: Plan, mid: Plan)
    requires WellFormed(p) && WellFormed(mid) && SchemaOf(mid) == SchemaOf(p) && Placed(p, mid) && !mid.SortMergeJoin?
    requires Lowered(target, mid).Ok? && Lowered(target, mid).value.Some?
    ensures Placed(p, Lowered(target, mid).value.value)
  {
    match mid
    case Filter(_, _, _) => FilterPlaced(target, p, mid);
    case Projection(_, _) => FusePlaced(target, p, mid);
    case HashJoin(_, _, _, _, _) => JoinPlaced(target, p, mid);
    case Aggregate(_, _, _, _) => AggregateKeepsContract(target, mid);
  }

  lemma {:induction false} PlacedThen(env: Env, target: BackendKind, p: Plan, mid: Plan)
    requires WellFormed(p) && WellFormed(mid) && SchemaOf(mid) == SchemaOf(p) && Placed(p, mid) && !mid.SortMergeJoin?
    requires Rewrite(target, mid).Ok?
    ensures Placed(p, Rewrite(target, mid).value)
  {
    if Lowered(target, mid).value.Some? {
      LoweredPlaced(env, target, p, mid);
    }
  }

  // ------------------------------------------------------------ the theorem

  /** Rewriting bottom-up keeps schema, meaning and distribution at every node. */
  lemma {:induction false} TransformRefines(env: Env, target: BackendKind, p: Plan)
    requires WellFormed(p) && Distributed(p) && TransformUp(target, p).Ok?
    ensures Same(env, p, TransformUp(target, p).value)
    ensures Placed(p, TransformUp(target, p).value)
    decreases p, 1
  {
    if Unary(p) {
      UnaryRefines(env, target, p);
    } else if p.HashJoin? {
      HashJoinRefines(env, target, p);
    } else if p.SortMergeJoin? {
      SortMergeRefines(env, target, p);
    } else if p.GpuHashJoin? {
      GpuHashJoinRefines(env, target, p);
    }
  }

  lemma {:induction false} UnaryRefines(env: Env, target: BackendKind, p: Plan)
    requires Unary(p) && WellFormed(p) && Distributed(p) && TransformUp(target, p).Ok?
    ensures Same(env, p, TransformUp(target, p).value)
    ensures Placed(p, TransformUp(target, p).value)
    decreases p, 0
  {
    UnaryChild(p);
    UnaryTransform(target, p);
    TransformRefines(env, target, p.input);
    var i' := TransformUp(target, p.input).value;
    UnarySame(env, p, i');
    UnaryPlaced(p, i');
    RewriteRefines(env, target, p, WithInput(p, i'));
  }

  lemma {:induction false} RewriteRefines(env: Env, target: BackendKind, p: Plan, mid: Plan)
    requires WellFormed(p) && Same(env, p, mid) && Placed(p, mid) && !mid.SortMergeJoin? && Rewrite(target, mid).Ok?
    ensures Same(env, p, Rewrite(target, mid).value)
    ensures Placed(p, Rewrite(target, mid).value)
  {
    SameThen(env, target, p, mid);
    PlacedThen(env, target, p, mid);
  }

  lemma {:induction false} UnaryTransform(target: BackendKind, p: Plan)
    requires Unary(p) && TransformUp(target, p).Ok?
    ensures TransformUp(target, p.input).Ok?
    ensures TransformUp(target, p) == Rewrite(target, WithInput(p, TransformUp(target, p.input).value))
    ensures !WithInput(p, TransformUp(target, p.input).value).SortMergeJoin?
  {
  }

  lemma {:induction false} UnaryUnfold(target: BackendKind, p: Plan)
    requires Unary(p)
    ensures var i := TransformUp(target, p.input);
            TransformUp(target, p) == if i.Err? then Err(i.error) else Rewrite(target, WithInput(p, i.value))
  {
  }

  lemma {:induction false} UnaryChild(p: Plan)
    requires Unary(p) && WellFormed(p) && Distributed(p)
    ensures WellFormed(p.input) && Distributed(p.input)
    ensures WithInput(p, p.input) == p
  {
  }

  lemma {:induction false} HashJoinRefines(env: Env, target: BackendKind, p: Plan)
    requires p.HashJoin? && WellFormed(p) && Distributed(p) && TransformUp(target, p).Ok?
    ensures Same(env, p, TransformUp(target, p).value)
    ensures Placed(p, TransformUp(target, p).value)
    decreases p, 0
  {
    TransformRefines(env, target, p.left);
    TransformRefines(env, target, p.right);
    var (l', r') := (TransformUp(target, p.left).value, TransformUp(target, p.right).value);
    var mid := HashJoin(p.mode, p.cond, p.projection, l', r');
    HashJoinSame(env, p, l', r');
    HashJoinPlaced(p, l', r');
    RewriteRefines(env, target, p, mid);
  }

  lemma {:induction false} GpuHashJoinRefines(env: Env, target: BackendKind, p: Plan)
    requires p.GpuHashJoin? && WellFormed(p) && Distributed(p) && TransformUp(target, p).Ok?
    ensures Same(env, p, TransformUp(target, p).value)
    ensures Placed(p, TransformUp(target, p).value)
    decreases p, 0
  {
    DeviceJoinTransform(target, p);
    TransformRefines(env, target, p.left);
    TransformRefines(env, target, p.right);
    var (l, r) := (TransformUp(target, p.left).value, TransformUp(target, p.right).value);
    GpuHashJoinSame(env, p, l, r);
    GpuHashJoinPlaced(p, l, r);
  }

  /** A device join is only taken over to its new sides. */
  lemma {:induction false} DeviceJoinTransform(target: BackendKind, p: Plan)
    requires p.GpuHashJoin? && TransformUp(target, p).Ok?
    ensures TransformUp(target, p.left).Ok? && TransformUp(target, p.right).Ok?
    ensures TransformUp(target, p) == Ok(WithSides(p, TransformUp(target, p.left).value, TransformUp(target, p.right).value))
  {
  }

  lemma {:induction false} GpuHashJoinPlaced(p: Plan, l: Plan, r: Plan)
    requires p.GpuHashJoin? && Placed(p.left, l) && Placed(p.right, r)
    ensures Placed(p, WithSides(p, l, r))
  {
  }

  lemma {:induction false} SortMergeRefines(env: Env, target: BackendKind, p: Plan)
    requires p.SortMergeJoin? && WellFormed(p) && Distributed(p) && TransformUp(target, p).Ok?
    ensures Same(env, p, TransformUp(target, p).value)
    ensures Placed(p, TransformUp(target, p).value)
    decreases p, 0
  {
    TransformRefines(env, target, p.left);
    TransformRefines(env, target, p.right);
    var (l', r') := (TransformUp(target, p.left).value, TransformUp(target, p.right).value);
    var mid := SortMergeJoin(p.cond, l', r');
    SortMergeJoinSame(env, p, l', r');
    SortMergeJoinPlaced(p, l', r');
    SameThen(env, target, p, mid);
    if Lowered(target, mid).value.Some? {
      SortMergeStays(target, p, l', r');
    }
  }

  /** What the planner checks implies the contract. */
  lemma {:induction false} DistributedContract(p: Plan)
    requires WellFormed(p) && Distributed(p)
    ensures Placed(p, p)
    decreases p, 1
  {
    if Unary(p) {
      UnaryContract(p);
    } else if !p.Scan? {
      DistributedContract(p.left);
      DistributedContract(p.right);
      SidesContract(p);
    }
  }

  lemma {:induction false} SidesContract(p: Plan)
    requires TwoSided(p) && WellFormed(p) && Distributed(p) && Placed(p.left, p.left) && Placed(p.right, p.right)
    ensures Placed(p, p)
  {
    if p.HashJoin? {
      HashJoinPlaced(p, p.left, p.right);
    } else if p.SortMergeJoin? {
      SortMergeJoinPlaced(p, p.left, p.right);
    }
  }

  lemma {:induction false} UnaryContract(p: Plan)
    requires Unary(p) && WellFormed(p) && Distributed(p)
    ensures Placed(p, p)
    decreases p, 0
  {
    UnaryChild(p);
    DistributedContract(p.input);
    UnaryPlaced(p, p.input);
  }

  /** The planner also sorted whatever is merged. */
  lemma {:induction false} DistributedOrderly(p: Plan)
    requires Distributed(p)
    ensures Orderly(p)
    decreases p
  {
    if Unary(p) {
      DistributedOrderly(p.input);
    } else if !p.Scan? {
      DistributedOrderly(p.left);
      DistributedOrderly(p.right);
    }
  }
}
