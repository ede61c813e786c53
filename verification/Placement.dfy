/**
 The hardware placement rule: a bottom-up rewrite of a physical plan that moves
 filters, projections, inner joins and aggregates onto `Gpu*Exec` nodes.
 */
module Placement {
  import opened Core
  import opened Plans
  import opened Execs

  // ------------------------------------------------------------- predicates

  function Flip(op: Comparison): Comparison {
    match op
    case Eq => Eq
    case Lt => Gt
    case LtEq => GtEq
    case Gt => Lt
    case GtEq => LtEq
  }

  function AsLiteral(e: Expr): Option<Literal> {
    match e
    case Constant(I64(i)) => Some(IntLit(i))
    case Constant(F64(f)) => Some(FloatLit(f))
    case _ => None
  }

  function ColumnIndex(e: Expr): Option<nat> {
    if e.Column? then Some(e.index) else None
  }

  /** The operands of a comparison as (column, operator, literal), whichever side the column is on. */
  function Orient(op: Comparison, l: Expr, r: Expr): Option<(nat, Comparison, Literal)> {
    match (ColumnIndex(l), AsLiteral(r))
    case (Some(c), Some(lit)) => Some((c, op, lit))
    case _ =>
      match (AsLiteral(l), ColumnIndex(r))
      case (Some(lit), Some(c)) => Some((c, Flip(op), lit))
      case _ => None
  }

  /** `column <op> literal` conjoined with AND, or nothing. */
  function LowerPredicate(e: Expr, s: Schema): Option<Predicate> {
    match e
    case Binary(OpAnd, l, r) =>
      (match (LowerPredicate(l, s), LowerPredicate(r, s))
       case (Some(a), Some(b)) => Some(And(a, b))
       case _ => None)
    case Binary(OpCompare(op), l, r) =>
      (match Orient(op, l, r)
       case Some((c, o, lit)) => if c < |s| && s[c].dtype == lit.Type() then Some(Compare(c, o, lit)) else None
       case None => None)
    case _ => None
  }

  // ----------------------------------------------------------- single nodes

  function LowerFilter(target: BackendKind, p: Plan): Result<Option<Plan>>
    requires p.Filter?
  {
    var s := SchemaOf(p.input);
    match LowerPredicate(p.condition, s)
    case None => Ok(None)
    case Some(pred) =>
      var cols := if p.projection.Some? then p.projection.value else Upto(|s|);
      var exec :- NewFilter(p.input, pred, cols, target);
      if SchemaOf(exec) != SchemaOf(p) then Ok(None) else Ok(Some(exec))
  }

  /** Is every projected expression a column that keeps its name? */
  predicate PlainRenaming(exprs: seq<(Expr, string)>, s: Schema) {
    forall k :: 0 <= k < |exprs| ==>
      exprs[k].0.Column? && exprs[k].0.index < |s| && s[exprs[k].0.index].name == exprs[k].1
  }

  function Fused(exprs: seq<(Expr, string)>, cols: seq<nat>): (r: seq<nat>)
    requires forall k :: 0 <= k < |exprs| ==> exprs[k].0.Column? && exprs[k].0.index < |cols|
    ensures |r| == |exprs| && forall k :: 0 <= k < |exprs| ==> r[k] == cols[exprs[k].0.index]
  {
    seq(|exprs|, k requires 0 <= k < |exprs| => cols[exprs[k].0.index])
  }

  function FuseProjection(target: BackendKind, p: Plan): Result<Option<Plan>>
    requires p.Projection?
  {
    if !p.input.GpuFilter? || !PlainRenaming(p.exprs, SchemaOf(p.input)) then Ok(None)
    else
      var exec :- NewFilter(p.input.input, p.input.filter, Fused(p.exprs, p.input.cols), target);
      if SchemaOf(exec) != SchemaOf(p) then Ok(None) else Ok(Some(exec))
  }

  /** The positions of `f` in `s`, ascending. */
  function Positions(s: Schema, f: Field): (r: seq<nat>)
    ensures forall i: nat :: i in r <==> i < |s| && s[i] == f
    ensures forall i, j :: 0 <= i < j < |r| ==> r[i] < r[j]
  {
    if s == [] then []
    else
      var n := |s| - 1;
      var front := Positions(s[..n], f);
      assert forall i: nat :: i in front ==> i < n;
      assert forall k :: 0 <= k < |front| ==> front[k] in front;
      if s[n] == f then front + [n] else front
  }

  /** Recovers a pushed-down projection from its fields; `None` if a field is ambiguous. */
  function Recover(full: Schema, fields: Schema): (r: Option<seq<nat>>)
    ensures r.Some? ==> |r.value| == |fields|
    ensures r.Some? <==> forall k :: 0 <= k < |fields| ==> |Positions(full, fields[k])| == 1
    ensures r.Some? ==> forall k :: 0 <= k < |fields| ==> Positions(full, fields[k]) == [r.value[k]]
  {
    if fields == [] then Some([])
    else
      var n := |fields| - 1;
      var here := Positions(full, fields[n]);
      var front := Recover(full, fields[..n]);
      if |here| == 1 && front.Some? then Some(front.value + here) else None
  }

  /** An index into `build ++ probe` re-expressed over `probe ++ build`. */
  function Swapped(cols: seq<nat>, bl: nat, pl: nat): (r: seq<nat>)
    ensures |r| == |cols| && forall k :: 0 <= k < |cols| ==> r[k] == if cols[k] < bl then pl + cols[k] else cols[k] - bl
  {
    seq(|cols|, k requires 0 <= k < |cols| => if cols[k] < bl then pl + cols[k] else cols[k] - bl)
  }

  /** An inner equi-join on one pair of `Int64` columns without residual filter. */
  function SingleKey(cond: JoinOn, ls: Schema, rs: Schema): Option<(nat, nat)> {
    if cond.filter.Some? || cond.nullEqualsNull || |cond.on| != 1 then None
    else
      match (ColumnIndex(cond.on[0].0), ColumnIndex(cond.on[0].1))
      case (Some(lk), Some(rk)) =>
        if FieldAt(ls, lk).dtype == Int64 && FieldAt(rs, rk).dtype == Int64 then Some((lk, rk)) else None
      case _ => None
  }

  /** The projection of a join over `build ++ probe`, recovered from its output fields. */
  function JoinIndices(projection: Option<seq<nat>>, bs: Schema, ps: Schema): Option<seq<nat>> {
    if projection.Some? then Recover(bs + ps, OutSchema(projection, bs + ps)) else Some(Upto(|bs| + |ps|))
  }

  /** The device join, unless its schema is not the planned one. */
  function PlaceJoin(target: BackendKind, probe: Plan, build: Plan, pk: nat, bk: nat, cols: seq<nat>,
                     planned: Schema): Result<Option<Plan>> {
    var bare :- NewHashJoin(probe, build, pk, bk, target);
    var exec :- WithProjection(bare, Some(cols));
    if SchemaOf(exec) != planned then Ok(None) else Ok(Some(exec))
  }

  function LowerJoin(target: BackendKind, p: Plan): Result<Option<Plan>>
    requires p.HashJoin?
  {
    var (build, probe) := (p.left, p.right);
    var (bs, ps) := (SchemaOf(build), SchemaOf(probe));
    match SingleKey(p.cond, bs, ps)
    case None => Ok(None)
    case Some((buildKey, probeKey)) =>
      var indices := JoinIndices(p.projection, bs, ps);
      if indices.None? then Ok(None)
      else
        PlaceJoin(target, probe, build, probeKey, buildKey, Swapped(indices.value, |bs|, |ps|), SchemaOf(p))
  }

  /** Drops a sort that only feeds a merge join. */
  function StripSort(p: Plan): Plan {
    if p.Sort? && p.fetch.None? then p.input else p
  }

  function PlaceMerge(target: BackendKind, left: Plan, right: Plan, cond: JoinOn,
                      planned: Schema): Result<Option<Plan>> {
    var (ls, rs) := (SchemaOf(left), SchemaOf(right));
    if |planned| != |ls| + |rs| then Ok(None)
    else
      match SingleKey(cond, ls, rs)
      case None => Ok(None)
      case Some((lk, rk)) =>
        var exec :- NewHashJoin(left, right, lk, rk, target);
        if SchemaOf(exec) != planned then Ok(None) else Ok(Some(exec))
  }

  function LowerSortMergeJoin(target: BackendKind, p: Plan): Result<Option<Plan>>
    requires p.SortMergeJoin?
  {
    PlaceMerge(target, StripSort(p.left), StripSort(p.right), p.cond, SchemaOf(p))
  }

  predicate LowerableAggr(a: AggrExpr, s: Schema) {
    a.filter.None? && a.arg.Column? && Aggregable(FieldAt(s, a.arg.index).dtype)
  }

  function SpecOf(group: seq<(Expr, string)>, aggrs: seq<AggrExpr>, s: Schema): Option<AggregateSpec> {
    if |group| != 1 || !group[0].0.Column? || FieldAt(s, group[0].0.index).dtype != Int64 then None
    else if exists j :: 0 <= j < |aggrs| && !LowerableAggr(aggrs[j], s) then None
    else
      Some(AggregateSpec(
             group[0].0.index,
             seq(|aggrs|, j requires 0 <= j < |aggrs| && LowerableAggr(aggrs[j], s) => (aggrs[j].func, aggrs[j].arg.index))))
  }

  function LowerSpec(p: Plan): Option<AggregateSpec>
    requires p.Aggregate?
  {
    SpecOf(p.group, p.aggrs, SchemaOf(p.input))
  }

  /** Looks through the exchanges between the two halves of an aggregate. */
  function SkipExchanges(p: Plan): Plan {
    if p.Repartition? || p.Coalesce? then SkipExchanges(p.input) else p
  }

  /** The aggregate whose input and expressions a device aggregate takes over. */
  function AggregateSource(p: Plan): (r: Option<Plan>)
    requires p.Aggregate?
    ensures r.Some? ==> r.value.Aggregate? && |r.value.aggrs| == |p.aggrs| && |r.value.group| == |p.group|
  {
    match p.aggMode
    case Partial => None
    case Single => Some(p)
    case SinglePartitioned => Some(p)
    case _ =>
      var child := SkipExchanges(p.input);
      if child.Aggregate? && child.aggMode.Partial? && |child.aggrs| == |p.aggrs| && |child.group| == |p.group|
      then Some(child) else None
  }

  function LowerAggregate(target: BackendKind, p: Plan): Result<Option<Plan>>
    requires p.Aggregate?
  {
    match AggregateSource(p)
    case None => Ok(None)
    case Some(agg) =>
      match LowerSpec(agg)
      case None => Ok(None)
      case Some(spec) =>
        var source := if PartCount(agg.input) > 1 then Coalesce(agg.input) else agg.input;
        var exec :- NewAggregate(source, spec, target);
        match WithOutputSchema(exec, SchemaOf(p))
        case Ok(e) => Ok(Some(e))
        case Err(_) => Ok(None)
  }

  // ------------------------------------------------------------ the rewrite

  function Lowered(target: BackendKind, p: Plan): Result<Option<Plan>> {
    match p
    case Filter(_, _, _) => LowerFilter(target, p)
    case Projection(_, _) => FuseProjection(target, p)
    case HashJoin(_, _, _, _, _) => LowerJoin(target, p)
    case SortMergeJoin(_, _, _) => LowerSortMergeJoin(target, p)
    case Aggregate(_, _, _, _) => LowerAggregate(target, p)
    case _ => Ok(None)
  }

  function Rewrite(target: BackendKind, p: Plan): Result<Plan> {
    var lowered :- Lowered(target, p);
    Ok(if lowered.Some? then lowered.value else p)
  }

  /** Rewrites the children first, then the node over its new children. */
  function TransformUp(target: BackendKind, p: Plan): Result<Plan>
    decreases p
  {
    if Unary(p) then
      var i :- TransformUp(target, p.input);
      Rewrite(target, WithInput(p, i))
    else if p.Scan? then Rewrite(target, p)
    else
      var l :- TransformUp(target, p.left);
      var r :- TransformUp(target, p.right);
      Rewrite(target, WithSides(p, l, r))
  }

  function Optimize(target: BackendKind, p: Plan): Result<Plan> {
    if !target.IsGpu() then Ok(p) else TransformUp(target, p)
  }
}
