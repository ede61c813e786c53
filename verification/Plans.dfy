/**
 Physical plans and what running one yields.

 `Runs(env, p, out)` says that `out`, one sequence of rows per output partition,
 is a possible result of executing `p`. Execution is nondeterministic: exchanges
 interleave, sorts break ties, device joins emit matches in any order. `Denote` is
 the single bag of rows every such run must deliver.
 */
module Plans {
  import opened Core
  import opened Bags
  import opened Groups
  import opened Orders
  import opened Merging

  // ------------------------------------------------------------ expressions

  datatype Operator = OpAnd | OpOr | OpNotEq | OpCompare(comparison: Comparison)

  /**
   A physical expression. `Opaque` stands for every expression the placement rule
   does not look into, with an arbitrary meaning.
   */
  datatype Expr =
    | Column(index: nat)
    | Constant(value: Value)
    | Binary(op: Operator, left: Expr, right: Expr)
    | Opaque(eval: Row -> Value, dtype: DataType, nullable: bool)

  function AsTruth(v: Value): Option<bool> {
    if v.Bool? then Some(v.b) else None
  }

  function FromTruth(t: Option<bool>): Value {
    if t.Some? then Bool(t.value) else Null
  }

  function Negate(t: Option<bool>): Option<bool> {
    if t.Some? then Some(!t.value) else None
  }

  function Eval(e: Expr, row: Row): Value {
    match e
    case Column(i) => At(row, i)
    case Constant(v) => v
    case Opaque(eval, _, _) => eval(row)
    case Binary(op, l, r) =>
      var (a, b) := (Eval(l, row), Eval(r, row));
      match op
      case OpAnd => FromTruth(KleeneAnd(AsTruth(a), AsTruth(b)))
      case OpOr => FromTruth(Negate(KleeneAnd(Negate(AsTruth(a)), Negate(AsTruth(b)))))
      case OpNotEq => FromTruth(Negate(CompareValues(Eq, a, b)))
      case OpCompare(c) => FromTruth(CompareValues(c, a, b))
  }

  function FieldAt(s: Schema, i: nat): Field {
    if i < |s| then s[i] else Field("", Int64, true)
  }

  function ValueType(v: Value): DataType {
    match v
    case Null => Int64
    case I64(_) => Int64
    case F64(_) => Float64
    case F32(_) => Float32
    case Str(_) => Utf8
    case Bool(_) => Boolean
    case Vec(v) => FixedSizeList(|v|)
    case Blob(t, _) => OtherType(t)
  }

  function ExprType(e: Expr, s: Schema): DataType {
    match e
    case Column(i) => FieldAt(s, i).dtype
    case Constant(v) => ValueType(v)
    case Binary(_, _, _) => Boolean
    case Opaque(_, t, _) => t
  }

  predicate ExprNullable(e: Expr, s: Schema) {
    match e
    case Column(i) => FieldAt(s, i).nullable
    case Constant(v) => v.Null?
    case Binary(_, l, r) => ExprNullable(l, s) || ExprNullable(r, s)
    case Opaque(_, _, n) => n
  }

  predicate InRange(e: Expr, width: nat) {
    match e
    case Column(i) => i < width
    case Binary(_, l, r) => InRange(l, width) && InRange(r, width)
    case _ => true
  }

  // ------------------------------------------------------------------ plans

  datatype JoinMode = CollectLeft | Partitioned

  datatype JoinOn = JoinOn(on: seq<(Expr, Expr)>, filter: Option<Expr>, nullEqualsNull: bool)

  datatype Scheme = RoundRobin(n: nat) | HashBy(cols: seq<nat>, n: nat)

  datatype AggregateMode = Partial | Final | FinalPartitioned | Single | SinglePartitioned

  datatype AggrExpr = AggrExpr(func: AggFn, arg: Expr, filter: Option<Expr>, name: string)

  datatype Plan =
    | Scan(schema: Schema, parts: seq<seq<Row>>)
    | Filter(condition: Expr, projection: Option<seq<nat>>, input: Plan)
    | Projection(exprs: seq<(Expr, string)>, input: Plan)
    | HashJoin(mode: JoinMode, cond: JoinOn, projection: Option<seq<nat>>, left: Plan, right: Plan)
    | SortMergeJoin(cond: JoinOn, left: Plan, right: Plan)
    | Sort(keys: seq<nat>, fetch: Option<nat>, input: Plan)  // the leading ascending columns
    | Repartition(scheme: Scheme, input: Plan)
    | Coalesce(input: Plan)
    | Aggregate(aggMode: AggregateMode, group: seq<(Expr, string)>, aggrs: seq<AggrExpr>, input: Plan)
    | GpuFilter(filter: Predicate, cols: seq<nat>, target: BackendKind, input: Plan)
    | GpuHashJoin(leftKey: nat, rightKey: nat, projection: Option<seq<nat>>, target: BackendKind, left: Plan, right: Plan)
    | GpuAggregate(spec: AggregateSpec, schema: Schema, target: BackendKind, input: Plan)
    | GpuVectorDistance(column: nat, query: seq<u32>, metric: DistanceMetric, name: string, target: BackendKind, input: Plan)

  predicate Unary(p: Plan) {
    !p.Scan? && !p.HashJoin? && !p.SortMergeJoin? && !p.GpuHashJoin?
  }

  /** The same node over another input. */
  function WithInput(p: Plan, i: Plan): Plan
    requires Unary(p)
  {
    match p
    case Filter(e, proj, _) => Filter(e, proj, i)
    case Projection(es, _) => Projection(es, i)
    case Sort(k, f, _) => Sort(k, f, i)
    case Repartition(s, _) => Repartition(s, i)
    case Coalesce(_) => Coalesce(i)
    case Aggregate(m, g, aggrs, _) => Aggregate(m, g, aggrs, i)
    case GpuFilter(pred, cols, t, _) => GpuFilter(pred, cols, t, i)
    case GpuAggregate(spec, s, t, _) => GpuAggregate(spec, s, t, i)
    case GpuVectorDistance(c, q, m, n, t, _) => GpuVectorDistance(c, q, m, n, t, i)
  }

  predicate TwoSided(p: Plan) {
    p.HashJoin? || p.SortMergeJoin? || p.GpuHashJoin?
  }

  /** The same join over other inputs. */
  function WithSides(p: Plan, l: Plan, r: Plan): Plan
    requires TwoSided(p)
  {
    match p
    case HashJoin(mode, cond, proj, _, _) => HashJoin(mode, cond, proj, l, r)
    case SortMergeJoin(cond, _, _) => SortMergeJoin(cond, l, r)
    case GpuHashJoin(lk, rk, proj, t, _, _) => GpuHashJoin(lk, rk, proj, t, l, r)
  }

  /**
   What the model leaves open: the exchange's hash, the distance function, and
   which aggregations of which bags run on the device instead of the fallback.
   */
  datatype Env = Env(
    hash: Row -> nat,
    distance: (DistanceMetric, Value, seq<u32>) -> Value,
    ran: (AggregateSpec, multiset<Row>) -> bool)

  function Out(projection: Option<seq<nat>>, row: Row): Row {
    match projection
    case None => row
    case Some(p) => Pick(row, p)
  }

  function ProjectSchema(s: Schema, p: seq<nat>): (r: Schema)
    ensures |r| == |p|
    ensures forall i :: 0 <= i < |p| ==> r[i] == FieldAt(s, p[i])
  {
    seq(|p|, i requires 0 <= i < |p| => FieldAt(s, p[i]))
  }

  function OutSchema(projection: Option<seq<nat>>, s: Schema): Schema {
    match projection
    case None => s
    case Some(p) => ProjectSchema(s, p)
  }

  function AggField(mode: AggregateMode, width: nat, a: AggrExpr, j: nat, s: Schema): Field {
    var dtype :=
      if mode.Final? || mode.FinalPartitioned? then FieldAt(s, width + j).dtype
      else if a.func.Count? then Int64
      else ExprType(a.arg, s);
    Field(a.name, dtype, !a.func.Count?)
  }

  /** The schema of a one-input node over an input of schema `s`. */
  function NodeSchema(p: Plan, s: Schema): Schema
    requires Unary(p)
  {
    match p
    case Filter(_, proj, _) => OutSchema(proj, s)
    case Projection(es, _) =>
      seq(|es|, k requires 0 <= k < |es| => Field(es[k].1, ExprType(es[k].0, s), ExprNullable(es[k].0, s)))
    case Aggregate(m, g, aggrs, _) =>
      seq(|g|, k requires 0 <= k < |g| => Field(g[k].1, ExprType(g[k].0, s), ExprNullable(g[k].0, s)))
      + seq(|aggrs|, k requires 0 <= k < |aggrs| => AggField(m, |g|, aggrs[k], k, s))
    case GpuFilter(_, cols, _, _) => ProjectSchema(s, cols)
    case GpuAggregate(_, out, _, _) => out
    case GpuVectorDistance(_, _, _, name, _, _) => s + [Field(name, Float32, true)]
    case _ => s
  }

  function SchemaOf(p: Plan): Schema {
    if p.Scan? then p.schema
    else if Unary(p) then NodeSchema(p, SchemaOf(p.input))
    else OutSchema(if p.SortMergeJoin? then None else p.projection, SchemaOf(p.left) + SchemaOf(p.right))
  }

  /** The number of output partitions a node declares. */
  function PartCount(p: Plan): nat {
    if p.Scan? then |p.parts|
    else if p.Repartition? then p.scheme.n
    else if p.Coalesce? || p.GpuAggregate? then 1
    else if Unary(p) then PartCount(p.input)
    else if p.GpuHashJoin? then PartCount(p.left)
    else PartCount(p.right)
  }

  // ------------------------------------------------- meaning of single nodes

  /** SQL `WHERE`: only a true predicate keeps the row. */
  function FilterFn(e: Expr, projection: Option<seq<nat>>): Row -> seq<Row> {
    (r: Row) => if Eval(e, r) == Bool(true) then [Out(projection, r)] else []
  }

  function PredicateFn(p: Predicate, cols: seq<nat>): Row -> seq<Row> {
    (r: Row) => if EvalPredicate(p, r) == Some(true) then [Pick(r, cols)] else []
  }

  function ProjectFn(exprs: seq<(Expr, string)>): Row -> seq<Row> {
    (r: Row) => [GroupKey(exprs)(r)]
  }

  function DistanceFn(env: Env, column: nat, query: seq<u32>, metric: DistanceMetric): Row -> seq<Row> {
    (r: Row) => [r + [env.distance(metric, At(r, column), query)]]
  }

  predicate KeysMatch(nullEqualsNull: bool, a: Value, b: Value) {
    a == b && (nullEqualsNull || !a.Null?)
  }

  predicate Matches(j: JoinOn, l: Row, r: Row) {
    && (forall i :: 0 <= i < |j.on| ==> KeysMatch(j.nullEqualsNull, Eval(j.on[i].0, l), Eval(j.on[i].1, r)))
    && (j.filter.Some? ==> Eval(j.filter.value, l + r) == Bool(true))
  }

  function JoinFn(j: JoinOn, projection: Option<seq<nat>>): (Row, Row) -> seq<Row> {
    (l: Row, r: Row) => if Matches(j, l, r) then [Out(projection, l + r)] else []
  }

  /** The condition of a device join: one key per side, `NULL` matches nothing. */
  function OnKeys(lk: nat, rk: nat): JoinOn {
    JoinOn([(Column(lk), Column(rk))], None, false)
  }

  function GroupKey(group: seq<(Expr, string)>): Row -> Row {
    (r: Row) => seq(|group|, i requires 0 <= i < |group| => Eval(group[i].0, r))
  }

  function InputOf(a: AggrExpr): Row -> Value {
    (r: Row) => if a.filter.None? || Eval(a.filter.value, r) == Bool(true) then Eval(a.arg, r) else Null
  }

  function StateCell(i: nat): Row -> Value {
    (r: Row) => At(r, i)
  }

  function GroupingOf(mode: AggregateMode, group: seq<(Expr, string)>, aggrs: seq<AggrExpr>): Grouping {
    Grouping(
      GroupKey(group),
      seq(|aggrs|, j requires 0 <= j < |aggrs| =>
        if mode.Final? || mode.FinalPartitioned? then Agg(aggrs[j].func, true, StateCell(|group| + j))
        else Agg(aggrs[j].func, false, InputOf(aggrs[j]))))
  }

  function SpecGrouping(spec: AggregateSpec): Grouping {
    Grouping(
      GroupKey([(Column(spec.groupBy), "")]),
      seq(|spec.aggregates|, j requires 0 <= j < |spec.aggregates| =>
        Agg(spec.aggregates[j].0, false, StateCell(spec.aggregates[j].1))))
  }

  /** The exact integer sum of the non-`NULL` inputs of group `k`. */
  function ExactSum(key: Row -> Row, input: Row -> Value, k: Row, rows: seq<Row>): int {
    if rows == [] then 0
    else
      (if key(rows[0]) == k && input(rows[0]).I64? then input(rows[0]).i else 0)
      + ExactSum(key, input, k, rows[1..])
  }

  /** Every requested group sum is representable; otherwise the reference kernel reports an error. */
  ghost predicate SumsFit(g: Grouping, rows: seq<Row>) {
    forall j, k :: 0 <= j < |g.aggs| && g.aggs[j].func.Sum? && k in Keys(g.key, rows)
                   ==> FitsI64(ExactSum(g.key, g.aggs[j].input, k, rows))
  }

  /** An aggregation succeeds on the device, where sums wrap, and on the fallback if they fit. */
  ghost predicate Aggregates(env: Env, spec: AggregateSpec, rows: seq<Row>) {
    env.ran(spec, multiset(rows)) || SumsFit(SpecGrouping(spec), rows)
  }

  function ColumnsOf(cols: seq<nat>): Row -> Row {
    (r: Row) => Pick(r, cols)
  }

  function LeftKey(on: seq<(Expr, Expr)>): Row -> Row {
    (r: Row) => seq(|on|, i requires 0 <= i < |on| => Eval(on[i].0, r))
  }

  function RightKey(on: seq<(Expr, Expr)>): Row -> Row {
    (r: Row) => seq(|on|, i requires 0 <= i < |on| => Eval(on[i].1, r))
  }

  /** The two-cursor merge that evaluates a merge join on the CPU. */
  function MergerOf(cond: JoinOn): Merger {
    Merger(LeftKey(cond.on), RightKey(cond.on), cond.nullEqualsNull, JoinFn(cond, None))
  }

  /** What a right row makes of its partners. */
  function Partners(m: (Row, Row) -> seq<Row>, ls: seq<Row>): Row -> seq<Row> {
    (r: Row) => PairRow(Flipped(m), r, ls)
  }

  function Flipped(m: (Row, Row) -> seq<Row>): (Row, Row) -> seq<Row> {
    (r: Row, l: Row) => m(l, r)
  }

  // ------------------------------------------------------------------- runs

  ghost predicate Mapped(f: Row -> seq<Row>, ins: seq<seq<Row>>, out: seq<seq<Row>>) {
    |out| == |ins| && forall i :: 0 <= i < |out| ==> out[i] == FlatMap(f, ins[i])
  }

  ghost predicate Grouped(g: Grouping, ins: seq<seq<Row>>, out: seq<seq<Row>>) {
    |out| == |ins| && forall i :: 0 <= i < |out| ==> Perm(out[i], Group(g, ins[i]))
  }

  /** The left rows that right partition `i` probes: the partition of its number, or the only one. */
  function Opposite(mode: JoinMode, ls: seq<seq<Row>>, i: nat): seq<Row> {
    var k := if mode.CollectLeft? then 0 else i;
    if k < |ls| then ls[k] else []
  }

  ghost predicate Joined(mode: JoinMode, m: (Row, Row) -> seq<Row>, ls: seq<seq<Row>>, rs: seq<seq<Row>>,
                         out: seq<seq<Row>>) {
    && |ls| == (if mode.CollectLeft? then 1 else |rs|)
    && |out| == |rs| && forall i :: 0 <= i < |out| ==> InOrder(Partners(m, Opposite(mode, ls, i)), rs[i], out[i])
  }

  /** Partition `i` of one side is merged with partition `i` of the other. */
  ghost predicate Merged(j: Merger, ls: seq<seq<Row>>, rs: seq<seq<Row>>, out: seq<seq<Row>>) {
    |out| == |ls| == |rs| && forall i :: 0 <= i < |out| ==> out[i] == Merge(j, ls[i], rs[i])
  }

  /** Every left partition probes the whole right side, collected once. */
  ghost predicate Probed(m: (Row, Row) -> seq<Row>, ls: seq<seq<Row>>, rs: seq<seq<Row>>, out: seq<seq<Row>>) {
    |out| == |ls| && forall i :: 0 <= i < |out| ==> Perm(out[i], Pair(m, ls[i], Flatten(rs)))
  }

  ghost predicate Reordered(ins: seq<seq<Row>>, out: seq<seq<Row>>) {
    |out| == |ins| && forall i :: 0 <= i < |out| ==> Perm(out[i], ins[i])
  }

  ghost predicate Ascending(keys: seq<nat>, parts: seq<seq<Row>>) {
    forall i :: 0 <= i < |parts| ==> SortedBy(ColumnsOf(keys), parts[i])
  }

  function Top(n: nat, rows: seq<Row>): seq<Row> {
    if n < |rows| then rows[..n] else rows
  }

  ghost predicate Truncated(n: nat, ins: seq<seq<Row>>, out: seq<seq<Row>>) {
    |out| == |ins| && forall i :: 0 <= i < |out| ==> out[i] == Top(n, ins[i])
  }

  /** Each partition is sorted on its own; a limit then keeps its first rows. */
  ghost predicate Sorts(keys: seq<nat>, fetch: Option<nat>, ins: seq<seq<Row>>, out: seq<seq<Row>>) {
    if fetch.None? then Reordered(ins, out) && Ascending(keys, out)
    else exists all :: Reordered(ins, all) && Ascending(keys, all) && Truncated(fetch.value, all, out)
  }

  /** Every row sits in the partition its hash names. */
  ghost predicate RoutedBy(hash: Row -> nat, cols: seq<nat>, out: seq<seq<Row>>) {
    forall i, r :: 0 <= i < |out| && r in out[i] ==> hash(Pick(r, cols)) % |out| == i
  }

  ghost predicate Exchanged(env: Env, s: Scheme, ins: seq<seq<Row>>, out: seq<seq<Row>>) {
    && |out| == s.n
    && Perm(Flatten(out), Flatten(ins))
    && (s.HashBy? ==> RoutedBy(env.hash, s.cols, out))
  }

  /** What a one-input node may make of a run of its input. */
  ghost predicate NodeRuns(env: Env, p: Plan, ins: seq<seq<Row>>, out: seq<seq<Row>>)
    requires Unary(p)
  {
    if RowWise(p) then Mapped(RowFn(env, p), ins, out)
    else match p
      case Sort(keys, fetch, _) => Sorts(keys, fetch, ins, out)
      case Repartition(s, _) => Exchanged(env, s, ins, out)
      case Coalesce(_) => Exchanged(env, RoundRobin(1), ins, out)
      case Aggregate(m, g, aggrs, _) => Grouped(GroupingOf(m, g, aggrs), ins, out)
      case GpuAggregate(spec, _, _, _) =>
        Aggregates(env, spec, Flatten(ins)) && Grouped(SpecGrouping(spec), [Flatten(ins)], out)
  }

  /** What a join may make of runs of its sides. */
  ghost predicate SidesRun(p: Plan, ls: seq<seq<Row>>, rs: seq<seq<Row>>, out: seq<seq<Row>>)
    requires TwoSided(p)
  {
    match p
    case HashJoin(mode, cond, proj, _, _) => Joined(mode, JoinFn(cond, proj), ls, rs, out)
    case SortMergeJoin(cond, _, _) => Merged(MergerOf(cond), ls, rs, out)
    case GpuHashJoin(lk, rk, proj, _, _, _) => Probed(JoinFn(OnKeys(lk, rk), proj), ls, rs, out)
  }

  ghost predicate Runs(env: Env, p: Plan, out: seq<seq<Row>>)
    decreases p
  {
    if p.Scan? then Reordered(p.parts, out)
    else if Unary(p) then exists ins :: Runs(env, p.input, ins) && NodeRuns(env, p, ins, out)
    else exists ls, rs :: Runs(env, p.left, ls) && Runs(env, p.right, rs) && SidesRun(p, ls, rs, out)
  }

  /** The rows a one-input node makes of `rows`. */
  function NodeRows(env: Env, p: Plan, rows: seq<Row>): seq<Row>
    requires Unary(p)
  {
    if RowWise(p) then FlatMap(RowFn(env, p), rows)
    else if p.Aggregate? then Group(GroupingOf(p.aggMode, p.group, p.aggrs), rows)
    else if p.GpuAggregate? then Group(SpecGrouping(p.spec), rows)
    else rows
  }

  /** What a join makes of a pair of rows. */
  function PairFn(p: Plan): (Row, Row) -> seq<Row>
    requires TwoSided(p)
  {
    match p
    case HashJoin(_, cond, proj, _, _) => JoinFn(cond, proj)
    case SortMergeJoin(cond, _, _) => JoinFn(cond, None)
    case GpuHashJoin(lk, rk, proj, _, _, _) => JoinFn(OnKeys(lk, rk), proj)
  }

  /** The rows of a plan, up to order. */
  function Denote(env: Env, p: Plan): seq<Row> {
    if p.Scan? then Flatten(p.parts)
    else if Unary(p) then NodeRows(env, p, Denote(env, p.input))
    else Pair(PairFn(p), Denote(env, p.left), Denote(env, p.right))
  }

  predicate RowWise(p: Plan) {
    p.Filter? || p.Projection? || p.GpuFilter? || p.GpuVectorDistance?
  }

  /** What a row-wise node does with one row. */
  function RowFn(env: Env, p: Plan): Row -> seq<Row>
    requires RowWise(p)
  {
    match p
    case Filter(e, proj, _) => FilterFn(e, proj)
    case Projection(es, _) => ProjectFn(es)
    case GpuFilter(pred, cols, _, _) => PredicateFn(pred, cols)
    case GpuVectorDistance(c, q, m, _, _, _) => DistanceFn(env, c, q, m)
  }

  lemma {:induction false} ChildRun(env: Env, p: Plan, out: seq<seq<Row>>) returns (ins: seq<seq<Row>>)
    requires Unary(p) && Runs(env, p, out)
    ensures Runs(env, p.input, ins) && NodeRuns(env, p, ins, out)
  {
    ins :| Runs(env, p.input, ins) && NodeRuns(env, p, ins, out);
  }

  lemma {:induction false} SideRuns(env: Env, p: Plan, out: seq<seq<Row>>) returns (ls: seq<seq<Row>>,
                                    rs: seq<seq<Row>>)
    requires TwoSided(p) && Runs(env, p, out)
    ensures Runs(env, p.left, ls) && Runs(env, p.right, rs) && SidesRun(p, ls, rs, out)
  {
    ls, rs :| Runs(env, p.left, ls) && Runs(env, p.right, rs) && SidesRun(p, ls, rs, out);
  }

  // -------------------------------------------------------- well-formedness

  /** A `Partial` aggregate seen through exchanges: its rows are states, not results. */
  predicate HoldsStates(p: Plan) {
    (p.Aggregate? && p.aggMode.Partial?) || ((p.Repartition? || p.Coalesce?) && HoldsStates(p.input))
  }

  /** The `Partial` aggregate under a chain of exchanges. */
  function PartialOf(p: Plan): (q: Plan)
    requires HoldsStates(p)
    ensures q.Aggregate? && q.aggMode.Partial?
  {
    if p.Aggregate? then p else PartialOf(p.input)
  }

  predicate ColsInRange(cols: seq<nat>, width: nat) {
    forall i :: 0 <= i < |cols| ==> cols[i] < width
  }

  predicate ProjInRange(p: Option<seq<nat>>, width: nat) {
    p.Some? ==> ColsInRange(p.value, width)
  }

  predicate AggrsOk(aggrs: seq<AggrExpr>, s: Schema) {
    forall j :: 0 <= j < |aggrs| ==>
      InRange(aggrs[j].arg, |s|) && (!aggrs[j].func.Count? ==> ExprType(aggrs[j].arg, s) == Int64)
  }

  /** `Final` merges what its `Partial` produced, column for column. */
  predicate FinalFits(g: seq<(Expr, string)>, aggrs: seq<AggrExpr>, partial: Plan)
    requires partial.Aggregate?
  {
    && |g| == |partial.group| && |aggrs| == |partial.aggrs|
    && (forall i :: 0 <= i < |g| ==> g[i].0.Column? && g[i].0.index == i)
    && (forall j :: 0 <= j < |aggrs| ==> aggrs[j].func == partial.aggrs[j].func)
  }

  predicate PredicateInRange(p: Predicate, width: nat) {
    match p
    case Compare(c, _, _) => c < width
    case And(l, r) => PredicateInRange(l, width) && PredicateInRange(r, width)
  }

  predicate SpecInRange(spec: AggregateSpec, width: nat) {
    && spec.groupBy < width
    && forall j :: 0 <= j < |spec.aggregates| ==> spec.aggregates[j].1 < width
  }

  predicate CondInRange(c: JoinOn, lw: nat, rw: nat) {
    forall i :: 0 <= i < |c.on| ==> InRange(c.on[i].0, lw) && InRange(c.on[i].1, rw)
  }

  /**
   Plans as the query planner hands them over: columns exist, rows are as wide as
   their schema, sorts are unlimited, and states flow only from a `Partial`
   through exchanges into the `Final` that merges them.
   */
  predicate WellFormed(p: Plan)
    decreases p
  {
    if p.Scan? then forall i, r :: 0 <= i < |p.parts| && r in p.parts[i] ==> |r| == |p.schema|
    else if Unary(p) then WellFormed(p.input) && NodeFormed(p, SchemaOf(p.input))
    else
      && WellFormed(p.left) && WellFormed(p.right) && !HoldsStates(p.left) && !HoldsStates(p.right)
      && SidesFormed(p, |SchemaOf(p.left)|, |SchemaOf(p.right)|)
  }

  predicate NodeFormed(p: Plan, s: Schema)
    requires Unary(p)
  {
    if p.Repartition? then p.scheme.n >= 1 && (p.scheme.HashBy? ==> ColsInRange(p.scheme.cols, |s|))
    else if p.Coalesce? then true
    else if p.Aggregate? && (p.aggMode.Final? || p.aggMode.FinalPartitioned?) then
      HoldsStates(p.input) && FinalFits(p.group, p.aggrs, PartialOf(p.input))
    else !HoldsStates(p.input) && ReadsInRange(p, s)
  }

  /** Every column a node reads from raw rows exists. */
  predicate ReadsInRange(p: Plan, s: Schema)
    requires Unary(p)
  {
    match p
    case Filter(e, proj, _) => InRange(e, |s|) && ProjInRange(proj, |s|)
    case Projection(es, _) => forall k :: 0 <= k < |es| ==> InRange(es[k].0, |s|)
    case Sort(keys, fetch, _) => fetch.None? && ColsInRange(keys, |s|)
    case Aggregate(_, g, aggrs, _) => AggrsOk(aggrs, s) && forall k :: 0 <= k < |g| ==> InRange(g[k].0, |s|)
    case GpuFilter(pred, cols, _, _) => PredicateInRange(pred, |s|) && ColsInRange(cols, |s|)
    case GpuAggregate(spec, out, _, _) => SpecInRange(spec, |s|) && |out| == 1 + |spec.aggregates|
    case GpuVectorDistance(c, _, _, _, _, _) => c < |s|
    case _ => true
  }

  predicate SidesFormed(p: Plan, lw: nat, rw: nat)
    requires TwoSided(p)
  {
    if p.GpuHashJoin? then p.leftKey < lw && p.rightKey < rw && ProjInRange(p.projection, lw + rw)
    else CondInRange(p.cond, lw, rw) && (p.HashJoin? ==> ProjInRange(p.projection, lw + rw))
  }

  // ----------------------------------------------------------- distribution

  function Shift(cols: seq<nat>, k: nat): (r: seq<nat>)
    ensures |r| == |cols| && forall i :: 0 <= i < |cols| ==> r[i] == cols[i] + k
  {
    seq(|cols|, i requires 0 <= i < |cols| => cols[i] + k)
  }

  function Through(p: seq<nat>, cols: seq<nat>): (r: seq<nat>)
    requires ColsInRange(cols, |p|)
    ensures |r| == |cols| && forall i :: 0 <= i < |cols| ==> r[i] == p[cols[i]]
  {
    seq(|cols|, i requires 0 <= i < |cols| => p[cols[i]])
  }

  /** Are all of `cols` plain columns of the list? */
  predicate PlainCols(es: seq<(Expr, string)>, cols: seq<nat>) {
    forall i :: 0 <= i < |cols| ==> cols[i] < |es| && es[cols[i]].0.Column?
  }

  function ThroughExprs(es: seq<(Expr, string)>, cols: seq<nat>): (r: seq<nat>)
    requires PlainCols(es, cols)
    ensures |r| == |cols| && forall i :: 0 <= i < |cols| ==> r[i] == es[cols[i]].0.index
  {
    seq(|cols|, i requires 0 <= i < |cols| => es[cols[i]].0.index)
  }

  /** An output column of a join read on the probe side; the build key equals the probe key. */
  predicate OnProbe(i: nat, lw: nat, rk: nat) {
    i < lw || i == lw + rk
  }

  function ToProbe(cols: seq<nat>, lw: nat, lk: nat): (r: seq<nat>)
    ensures |r| == |cols| && forall i :: 0 <= i < |cols| ==> r[i] == if cols[i] < lw then cols[i] else lk
  {
    seq(|cols|, i requires 0 <= i < |cols| => if cols[i] < lw then cols[i] else lk)
  }

  function Back(p: Option<seq<nat>>, cols: seq<nat>): seq<nat>
    requires p.Some? ==> ColsInRange(cols, |p.value|)
  {
    match p
    case None => cols
    case Some(q) => Through(q, cols)
  }

  function Unshift(cols: seq<nat>, k: nat): (r: seq<nat>)
    requires forall i :: 0 <= i < |cols| ==> k <= cols[i]
    ensures |r| == |cols| && forall i :: 0 <= i < |cols| ==> r[i] == cols[i] - k
  {
    seq(|cols|, i requires 0 <= i < |cols| => cols[i] - k)
  }

  predicate AllAtLeast(cols: seq<nat>, k: nat) {
    forall i :: 0 <= i < |cols| ==> k <= cols[i]
  }

  predicate ProjCovers(p: Option<seq<nat>>, cols: seq<nat>) {
    p.Some? ==> ColsInRange(cols, |p.value|)
  }

  /** The input columns a row-wise node passes on as `cols`, if it passes them on. */
  function Behind(p: Plan, cols: seq<nat>): Option<seq<nat>>
    requires RowWise(p)
  {
    match p
    case Filter(_, proj, _) => if ProjCovers(proj, cols) then Some(Back(proj, cols)) else None
    case Projection(es, _) => if PlainCols(es, cols) then Some(ThroughExprs(es, cols)) else None
    case GpuFilter(_, out, _, _) => if ColsInRange(cols, |out|) then Some(Through(out, cols)) else None
    case GpuVectorDistance(_, _, _, _, _, i) => if ColsInRange(cols, |SchemaOf(i)|) then Some(cols) else None
  }

  /** The right-side columns that a join with left width `lw` passes on as `cols`. */
  function OnRight(projection: Option<seq<nat>>, lw: nat, cols: seq<nat>): Option<seq<nat>> {
    if ProjCovers(projection, cols) && AllAtLeast(Back(projection, cols), lw)
    then Some(Unshift(Back(projection, cols), lw)) else None
  }

  /** The probe columns that a device join passes on as `cols`. */
  function OnProbeSide(projection: Option<seq<nat>>, lw: nat, lk: nat, rk: nat, cols: seq<nat>): Option<seq<nat>> {
    if ProjCovers(projection, cols) && (forall k :: 0 <= k < |Back(projection, cols)| ==> OnProbe(Back(projection, cols)[k], lw, rk))
    then Some(ToProbe(Back(projection, cols), lw, lk)) else None
  }

  /** Is every run of `p` routed by the hash of its output columns `cols`? */
  ghost predicate HashOn(p: Plan, cols: seq<nat>)
    decreases p
  {
    if RowWise(p) then Behind(p, cols).Some? && HashOn(p.input, Behind(p, cols).value)
    else match p
      case Repartition(s, _) => s.HashBy? && s.cols == cols
      case HashJoin(_, _, proj, l, r) =>
        var back := OnRight(proj, |SchemaOf(l)|, cols);
        back.Some? && HashOn(r, back.value)
      case SortMergeJoin(_, l, r) =>
        var back := OnRight(None, |SchemaOf(l)|, cols);
        back.Some? && HashOn(r, back.value)
      case GpuHashJoin(lk, rk, proj, _, l, _) =>
        var back := OnProbeSide(proj, |SchemaOf(l)|, lk, rk, cols);
        back.Some? && HashOn(l, back.value)
      case Sort(_, _, i) => HashOn(i, cols)
      case Aggregate(_, g, _, i) => PlainCols(g, cols) && HashOn(i, ThroughExprs(g, cols))
      case _ => false
  }

  /** Rows equal on the group key are equal on `cols`. */
  ghost predicate KeyDetermines(g: seq<(Expr, string)>, cols: seq<nat>) {
    forall c :: 0 <= c < |cols| ==> exists k :: 0 <= k < |g| && g[k].0 == Column(cols[c])
  }

  ghost predicate OnDetermines(cond: JoinOn, lc: seq<nat>, rc: seq<nat>) {
    |lc| == |rc| && forall c :: 0 <= c < |lc| ==> (Column(lc[c]), Column(rc[c])) in cond.on
  }

  ghost predicate CoHashed(l: Plan, r: Plan, cond: JoinOn) {
    exists lc, rc :: HashOn(l, lc) && HashOn(r, rc) && OnDetermines(cond, lc, rc)
  }

  ghost predicate GroupsLocal(i: Plan, g: seq<(Expr, string)>) {
    exists cols :: HashOn(i, cols) && KeyDetermines(g, cols)
  }

  /** Does the node join partition with partition? */
  predicate PartitionWise(p: Plan) {
    (p.HashJoin? && p.mode.Partitioned?) || p.SortMergeJoin?
  }

  ghost predicate MatchesTogether(l: Plan, r: Plan, cond: JoinOn) {
    PartCount(l) == PartCount(r) ==> PartCount(l) <= 1 || CoHashed(l, r, cond)
  }

  ghost predicate GroupsTogether(p: Plan)
    requires p.Aggregate?
  {
    p.aggMode.Partial? || PartCount(p.input) <= 1 || GroupsLocal(p.input, p.group)
  }

  /**
   The distribution contract: whenever a node combines rows partition by
   partition, rows that belong together sit in the same partition.
   */
  ghost predicate Contract(p: Plan)
    decreases p
  {
    if Unary(p) then Contract(p.input) && (p.Aggregate? ==> GroupsTogether(p))
    else if p.Scan? then true
    else Contract(p.left) && Contract(p.right) && (PartitionWise(p) ==> MatchesTogether(p.left, p.right, p.cond))
  }

  // ------------------------------------------------------------------ order

  /** The left column that a join condition equates with right column `c`. */
  function PartnerOf(on: seq<(Expr, Expr)>, c: nat): (r: Option<nat>)
    ensures r.Some? ==> (Column(r.value), Column(c)) in on
  {
    if on == [] then None
    else if on[0].0.Column? && on[0].1 == Column(c) then Some(on[0].0.index)
    else PartnerOf(on[1..], c)
  }

  /** An output column of a merge join read on the left side. */
  predicate OnLeft(on: seq<(Expr, Expr)>, lw: nat, c: nat) {
    c < lw || PartnerOf(on, c - lw).Some?
  }

  predicate AllOnLeft(on: seq<(Expr, Expr)>, lw: nat, cols: seq<nat>) {
    forall i :: 0 <= i < |cols| ==> OnLeft(on, lw, cols[i])
  }

  function ToLeft(on: seq<(Expr, Expr)>, lw: nat, cols: seq<nat>): (r: seq<nat>)
    requires AllOnLeft(on, lw, cols)
    ensures |r| == |cols|
    ensures forall i :: 0 <= i < |cols| ==> r[i] == if cols[i] < lw then cols[i] else PartnerOf(on, cols[i] - lw).value
  {
    seq(|cols|, i requires 0 <= i < |cols| => if cols[i] < lw then cols[i] else PartnerOf(on, cols[i] - lw).value)
  }

  /**
   Is every partition of every run of `p` in ascending order of `cols`? Sorts make
   an order; row-wise nodes, probes of CPU hash joins and the left side of merge
   joins keep one. Device joins and aggregates promise none.
   */
  ghost predicate OrderOn(p: Plan, cols: seq<nat>)
    decreases p
  {
    && ColsInRange(cols, |SchemaOf(p)|)
    && if RowWise(p) then Behind(p, cols).Some? && OrderOn(p.input, Behind(p, cols).value)
       else match p
         case Sort(keys, _, _) => cols <= keys
         case HashJoin(_, _, proj, l, r) =>
           var back := OnRight(proj, |SchemaOf(l)|, cols);
           back.Some? && OrderOn(r, back.value)
         case SortMergeJoin(cond, l, _) =>
           AllOnLeft(cond.on, |SchemaOf(l)|, cols) && OrderOn(l, ToLeft(cond.on, |SchemaOf(l)|, cols))
         case _ => false
  }

  /** Do both sides of a join condition name columns? */
  predicate OnColumns(on: seq<(Expr, Expr)>) {
    forall i :: 0 <= i < |on| ==> on[i].0.Column? && on[i].1.Column?
  }

  function LeftCols(on: seq<(Expr, Expr)>): (r: seq<nat>)
    requires OnColumns(on)
    ensures |r| == |on| && forall i :: 0 <= i < |on| ==> r[i] == on[i].0.index
  {
    seq(|on|, i requires 0 <= i < |on| => on[i].0.index)
  }

  function RightCols(on: seq<(Expr, Expr)>): (r: seq<nat>)
    requires OnColumns(on)
    ensures |r| == |on| && forall i :: 0 <= i < |on| ==> r[i] == on[i].1.index
  {
    seq(|on|, i requires 0 <= i < |on| => on[i].1.index)
  }

  /** Both sides arrive in the order a merge on `on` needs. */
  ghost predicate MergeOrdered(on: seq<(Expr, Expr)>, l: Plan, r: Plan) {
    OnColumns(on) && OrderOn(l, LeftCols(on)) && OrderOn(r, RightCols(on))
  }

  /** The ordering contract: every merge join gets its sides sorted by the join key. */
  ghost predicate Orderly(p: Plan)
    decreases p
  {
    if Unary(p) then Orderly(p.input)
    else if p.Scan? then true
    else Orderly(p.left) && Orderly(p.right) && (p.SortMergeJoin? ==> MergeOrdered(p.cond.on, p.left, p.right))
  }
}
