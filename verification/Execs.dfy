/**
 The checked constructors of the `Gpu*Exec` nodes, used both by the placement
 rule and by the codec when it rebuilds a plan that arrived over the wire.
 */
module Execs {
  import opened Core
  import opened Plans

  /** A predicate with more comparisons than this is refused. */
  const MAX_PREDICATE_LEAVES: nat := 64

  predicate LeavesTyped(s: Schema, p: Predicate) {
    match p
    case Compare(c, _, lit) => c < |s| && s[c].dtype == lit.Type()
    case And(l, r) => LeavesTyped(s, l) && LeavesTyped(s, r)
  }

  predicate ValidPredicate(s: Schema, p: Predicate) {
    p.LeafCount() <= MAX_PREDICATE_LEAVES && LeavesTyped(s, p)
  }

  function NewFilter(input: Plan, p: Predicate, cols: seq<nat>, target: BackendKind): Result<Plan> {
    if !ValidPredicate(SchemaOf(input), p) then Err(PlanError)
    else if cols == [] then Err(PlanError)
    else if !ColsInRange(cols, |SchemaOf(input)|) then Err(PlanError)
    else Ok(GpuFilter(p, cols, target, input))
  }

  predicate IntKey(s: Schema, key: nat) {
    key < |s| && s[key].dtype == Int64
  }

  function NewHashJoin(left: Plan, right: Plan, lk: nat, rk: nat, target: BackendKind): (r: Result<Plan>)
    ensures r.Ok? <==> IntKey(SchemaOf(left), lk) && IntKey(SchemaOf(right), rk)
    ensures r.Ok? ==> r.value.GpuHashJoin? && SchemaOf(r.value) == SchemaOf(left) + SchemaOf(right)
  {
    if IntKey(SchemaOf(left), lk) && IntKey(SchemaOf(right), rk)
    then Ok(GpuHashJoin(lk, rk, None, target, left, right))
    else Err(PlanError)
  }

  function WithProjection(join: Plan, projection: Option<seq<nat>>): Result<Plan>
    requires join.GpuHashJoin?
  {
    match projection
    case None => Ok(GpuHashJoin(join.leftKey, join.rightKey, None, join.target, join.left, join.right))
    case Some(p) =>
      if p == [] then Err(PlanError)
      else if !ColsInRange(p, |SchemaOf(join.left)| + |SchemaOf(join.right)|) then Err(PlanError)
      else Ok(GpuHashJoin(join.leftKey, join.rightKey, projection, join.target, join.left, join.right))
  }

  function FnName(f: AggFn): string {
    match f
    case Sum => "SUM"
    case Count => "COUNT"
    case Min => "MIN"
    case Max => "MAX"
  }

  predicate Aggregable(t: DataType) {
    t.Int64? || t.Float64?
  }

  function OutputField(s: Schema, f: AggFn, col: nat): Field
    requires col < |s|
  {
    Field(FnName(f) + "(" + s[col].name + ")", if f.Count? then Int64 else s[col].dtype, true)
  }

  predicate SpecTyped(s: Schema, spec: AggregateSpec) {
    && IntKey(s, spec.groupBy)
    && forall j :: 0 <= j < |spec.aggregates| ==>
      spec.aggregates[j].1 < |s| && Aggregable(s[spec.aggregates[j].1].dtype)
  }

  /** What an aggregation delivers, or an error if a column is missing or has the wrong type. */
  function OutputSchema(s: Schema, spec: AggregateSpec): (r: Result<Schema>)
    ensures r.Ok? <==> SpecTyped(s, spec)
    ensures r.Ok? ==> |r.value| == 1 + |spec.aggregates|
  {
    if !SpecTyped(s, spec) then Err(PlanError)
    else
      Ok([Field(s[spec.groupBy].name, Int64, true)]
         + seq(|spec.aggregates|, j requires 0 <= j < |spec.aggregates| =>
             OutputField(s, spec.aggregates[j].0, spec.aggregates[j].1)))
  }

  /** An `Int64` key, and inputs of the two numeric types. */
  predicate NumericInputs(s: Schema, spec: AggregateSpec) {
    && spec.groupBy < |s| && s[spec.groupBy].dtype == Int64
    && forall j :: 0 <= j < |spec.aggregates| ==>
         && spec.aggregates[j].1 < |s|
         && (s[spec.aggregates[j].1].dtype == Int64 || s[spec.aggregates[j].1].dtype == Float64)
  }

  /** The field of one aggregate: named after the function and the column, nullable, and of the column's type. */
  predicate Titled(f: Field, func: AggFn, input: Field) {
    match func
    case Sum => f == Field("SUM(" + input.name + ")", input.dtype, true)
    case Count => f == Field("COUNT(" + input.name + ")", Int64, true)
    case Min => f == Field("MIN(" + input.name + ")", input.dtype, true)
    case Max => f == Field("MAX(" + input.name + ")", input.dtype, true)
  }

  /** Which specifications the kernel, the constructors and the codec admit. */
  lemma {:induction false} SpecTypedIff(s: Schema, spec: AggregateSpec)
    ensures SpecTyped(s, spec) <==> NumericInputs(s, spec)
  {
  }

  lemma {:induction false} FieldTitled(s: Schema, f: AggFn, col: nat)
    requires col < |s|
    ensures Titled(OutputField(s, f, col), f, s[col])
  {
  }

  /** An error, or the key under its own name and one titled field per aggregate. */
  ghost predicate IsOutput(r: Result<Schema>, s: Schema, spec: AggregateSpec) {
    && (r.Ok? <==> NumericInputs(s, spec))
    && (r.Ok? ==>
          && |r.value| == 1 + |spec.aggregates| && r.value[0] == Field(s[spec.groupBy].name, Int64, true)
          && forall j :: 0 <= j < |spec.aggregates| ==>
               Titled(r.value[1 + j], spec.aggregates[j].0, s[spec.aggregates[j].1]))
  }

  /** The schema an aggregation delivers, and when it delivers one. */
  lemma {:induction false} OutputMeans(s: Schema, spec: AggregateSpec)
    ensures IsOutput(OutputSchema(s, spec), s, spec)
  {
    SpecTypedIff(s, spec);
    if SpecTyped(s, spec) {
      var out := OutputSchema(s, spec).value;
      forall j | 0 <= j < |spec.aggregates| ensures Titled(out[1 + j], spec.aggregates[j].0, s[spec.aggregates[j].1]) {
        FieldTitled(s, spec.aggregates[j].0, spec.aggregates[j].1);
      }
    }
  }

  /** The loop that derives the schema field by field, stopping at the first bad column. */
  method DeriveOutputSchema(s: Schema, spec: AggregateSpec) returns (r: Result<Schema>)
    ensures r == OutputSchema(s, spec)
    ensures IsOutput(r, s, spec)
  {
    OutputMeans(s, spec);
    if !IntKey(s, spec.groupBy) {
      return Err(PlanError);
    }
    var fields: Schema := [Field(s[spec.groupBy].name, Int64, true)];
    for j := 0 to |spec.aggregates|
      invariant |fields| == 1 + j
      invariant fields[0] == Field(s[spec.groupBy].name, Int64, true)
      invariant forall i :: 0 <= i < j ==>
        && spec.aggregates[i].1 < |s| && Aggregable(s[spec.aggregates[i].1].dtype)
        && fields[1 + i] == OutputField(s, spec.aggregates[i].0, spec.aggregates[i].1)
    {
      var (f, col) := spec.aggregates[j];
      if col >= |s| || !Aggregable(s[col].dtype) {
        return Err(PlanError);
      }
      fields := fields + [OutputField(s, f, col)];
    }
    assert fields == OutputSchema(s, spec).value;
    return Ok(fields);
  }

  function NewAggregate(input: Plan, spec: AggregateSpec, target: BackendKind): Result<Plan> {
    var s :- OutputSchema(SchemaOf(input), spec);
    Ok(GpuAggregate(spec, s, target, input))
  }

  predicate SameTypes(a: Schema, b: Schema) {
    |a| == |b| && forall i :: 0 <= i < |a| ==> a[i].dtype == b[i].dtype
  }

  /** Takes over planned names and nullability; the types must already agree. */
  function WithOutputSchema(agg: Plan, s: Schema): Result<Plan>
    requires agg.GpuAggregate?
  {
    if SameTypes(s, agg.schema) then Ok(GpuAggregate(agg.spec, s, agg.target, agg.input)) else Err(PlanError)
  }

  function NewVectorDistance(input: Plan, column: nat, query: seq<u32>, metric: DistanceMetric, name: string,
                             target: BackendKind): Result<Plan> {
    var s := SchemaOf(input);
    if column < |s| && s[column].dtype.FixedSizeList? && s[column].dtype.dim > 0 && s[column].dtype.dim == |query|
    then Ok(GpuVectorDistance(column, query, metric, name, target, input))
    else Err(PlanError)
  }
}
