/**
 The device nodes as they execute, batch by batch and partition by partition. Given
 what their inputs delivered, each delivers what `NodeRuns` or `SidesRun` allows, so
 executing a placed plan from the leaves up yields one of the runs that the
 placement theorems quantify over.
 */
module Execution {
  import opened Core
  import opened Bags
  import opened Groups
  import opened Plans
  import opened Execs
  import opened Batches
  import opened JoinExec
  import opened GpuOperators
  import FilterKernel
  import FilterOperator
  import AggregateKernel
  import AggregateOperator
  import Liveness

  // -------------------------------------------------------------------- filter

  /** Filters a partition's batches through a fresh operator. */
  method FilterPartition(onGpu: bool, schema: Schema, bs: seq<Batch>, p: Predicate, cols: seq<nat>,
                         devices: seq<FilterOperator.Device>)
    returns (r: Result<seq<Batch>>)
    requires AllOf(schema, bs) && |devices| == |bs|
    ensures r.Ok? ==> AllRows(r.value) == FlatMap(PredicateFn(p, cols), AllRows(bs))
    ensures r.Ok? && cols != [] ==> AllOf(ProjectSchema(schema, cols), r.value)
    ensures r.Err? ==> cols == [] || FilterFails(bs, p, cols, devices)
  {
    var operator := new GpuOperator(onGpu);
    var outs: seq<Batch> := [];
    for i := 0 to |bs|
      invariant operator.Consistent() && fresh(operator)
      invariant AllRows(outs) == FlatMap(PredicateFn(p, cols), AllRows(bs[..i]))
      invariant AllOf(ProjectSchema(schema, cols), outs)
    {
      var out := operator.FilterBatch(bs[i], p, cols, devices[i]);
      if out.Err? {
        return Err(out.error);
      }
      FilterKernel.FilterProjectRows(bs[i], p, cols);
      FilterKernel.FilterProjectValid(bs[i], p, cols);
      FilteredSnoc(outs, out.value, bs, i, PredicateFn(p, cols));
      outs := outs + [out.value];
    }
    assert bs[..|bs|] == bs;
    return Ok(outs);
  }

  lemma {:induction false} FilteredSnoc(outs: seq<Batch>, out: Batch, bs: seq<Batch>, i: nat, f: Row -> seq<Row>)
    requires i < |bs| && AllRows(outs) == FlatMap(f, AllRows(bs[..i])) && RowsOf(out) == FlatMap(f, RowsOf(bs[i]))
    ensures AllRows(outs + [out]) == FlatMap(f, AllRows(bs[..i + 1]))
  {
    AllRowsSnoc(outs, out);
    AllRowsSnoc(bs[..i], bs[i]);
    assert bs[..i + 1] == bs[..i] + [bs[i]];
    FlatMapAppend(f, AllRows(bs[..i]), RowsOf(bs[i]));
  }

  /** Some batch met a failing device, or the reference kernel refuses it. */
  ghost predicate FilterFails(bs: seq<Batch>, p: Predicate, cols: seq<nat>, devices: seq<FilterOperator.Device>) {
    exists i :: 0 <= i < |bs| && i < |devices| && (devices[i].Fails? || FilterKernel.FilterProject(bs[i], p, cols).Err?)
  }

  /** Executes a filter node over the partitions its input delivered. */
  method ExecuteFilter(ghost env: Env, onGpu: bool, p: Plan, schema: Schema, parts: seq<seq<Batch>>,
                       devices: seq<seq<FilterOperator.Device>>)
    returns (r: Result<seq<seq<Batch>>>)
    requires p.GpuFilter? && |devices| == |parts|
    requires forall i :: 0 <= i < |parts| ==> AllOf(schema, parts[i]) && |devices[i]| == |parts[i]|
    ensures r.Ok? ==> NodeRuns(env, p, PartRows(parts), PartRows(r.value))
    ensures r.Ok? ==> FilteredParts(p.filter, p.cols, schema, parts, r.value, |parts|)
    ensures r.Err? ==> p.cols == [] || SomePartFails(parts, p.filter, p.cols, devices)
  {
    var outs: seq<seq<Batch>> := [];
    for i := 0 to |parts|
      invariant FilteredParts(p.filter, p.cols, schema, parts, outs, i)
    {
      var out := FilterPartition(onGpu, schema, parts[i], p.filter, p.cols, devices[i]);
      if out.Err? {
        assert p.cols == [] || PartFilterFails(parts, p.filter, p.cols, devices, i);
        return Err(out.error);
      }
      MoreFiltered(p.filter, p.cols, schema, parts, outs, out.value);
      outs := outs + [out.value];
    }
    FilterNode(env, p, schema, parts, outs);
    return Ok(outs);
  }

  /** The first `n` partitions, filtered. */
  ghost predicate FilteredParts(p: Predicate, cols: seq<nat>, schema: Schema, parts: seq<seq<Batch>>,
                                outs: seq<seq<Batch>>, n: nat) {
    && |outs| == n <= |parts|
    && (forall k :: 0 <= k < n ==> AllRows(outs[k]) == FlatMap(PredicateFn(p, cols), AllRows(parts[k])))
    && (cols != [] ==> forall k :: 0 <= k < n ==> AllOf(ProjectSchema(schema, cols), outs[k]))
  }

  lemma {:induction false} MoreFiltered(p: Predicate, cols: seq<nat>, schema: Schema, parts: seq<seq<Batch>>,
                                        outs: seq<seq<Batch>>,
                                        out: seq<Batch>)
    requires |outs| < |parts| && FilteredParts(p, cols, schema, parts, outs, |outs|)
    requires AllRows(out) == FlatMap(PredicateFn(p, cols), AllRows(parts[|outs|]))
    requires cols != [] ==> AllOf(ProjectSchema(schema, cols), out)
    ensures FilteredParts(p, cols, schema, parts, outs + [out], |outs| + 1)
  {
  }

  ghost predicate PartFilterFails(parts: seq<seq<Batch>>, p: Predicate, cols: seq<nat>,
                                  devices: seq<seq<FilterOperator.Device>>, i: int) {
    0 <= i < |parts| && i < |devices| && FilterFails(parts[i], p, cols, devices[i])
  }

  ghost predicate SomePartFails(parts: seq<seq<Batch>>, p: Predicate, cols: seq<nat>,
                                devices: seq<seq<FilterOperator.Device>>) {
    exists i :: PartFilterFails(parts, p, cols, devices, i)
  }

  lemma {:induction false} FilterNode(env: Env, p: Plan, schema: Schema, parts: seq<seq<Batch>>, outs: seq<seq<Batch>>)
    requires p.GpuFilter? && FilteredParts(p.filter, p.cols, schema, parts, outs, |parts|)
    ensures NodeRuns(env, p, PartRows(parts), PartRows(outs))
  {
    assert Mapped(PredicateFn(p.filter, p.cols), PartRows(parts), PartRows(outs));
  }

  // ---------------------------------------------------------------------- join

  lemma {:induction false} RowWidths(s: Schema, bs: seq<Batch>)
    requires AllOf(s, bs)
    ensures forall r :: r in AllRows(bs) ==> |r| == |s|
  {
    if bs != [] {
      RowWidths(s, bs[1..]);
      assert AllRows(bs) == RowsOf(bs[0]) + AllRows(bs[1..]);
    }
  }

  /** Selecting every column selects the row. */
  lemma {:induction false} SelectAll(lk: nat, rk: nat, projection: Option<seq<nat>>, ls: Schema, rs: Schema, l: Row,
                                     r: Row)
    requires |l| == |ls| && |r| == |rs|
    ensures NodeFn(lk, rk, projection, ls, rs)(l, r) == JoinFn(OnKeys(lk, rk), projection)(l, r)
  {
    assert Pick(l + r, Upto(|ls| + |rs|)) == l + r;
  }

  /** Probing with every column selected, or the projected ones, is the node's join. */
  lemma {:induction false} ProbedByNode(p: Plan, ls: Schema, rs: Schema, lefts: seq<seq<Batch>>, right: seq<Batch>,
                                        rights: seq<seq<Row>>, outs: seq<seq<Row>>)
    requires p.GpuHashJoin? && (forall i :: 0 <= i < |lefts| ==> AllOf(ls, lefts[i])) && AllOf(rs, right)
    requires AllRows(right) == Flatten(rights)
    requires Probed(NodeFn(p.leftKey, p.rightKey, p.projection, ls, rs), PartRows(lefts), [AllRows(right)], outs)
    ensures SidesRun(p, PartRows(lefts), rights, outs)
  {
    var (m, n) := (NodeFn(p.leftKey, p.rightKey, p.projection, ls, rs), JoinFn(OnKeys(p.leftKey, p.rightKey), p.projection));
    FlattenOne(AllRows(right));
    RowWidths(rs, right);
    forall i | 0 <= i < |outs| ensures Perm(outs[i], Pair(n, PartRows(lefts)[i], Flatten(rights))) {
      RowWidths(ls, lefts[i]);
      forall l, r | l in AllRows(lefts[i]) && r in AllRows(right) ensures m(l, r) == n(l, r) {
        SelectAll(p.leftKey, p.rightKey, p.projection, ls, rs, l, r);
      }
      PairExt(m, n, AllRows(lefts[i]), AllRows(right));
    }
  }

  lemma {:induction false} AllParts(parts: seq<seq<Batch>>)
    ensures AllRows(Flatten(parts)) == Flatten(PartRows(parts))
  {
    FlatMapFlatten(RowsOf, parts);
    assert Each(s => FlatMap(RowsOf, s), parts) == PartRows(parts);
  }

  lemma {:induction false} AllOfFlatten(s: Schema, parts: seq<seq<Batch>>)
    requires forall i :: 0 <= i < |parts| ==> AllOf(s, parts[i])
    ensures AllOf(s, Flatten(parts))
  {
    if parts != [] {
      AllOfFlatten(s, parts[1..]);
    }
  }

  /** The right side cannot be hashed, or some left batch meets a failing device or is refused by the kernel. */
  ghost predicate JoinFails(p: Plan, rs: Schema, lefts: seq<seq<Batch>>, rights: seq<seq<Batch>>, arrival: seq<Batch>,
                            devices: seq<seq<JoinDevice>>)
    requires p.GpuHashJoin?
  {
    || BuildFails(rs, arrival, p.rightKey)
    || exists build, i ::
         BuiltFrom(build, Flatten(rights), p.rightKey) && PartFailsAt(build, lefts, devices, i, p.leftKey, p.projection)
  }

  /** Executes a join node: the partitions start in any order, the right batches arrive in any order. */
  method ExecuteJoin(onGpu: bool, p: Plan, ls: Schema, rs: Schema, lefts: seq<seq<Batch>>, rights: seq<seq<Batch>>,
                     order: seq<nat>, arrival: seq<Batch>, devices: seq<seq<JoinDevice>>)
    returns (r: Result<seq<seq<Batch>>>)
    requires p.GpuHashJoin? && rs != [] && TotalRows(Flatten(rights)) <= I64_MAX
    requires forall i :: 0 <= i < |rights| ==> AllOf(rs, rights[i])
    requires |devices| == |lefts| && Perm(order, Upto(|lefts|)) && Perm(arrival, Flatten(rights))
      && KeysFit(rs, arrival, p.rightKey)
    requires forall i :: 0 <= i < |lefts| ==>
      AllOf(ls, lefts[i]) && |devices[i]| == |lefts[i]| && ArrangeAll(devices[i])
    ensures r.Ok? ==> SidesRun(p, PartRows(lefts), PartRows(rights), PartRows(r.value))
    ensures r.Err? ==> JoinFails(p, rs, lefts, rights, arrival, devices)
  {
    AllOfFlatten(rs, rights);
    var node := new HashJoinExec(onGpu, ls, rs, p.leftKey, p.rightKey, p.projection, Flatten(rights));
    r := ExecuteAll(node, lefts, order, arrival, devices);
    if r.Ok? {
      AllParts(rights);
      ProbedByNode(p, ls, rs, lefts, Flatten(rights), PartRows(rights), PartRows(r.value));
    }
  }

  // ----------------------------------------------------------------- aggregate

  /** Collects the whole input, aggregates it as one batch and takes over the planned names. */
  method AggregateNode(onGpu: bool, partition: nat, schema: Schema, planned: Schema, input: seq<Batch>,
                       arrival: seq<Batch>,
                       spec: AggregateSpec, device: AggregateOperator.AggDevice)
    returns (r: Result<Batch>)
    requires AllOf(schema, input) && TotalRows(input) <= I64_MAX && schema != [] && Perm(arrival, input)
    requires AggregateKernel.IntInputs(schema, spec) && AggregateOperator.Computes(device)
    requires SpecTyped(schema, spec) && SameTypes(planned, OutputSchema(schema, spec).value)
    ensures partition != 0 ==> r.Err?
    ensures r.Ok? ==> r.value.schema == planned && Perm(RowsOf(r.value), Group(SpecGrouping(spec), AllRows(input)))
    ensures partition == 0 ==>
      (r.Ok? <==> if onGpu && !device.answer.Declines? then device.answer.Works? else SumsFit(SpecGrouping(spec), AllRows(arrival)))
  {
    if partition != 0 {
      return Err(ExecutionError);
    }
    var operator := new GpuOperator(onGpu);
    ArrivalIsAll(schema, arrival, input);
    ArrivedRows(schema, arrival, input);
    var out := operator.AggregateBatch(Concat(schema, arrival), spec, device);
    if out.Err? {
      return Err(out.error);
    }
    GroupPerm(SpecGrouping(spec), AllRows(arrival), AllRows(input));
    SameRows(out.value, Batch(planned, out.value.columns, out.value.rows));
    return Ok(Batch(planned, out.value.columns, out.value.rows));
  }

  lemma {:induction false} ArrivedRows(schema: Schema, arrival: seq<Batch>, input: seq<Batch>)
    requires AllOf(schema, input) && schema != [] && Perm(arrival, input)
    ensures RowsOf(Concat(schema, arrival)) == AllRows(arrival) && Perm(AllRows(arrival), AllRows(input))
  {
    forall i | 0 <= i < |arrival| ensures Valid(arrival[i]) && arrival[i].schema == schema {
      assert arrival[i] in multiset(input);
      assert arrival[i] in input;
    }
    AllRowsPerm(arrival, input);
    ConcatRows(schema, arrival);
  }

  /** The environment knows which aggregations of which bags the device answers. */
  ghost predicate Describes(env: Env, onGpu: bool, device: AggregateOperator.AggDevice, spec: AggregateSpec,
                            rows: seq<Row>) {
    env.ran(spec, multiset(rows)) == (onGpu && device.answer.Works?)
  }

  /** Executes an aggregate node: all input partitions, arriving in any order, into its one partition. */
  method ExecuteAggregate(ghost env: Env, onGpu: bool, p: Plan, schema: Schema, parts: seq<seq<Batch>>,
                          arrival: seq<Batch>,
                          device: AggregateOperator.AggDevice)
    returns (r: Result<seq<seq<Batch>>>)
    requires p.GpuAggregate? && schema != [] && TotalRows(Flatten(parts)) <= I64_MAX && Perm(arrival, Flatten(parts))
    requires forall i :: 0 <= i < |parts| ==> AllOf(schema, parts[i])
    requires AggregateKernel.IntInputs(schema, p.spec) && AggregateOperator.Computes(device)
    requires SpecTyped(schema, p.spec) && SameTypes(p.schema, OutputSchema(schema, p.spec).value)
    requires Describes(env, onGpu, device, p.spec, Flatten(PartRows(parts)))
    ensures r.Ok? ==> NodeRuns(env, p, PartRows(parts), PartRows(r.value))
    ensures !(onGpu && device.answer.Fails?) ==> (r.Ok? <==> Aggregates(env, p.spec, Flatten(PartRows(parts))))
  {
    var input := Flatten(parts);
    AllOfFlatten(schema, parts);
    AllParts(parts);
    AllRowsPerm(arrival, input);
    Liveness.SumsFitIff(SpecGrouping(p.spec), AllRows(arrival), AllRows(input));
    var out := AggregateNode(onGpu, 0, schema, p.schema, input, arrival, p.spec, device);
    if out.Err? {
      return Err(out.error);
    }
    OneBatch(out.value);
    assert Grouped(SpecGrouping(p.spec), [Flatten(PartRows(parts))], PartRows([[out.value]]));
    return Ok([[out.value]]);
  }

  lemma {:induction false} OneBatch(b: Batch)
    ensures AllRows([b]) == RowsOf(b) && PartRows([[b]]) == [RowsOf(b)]
  {
    AllRowsSnoc([], b);
    assert [] + [b] == [b];
  }
}
