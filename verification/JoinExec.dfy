/**
 The join node: the first partition to start collects and hashes the whole right
 child, and every partition probes that one build side with an operator of its own.
 */
module JoinExec {
  import opened Core
  import opened Bags
  import opened Plans
  import opened Batches
  import opened JoinTables
  import opened JoinKernel
  import opened GpuOperators

  // ------------------------------------------------------------ one partition

  /** The columns a join of these schemas delivers. */
  function SelectedOf(projection: Option<seq<nat>>, left: Schema, right: Schema): seq<nat> {
    if projection.Some? then projection.value else Upto(|left| + |right|)
  }

  ghost predicate ArrangeAll(devices: seq<JoinDevice>) {
    forall i :: 0 <= i < |devices| ==> Arranges(devices[i])
  }

  /** The join of one left row with one right row, as this node delivers it. */
  function NodeFn(leftKey: nat, rightKey: nat, projection: Option<seq<nat>>, left: Schema, right: Schema): (Row,
                  Row) -> seq<Row> {
    JoinFn(OnKeys(leftKey, rightKey), Some(SelectedOf(projection, left, right)))
  }

  /** `outs` is the join of the first `n` left batches with `right`. */
  ghost predicate Joined(outs: seq<Batch>, m: (Row, Row) -> seq<Row>, lefts: seq<Batch>, n: nat, right: seq<Row>) {
    n <= |lefts| && Perm(AllRows(outs), Pair(m, AllRows(lefts[..n]), right))
  }

  /** The device breaks on this batch, or the reference kernel refuses it. */
  ghost predicate BatchFails(left: Batch, device: JoinDevice, leftKey: nat, build: JoinBuild,
                             projection: Option<seq<nat>>) {
    device.upload.Fails? || device.kernel.Fails? || (Built(build) && ProbeFails(left, leftKey, build.batch, build.key, projection))
  }

  ghost predicate PartFails(lefts: seq<Batch>, devices: seq<JoinDevice>, leftKey: nat, build: JoinBuild,
                            projection: Option<seq<nat>>) {
    exists i :: 0 <= i < |lefts| && i < |devices| && BatchFails(lefts[i], devices[i], leftKey, build, projection)
  }

  /** Probes a partition's batches, one by one, through a fresh operator. */
  method ProbePartition(onGpu: bool, schema: Schema, lefts: seq<Batch>, build: JoinBuild, leftKey: nat,
                        projection: Option<seq<nat>>, devices: seq<JoinDevice>)
    returns (r: Result<seq<Batch>>)
    requires AllOf(schema, lefts) && Built(build) && |devices| == |lefts| && ArrangeAll(devices)
    ensures r.Ok? ==>
      Perm(AllRows(r.value), Pair(NodeFn(leftKey, build.key, projection, schema, build.batch.schema), AllRows(lefts), RowsOf(build.batch)))
    ensures r.Err? ==> PartFails(lefts, devices, leftKey, build, projection)
  {
    var operator := new GpuOperator(onGpu);
    var outs: seq<Batch> := [];
    ghost var m := NodeFn(leftKey, build.key, projection, schema, build.batch.schema);
    ghost var right := RowsOf(build.batch);
    for i := 0 to |lefts|
      invariant operator.Consistent() && fresh(operator)
      invariant CacheServes(operator.deviceBuild, schema, build, projection)
      invariant Joined(outs, m, lefts, i, right)
    {
      CacheMeaning(operator.deviceBuild, schema, lefts[i], build, projection);
      var out := operator.HashJoin(lefts[i], build, leftKey, projection, devices[i]);
      if out.Err? {
        assert BatchFails(lefts[i], devices[i], leftKey, build, projection);
        return Err(out.error);
      }
      CacheMeaning(operator.deviceBuild, schema, lefts[i], build, projection);
      OneMoreBatch(outs, out.value, lefts, i, leftKey, build, schema, projection);
      outs := outs + [out.value];
    }
    assert lefts[..|lefts|] == lefts;
    return Ok(outs);
  }

  /** What the operator may have cached, by the shape its batches share. */
  ghost predicate CacheServes(cache: Option<DeviceBuild>, schema: Schema, build: JoinBuild,
                              projection: Option<seq<nat>>) {
    cache == None || (Built(build) && ServesJoin(cache, Batch(schema, seq(|schema|, _ => []), 0), build, projection))
  }

  lemma {:induction false} CacheMeaning(cache: Option<DeviceBuild>, schema: Schema, left: Batch, build: JoinBuild,
                                        projection: Option<seq<nat>>)
    requires Valid(left) && left.schema == schema && Built(build)
    ensures CacheServes(cache, schema, build, projection) <==> ServesJoin(cache, left, build, projection)
  {
    var shape := Batch(schema, seq(|schema|, _ => []), 0);
    assert |left.columns| == |shape.columns|;
    assert Selected(projection, left, build.batch) == Selected(projection, shape, build.batch);
  }

  lemma {:induction false} OneMoreBatch(outs: seq<Batch>, out: Batch, lefts: seq<Batch>, i: nat, leftKey: nat,
                                        build: JoinBuild, schema: Schema, projection: Option<seq<nat>>)
    requires i < |lefts| && Valid(lefts[i]) && lefts[i].schema == schema && Valid(build.batch)
    requires Joined(outs, NodeFn(leftKey, build.key, projection, schema, build.batch.schema), lefts, i, RowsOf(build.batch))
    requires JoinOf(out, lefts[i], leftKey, build, Selected(projection, lefts[i], build.batch))
    ensures Joined(outs + [out], NodeFn(leftKey, build.key, projection, schema, build.batch.schema), lefts, i + 1, RowsOf(build.batch))
  {
    assert Selected(projection, lefts[i], build.batch) == SelectedOf(projection, schema, build.batch.schema);
    OneMore(NodeFn(leftKey, build.key, projection, schema, build.batch.schema), outs, out, lefts, i, RowsOf(build.batch));
  }

  lemma {:induction false} OneMore(m: (Row, Row) -> seq<Row>, outs: seq<Batch>, out: Batch, lefts: seq<Batch>, i: nat,
                                   right: seq<Row>)
    requires i < |lefts| && Joined(outs, m, lefts, i, right)
    requires Perm(RowsOf(out), Pair(m, RowsOf(lefts[i]), right))
    ensures Joined(outs + [out], m, lefts, i + 1, right)
  {
    AllRowsSnoc(outs, out);
    AllRowsSnoc(lefts[..i], lefts[i]);
    assert lefts[..i + 1] == lefts[..i] + [lefts[i]];
    PairAppendLeft(m, AllRows(lefts[..i]), RowsOf(lefts[i]), right);
  }

  // ------------------------------------------------------------------ the node

  class HashJoinExec {
    const onGpu: bool
    const leftSchema: Schema
    const rightSchema: Schema
    const leftKey: nat
    const rightKey: nat
    const projection: Option<seq<nat>>

    /** What the right child still has to hand out: it delivers each batch to one consumer only. */
    var pending: seq<Batch>
    /** The build side, set by the first partition to start. */
    var slot: Option<Result<JoinBuild>>
    /** Everything the right child delivers. */
    ghost const right: seq<Batch>

    ghost predicate Valid()
      reads this
    {
      && AllOf(rightSchema, right) && TotalRows(right) <= I64_MAX && rightSchema != []
      && (slot == None ==> pending == right)
      && (slot.Some? && slot.value.Ok? ==> BuiltFrom(slot.value.value, right, rightKey))
      && (slot.Some? && slot.value.Ok? ==> slot.value.value.batch.schema == rightSchema)
    }

    constructor (gpu: bool, ls: Schema, rs: Schema, lk: nat, rk: nat, proj: Option<seq<nat>>, child: seq<Batch>)
      requires AllOf(rs, child) && TotalRows(child) <= I64_MAX && rs != []
      ensures Valid() && slot == None && right == child
      ensures onGpu == gpu && leftSchema == ls && rightSchema == rs && leftKey == lk && rightKey == rk
        && projection == proj
    {
      onGpu, leftSchema, rightSchema, leftKey, rightKey, projection := gpu, ls, rs, lk, rk, proj;
      pending, slot, right := child, None, child;
    }

    /** Collects and hashes the right child on the first call; later calls get the same answer. */
    method SharedBuild(arrival: seq<Batch>) returns (r: Result<JoinBuild>)
      requires Valid() && (slot == None ==> Perm(arrival, pending))
      requires KeysFit(rightSchema, arrival, rightKey)
      modifies this`pending, this`slot
      ensures Valid() && slot == Some(r)
      ensures old(slot).Some? ==> slot == old(slot) && pending == old(pending)
      ensures r.Ok? ==> BuiltFrom(r.value, right, rightKey) && r.value.batch.schema == rightSchema
      ensures old(slot) == None ==> (r.Err? <==> BuildFails(rightSchema, arrival, rightKey))
    {
      if slot.Some? {
        return slot.value;
      }
      pending := [];
      r := HashRight(rightSchema, arrival, rightKey, right);
      slot := Some(r);
    }

    /** Runs one partition: its probe batches against the shared build side. */
    method Execute(lefts: seq<Batch>, arrival: seq<Batch>, devices: seq<JoinDevice>) returns (r: Result<seq<Batch>>)
      requires Valid() && (slot == None ==> Perm(arrival, pending))
      requires KeysFit(rightSchema, arrival, rightKey)
      requires AllOf(leftSchema, lefts) && |devices| == |lefts| && ArrangeAll(devices)
      modifies this`pending, this`slot
      ensures Valid() && slot.Some?
      ensures r.Ok? ==>
        Perm(AllRows(r.value),
             Pair(NodeFn(leftKey, rightKey, projection, leftSchema, rightSchema), AllRows(lefts), AllRows(right)))
      ensures old(slot).Some? ==> slot == old(slot)
      ensures old(slot) == None ==> (slot.value.Err? <==> BuildFails(rightSchema, arrival, rightKey))
      ensures r.Err? ==> slot.value.Err? || PartFails(lefts, devices, leftKey, slot.value.value, projection)
    {
      var build := SharedBuild(arrival);
      if build.Err? {
        return Err(build.error);
      }
      r := ProbePartition(onGpu, leftSchema, lefts, build.value, leftKey, projection, devices);
      if r.Ok? {
        PairPerm(NodeFn(leftKey, rightKey, projection, leftSchema, rightSchema),
                 AllRows(lefts), AllRows(lefts), RowsOf(build.value.batch), AllRows(right));
      }
    }
  }

  /** A build side holding all rows of the right child, hashed on its key. */
  ghost predicate BuiltFrom(build: JoinBuild, right: seq<Batch>, key: nat) {
    Built(build) && build.key == key && Perm(RowsOf(build.batch), AllRows(right))
  }

  ghost predicate BuildFails(schema: Schema, arrival: seq<Batch>, key: nat) {
    key >= |schema| || schema[key].dtype != Int64 || TooBig(ConcatColumn(arrival, key))
  }

  /** No key occurs more often than the build's 32-bit counters can count. */
  ghost predicate KeysFit(schema: Schema, arrival: seq<Batch>, key: nat) {
    key < |schema| ==> forall k :: |KeyRows(ConcatColumn(arrival, key), k)| <= U32_MAX
  }

  /** Concatenates what arrived and hashes it. */
  method HashRight(schema: Schema, arrival: seq<Batch>, key: nat,
                   ghost right: seq<Batch>) returns (r: Result<JoinBuild>)
    requires AllOf(schema, right) && TotalRows(right) <= I64_MAX && schema != [] && Perm(arrival, right)
    requires KeysFit(schema, arrival, key)
    ensures r.Ok? ==> BuiltFrom(r.value, right, key) && r.value.batch.schema == schema
    ensures r.Err? <==> BuildFails(schema, arrival, key)
  {
    ArrivalIsAll(schema, arrival, right);
    var batch := Concat(schema, arrival);
    if key >= |schema| {
      return Err(PlanError);
    }
    if schema[key].dtype != Int64 {
      return Err(UnsupportedError);
    }
    assert batch.columns[key] == ConcatColumn(arrival, key);
    var table := Build(batch.columns[key]);
    if table.Err? {
      return Err(table.error);
    }
    return Ok(JoinBuild(batch, key, table.value));
  }

  lemma {:induction false} ArrivalIsAll(schema: Schema, arrival: seq<Batch>, right: seq<Batch>)
    requires AllOf(schema, right) && TotalRows(right) <= I64_MAX && schema != [] && Perm(arrival, right)
    ensures Valid(Concat(schema, arrival)) && Perm(RowsOf(Concat(schema, arrival)), AllRows(right))
  {
    forall i | 0 <= i < |arrival| ensures Valid(arrival[i]) && arrival[i].schema == schema {
      assert arrival[i] in multiset(right);
      assert arrival[i] in right;
    }
    AllRowsPerm(arrival, right);
    ConcatValid(schema, arrival);
    ConcatRows(schema, arrival);
  }

  // ------------------------------------------------------------ all partitions

  /** The rows of every partition. */
  function PartRows(parts: seq<seq<Batch>>): (r: seq<seq<Row>>)
    ensures |r| == |parts| && forall i :: 0 <= i < |parts| ==> r[i] == AllRows(parts[i])
  {
    seq(|parts|, i requires 0 <= i < |parts| => AllRows(parts[i]))
  }

  /** If there is a build side yet, it failed exactly when what arrived cannot be hashed. */
  ghost predicate BuiltOrFailed(slot: Option<Result<JoinBuild>>, schema: Schema, arrival: seq<Batch>, key: nat) {
    slot.Some? ==> (slot.value.Err? <==> BuildFails(schema, arrival, key))
  }

  /** The build side could not be made, or some partition met a failing batch. */
  ghost predicate NodeFails(slot: Option<Result<JoinBuild>>, parts: seq<seq<Batch>>, devices: seq<seq<JoinDevice>>,
                            leftKey: nat, projection: Option<seq<nat>>) {
    slot.Some? && (slot.value.Err? || exists i :: PartFailsAt(slot.value.value, parts, devices, i, leftKey, projection))
  }

  ghost predicate PartFailsAt(build: JoinBuild, parts: seq<seq<Batch>>, devices: seq<seq<JoinDevice>>, i: int,
                              leftKey: nat, projection: Option<seq<nat>>) {
    0 <= i < |parts| && i < |devices| && PartFails(parts[i], devices[i], leftKey, build, projection)
  }

  ghost predicate PartDone(m: (Row, Row) -> seq<Row>, parts: seq<seq<Batch>>, right: seq<Row>, i: nat, out: seq<Batch>) {
    i < |parts| && Perm(AllRows(out), Pair(m, AllRows(parts[i]), right))
  }

  /** The first `n` partitions to start have delivered, each its join with the right side. */
  ghost predicate PartsDone(m: (Row, Row) -> seq<Row>, parts: seq<seq<Batch>>, right: seq<Row>,
                            outs: map<nat, seq<Batch>>, order: seq<nat>, n: nat) {
    && (forall t :: 0 <= t < n && t < |order| ==> order[t] in outs)
    && forall i :: i in outs ==> PartDone(m, parts, right, i, outs[i])
  }

  lemma {:induction false} OnePartMore(m: (Row, Row) -> seq<Row>, parts: seq<seq<Batch>>, right: seq<Row>,
                                       outs: map<nat, seq<Batch>>, order: seq<nat>, n: nat, out: seq<Batch>)
    requires n < |order| && PartsDone(m, parts, right, outs, order, n) && PartDone(m, parts, right, order[n], out)
    ensures PartsDone(m, parts, right, outs[order[n] := out], order, n + 1)
  {
  }

  lemma {:induction false} EveryPart(m: (Row, Row) -> seq<Row>, parts: seq<seq<Batch>>, right: seq<Row>,
                                     outs: map<nat, seq<Batch>>, order: seq<nat>)
    requires Perm(order, Upto(|parts|)) && PartsDone(m, parts, right, outs, order, |order|)
    ensures forall i :: 0 <= i < |parts| ==> i in outs && PartDone(m, parts, right, i, outs[i])
  {
    OrderCovers(order, |parts|);
    forall i | 0 <= i < |parts| ensures i in outs && PartDone(m, parts, right, i, outs[i]) {
      assert i in order;
      var t :| 0 <= t < |order| && order[t] == i;
    }
  }

  lemma {:induction false} AllProbed(m: (Row, Row) -> seq<Row>, parts: seq<seq<Batch>>, right: seq<Row>,
                                     res: seq<seq<Batch>>)
    requires |res| == |parts|
    requires forall i :: 0 <= i < |parts| ==> PartDone(m, parts, right, i, res[i])
    ensures Probed(m, PartRows(parts), [right], PartRows(res))
  {
    FlattenOne(right);
  }

  /** All partitions, in any order of starting: each probes the whole right child, whoever collected it. */
  method ExecuteAll(node: HashJoinExec, parts: seq<seq<Batch>>, order: seq<nat>, arrival: seq<Batch>,
                    devices: seq<seq<JoinDevice>>) returns (r: Result<seq<seq<Batch>>>)
    requires node.Valid() && node.slot == None && Perm(arrival, node.pending)
      && KeysFit(node.rightSchema, arrival, node.rightKey)
    requires |devices| == |parts|
    requires forall i :: 0 <= i < |parts| ==>
      AllOf(node.leftSchema, parts[i]) && |devices[i]| == |parts[i]| && ArrangeAll(devices[i])
    requires Perm(order, Upto(|parts|))
    modifies node
    ensures r.Ok? ==>
      Probed(NodeFn(node.leftKey, node.rightKey, node.projection, node.leftSchema, node.rightSchema),
             PartRows(parts), [AllRows(node.right)], PartRows(r.value))
    ensures r.Ok? ==>
      Perm(Flatten(PartRows(r.value)),
           Pair(NodeFn(node.leftKey, node.rightKey, node.projection, node.leftSchema, node.rightSchema),
                Flatten(PartRows(parts)), AllRows(node.right)))
    ensures r.Err? ==> NodeFails(node.slot, parts, devices, node.leftKey, node.projection)
    ensures node.Valid() && BuiltOrFailed(node.slot, node.rightSchema, arrival, node.rightKey)
  {
    ghost var m := NodeFn(node.leftKey, node.rightKey, node.projection, node.leftSchema, node.rightSchema);
    OrderCovers(order, |parts|);
    var outs: map<nat, seq<Batch>> := map[];
    for n := 0 to |order|
      invariant node.Valid() && (node.slot == None ==> Perm(arrival, node.pending))
      invariant BuiltOrFailed(node.slot, node.rightSchema, arrival, node.rightKey)
      invariant PartsDone(m, parts, AllRows(node.right), outs, order, n)
    {
      var i := order[n];
      var out := node.Execute(parts[i], arrival, devices[i]);
      if out.Err? {
        assert node.slot.value.Err? || PartFailsAt(node.slot.value.value, parts, devices, i, node.leftKey, node.projection);
        return Err(out.error);
      }
      OnePartMore(m, parts, AllRows(node.right), outs, order, n, out.value);
      outs := outs[i := out.value];
    }
    EveryPart(m, parts, AllRows(node.right), outs, order);
    var res := seq(|parts|, i requires 0 <= i < |parts| => outs[i]);
    AllProbed(m, parts, AllRows(node.right), res);
    ProbedWhole(m, PartRows(parts), AllRows(node.right), PartRows(res));
    return Ok(res);
  }

  lemma {:induction false} OrderCovers(order: seq<nat>, n: nat)
    requires Perm(order, Upto(n))
    ensures forall i :: 0 <= i < n ==> i in order
    ensures forall t :: 0 <= t < |order| ==> order[t] < n
  {
    forall i | 0 <= i < n ensures i in order {
      assert Upto(n)[i] in multiset(Upto(n));
      assert i in multiset(order);
    }
    forall t | 0 <= t < |order| ensures order[t] < n {
      assert order[t] in multiset(order);
      assert order[t] in Upto(n);
    }
  }

  /** Partitions that each probe the whole right side together join the whole left side. */
  lemma {:induction false} ProbedWhole(m: (Row, Row) -> seq<Row>, ls: seq<seq<Row>>, right: seq<Row>,
                                       outs: seq<seq<Row>>)
    requires |outs| == |ls| && forall i :: 0 <= i < |outs| ==> Perm(outs[i], Pair(m, ls[i], right))
    ensures Perm(Flatten(outs), Pair(m, Flatten(ls), right))
  {
    if ls != [] {
      ProbedWhole(m, ls[1..], right, outs[1..]);
      PairAppendLeft(m, ls[0], Flatten(ls[1..]), right);
    }
  }

  // ------------------------------------------------- why the build is shared

  /**
   Had each partition collected the right child for itself, it would have met
   only the fragment left for it. That is the whole join if and only if no row
   matches a row of another partition's fragment.
   */
  lemma {:induction false} FragmentsSuffice(m: (Row, Row) -> seq<Row>, lefts: seq<seq<Row>>, fragments: seq<seq<Row>>)
    requires |lefts| == |fragments|
    ensures Perm(Flatten(PairEach(m, lefts, fragments)), Pair(m, Flatten(lefts), Flatten(fragments))) <==>
      CoPartitioned(m, lefts, fragments)
  {
    FragmentsMiss(m, lefts, fragments);
    if CoPartitioned(m, lefts, fragments) {
      PairCoPartitioned(m, lefts, fragments);
    } else {
      PermLength(Flatten(PairEach(m, lefts, fragments)), Pair(m, Flatten(lefts), Flatten(fragments)));
    }
  }

  lemma {:induction false} PermLength(a: seq<Row>, b: seq<Row>)
    ensures Perm(a, b) ==> |a| == |b|
  {
    if Perm(a, b) {
      assert |multiset(a)| == |multiset(b)|;
    }
  }

  lemma {:induction false} FragmentsMiss(m: (Row, Row) -> seq<Row>, xs: seq<seq<Row>>, ys: seq<seq<Row>>)
    requires |xs| == |ys|
    ensures |Flatten(PairEach(m, xs, ys))| <= |Pair(m, Flatten(xs), Flatten(ys))|
    ensures |Flatten(PairEach(m, xs, ys))| == |Pair(m, Flatten(xs), Flatten(ys))| ==> CoPartitioned(m, xs, ys)
  {
    if xs != [] {
      var (xt, yt) := (xs[1..], ys[1..]);
      FragmentsMiss(m, xt, yt);
      FourBlocks(m, xs[0], Flatten(xt), ys[0], Flatten(yt));
      if |Flatten(PairEach(m, xs, ys))| == |Pair(m, Flatten(xs), Flatten(ys))| {
        HeadsApart(m, xs, ys);
      }
    }
  }

  lemma {:induction false} FourBlocks(m: (Row, Row) -> seq<Row>, x: seq<Row>, xt: seq<Row>, y: seq<Row>, yt: seq<Row>)
    ensures |Pair(m, x + xt, y + yt)| == |Pair(m, x, y)| + |Pair(m, x, yt)| + |Pair(m, xt, y)| + |Pair(m, xt, yt)|
  {
    PairAppendLeft(m, x, xt, y + yt);
    PairAppendRight(m, x, y, yt);
    PairAppendRight(m, xt, y, yt);
    PermLength(Pair(m, x, y + yt), Pair(m, x, y) + Pair(m, x, yt));
    PermLength(Pair(m, xt, y + yt), Pair(m, xt, y) + Pair(m, xt, yt));
  }

  /** With the heads apart from the other parts and the tails co-partitioned, the whole is. */
  lemma {:induction false} HeadsApart(m: (Row, Row) -> seq<Row>, xs: seq<seq<Row>>, ys: seq<seq<Row>>)
    requires |xs| == |ys| > 0 && CoPartitioned(m, xs[1..], ys[1..])
    requires Pair(m, xs[0], Flatten(ys[1..])) == [] && Pair(m, Flatten(xs[1..]), ys[0]) == []
    ensures CoPartitioned(m, xs, ys)
  {
    forall i, j, x, y | 0 <= i < |xs| && 0 <= j < |ys| && i != j && x in xs[i] && y in ys[j] ensures m(x, y) == [] {
      if i == 0 {
        assert y in ys[1..][j - 1];
        FlattenMember(ys[1..], y);
        NoMatch(m, xs[0], Flatten(ys[1..]), x, y);
      } else if j == 0 {
        assert x in xs[1..][i - 1];
        FlattenMember(xs[1..], x);
        NoMatch(m, Flatten(xs[1..]), ys[0], x, y);
      } else {
        assert x in xs[1..][i - 1] && y in ys[1..][j - 1];
      }
    }
  }

  lemma {:induction false} NoMatch(m: (Row, Row) -> seq<Row>, xs: seq<Row>, ys: seq<Row>, x: Row, y: Row)
    requires Pair(m, xs, ys) == [] && x in xs && y in ys
    ensures m(x, y) == []
  {
    if x == xs[0] {
      NoMatchRow(m, x, ys, y);
    } else {
      NoMatch(m, xs[1..], ys, x, y);
    }
  }

  lemma {:induction false} NoMatchRow(m: (Row, Row) -> seq<Row>, x: Row, ys: seq<Row>, y: Row)
    requires PairRow(m, x, ys) == [] && y in ys
    ensures m(x, y) == []
  {
    if y != ys[0] {
      NoMatchRow(m, x, ys[1..], y);
    }
  }
}
