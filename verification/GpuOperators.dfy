/**
 The operator a plan node runs its batches through: the device when it can, the
 reference kernel when the device declines, one warning per operator.
 */
module GpuOperators {
  import opened Core
  import opened Bags
  import opened Plans
  import opened Batches
  import opened JoinTables
  import opened JoinKernel
  import opened JoinOperator
  import FilterKernel
  import opened Groups
  import opened Execs
  import AggregateKernel
  import AggregateOperator
  import opened FilterOperator

  // --------------------------------------------------------------- join inputs

  /** A collected right child, ready to be probed on `key`. */
  datatype JoinBuild = JoinBuild(batch: Batch, key: nat, table: JoinTable)

  ghost predicate Built(b: JoinBuild) {
    && Valid(b.batch) && b.key < |b.batch.columns| && b.batch.schema[b.key].dtype == Int64
    && TableFor(b.table, b.batch.columns[b.key])
  }

  /** What an operator keeps on the device between batches. */
  datatype DeviceBuild = DeviceBuild(plan: SidePlan, batch: Batch)

  datatype Answer = Works | Declines | Fails

  /** What a device does with one join: the build upload, the rest, and the order of its output. */
  datatype JoinDevice = JoinDevice(upload: Answer, kernel: Answer, order: (seq<Value>, seq<Value>) -> seq<RowPair>)

  /** A working device returns every match once, in an order of its own. */
  ghost predicate Arranges(d: JoinDevice) {
    forall lk, rk :: Perm(d.order(lk, rk), MatchPairs(lk, rk))
  }

  /** The contract can be met: a device that keeps the kernel's order meets it. */
  lemma {:induction false} SomeDeviceArranges()
    ensures Arranges(JoinDevice(Works, Works, MatchPairs))
  {
  }

  ghost predicate Joinable(l: Batch, lk: nat, r: Batch, sel: seq<nat>) {
    && lk < |l.columns| && lk < |l.schema| && l.schema[lk].dtype == Int64
    && ColsInRange(sel, |l.columns| + |r.columns|) && sel != []
  }

  /** The build side as a join with `width` left columns and this selection cuts it. */
  ghost function CutOf(build: JoinBuild, width: nat, sel: seq<nat>): DeviceBuild
    requires Built(build) && ColsInRange(RightOf(sel, width), |build.batch.schema|)
  {
    var plan := SideOf(build.batch.schema, build.key, RightOf(sel, width));
    CutExists(build, width, sel);
    DeviceBuild(plan, plan.SubBatch(build.batch).value)
  }

  lemma {:induction false} CutExists(build: JoinBuild, width: nat, sel: seq<nat>)
    requires Built(build) && ColsInRange(RightOf(sel, width), |build.batch.schema|)
    ensures SideOf(build.batch.schema, build.key, RightOf(sel, width)).SubBatch(build.batch).Ok?
  {
    SideCut(build.batch, build.key, RightOf(sel, width));
  }

  lemma {:induction false} SideCut(b: Batch, key: nat, cols: seq<nat>)
    requires Valid(b) && ColsInRange(cols, |b.schema|)
    ensures SideOf(b.schema, key, cols).SubBatch(b).Ok? <==> key < |b.schema|
  {
    var plan := SideOf(b.schema, key, cols);
    SideServes(b.schema, key, cols);
    SubBatchShape(plan, b);
    assert plan.deviceCols[0] == key;
    forall k | 0 <= k < |plan.deviceCols| && key < |b.schema| ensures plan.deviceCols[k] < |b.schema| {
      assert plan.deviceCols[k] in plan.deviceCols;
    }
  }

  lemma {:induction false} SidesInRange(sel: seq<nat>, width: nat, right: nat)
    requires ColsInRange(sel, width + right)
    ensures ColsInRange(LeftOf(sel, width), width) && ColsInRange(RightOf(sel, width), right)
  {
    SplitMeaning(sel, width);
    forall k | 0 <= k < |LeftOf(sel, width)| ensures LeftOf(sel, width)[k] < width {
      assert LeftOf(sel, width)[k] in LeftOf(sel, width);
    }
    forall k | 0 <= k < |RightOf(sel, width)| ensures RightOf(sel, width)[k] < right {
      assert RightOf(sel, width)[k] in RightOf(sel, width);
    }
  }

  /** Nothing is cached, or what a join of `left`'s shape with `build` would cache. */
  ghost predicate ServesJoin(cache: Option<DeviceBuild>, left: Batch, build: JoinBuild, projection: Option<seq<nat>>)
    requires Built(build)
  {
    var sel := Selected(projection, left, build.batch);
    cache.Some? ==>
      && ColsInRange(RightOf(sel, |left.columns|), |build.batch.schema|)
      && cache.value == CutOf(build, |left.columns|, sel)
  }

  /** `out` is the inner join of `left` with the build side: its schema and its bag of rows. */
  ghost predicate JoinOf(out: Batch, left: Batch, leftKey: nat, build: JoinBuild, sel: seq<nat>) {
    && out.schema == ProjectSchema(left.schema + build.batch.schema, sel)
    && Perm(RowsOf(out), Pair(JoinFn(OnKeys(leftKey, build.key), Some(sel)), RowsOf(left), RowsOf(build.batch)))
  }

  lemma {:induction false} GatheredJoin(left: Batch, leftKey: nat, build: JoinBuild, sel: seq<nat>,
                                        arranged: seq<RowPair>)
    requires Valid(left) && Built(build) && Joinable(left, leftKey, build.batch, sel)
    requires Perm(arranged, MatchPairs(left.columns[leftKey], build.batch.columns[build.key]))
    ensures JoinOf(JoinBatch(left, build.batch, sel, arranged), left, leftKey, build, sel)
  {
    ProbeIsJoin(left, build.batch, leftKey, build.key, sel);
    ArrangementPerm(left, build.batch, sel, MatchPairs(left.columns[leftKey], build.batch.columns[build.key]), arranged);
  }

  // -------------------------------------------------------------- the operator

  class GpuOperator {
    const onGpu: bool
    var deviceBuild: Option<DeviceBuild>
    var fallbacks: nat
    var warned: bool
    var warnings: nat
    var batches: nat
    var rowsOut: nat

    /** One warning for the operator, however many batches fall back. */
    ghost predicate Consistent()
      reads this
    {
      warned == (fallbacks > 0) && warnings == if fallbacks > 0 then 1 else 0
    }

    constructor (gpu: bool)
      ensures Consistent() && onGpu == gpu && deviceBuild == None && fallbacks == 0 && batches == 0 && rowsOut == 0
    {
      onGpu, deviceBuild, fallbacks, warned, warnings, batches, rowsOut := gpu, None, 0, false, 0, 0, 0;
    }

    /** Notes that the reference kernel had to step in; only the first time is logged. */
    method FellBack()
      requires Consistent()
      modifies this`fallbacks, this`warned, this`warnings
      ensures Consistent() && fallbacks == old(fallbacks) + 1
    {
      fallbacks := fallbacks + 1;
      if !warned {
        warnings := warnings + 1;
      }
      warned := true;
    }

    method Record(out: Batch)
      modifies this`batches, this`rowsOut
      ensures batches == old(batches) + 1 && rowsOut == old(rowsOut) + out.rows
    {
      batches := batches + 1;
      rowsOut := rowsOut + out.rows;
    }

    /**
     Fetches the cached cut, or fills the cache. The slot is written once, so what
     comes back is the requested cut if and only if the slot was empty or already
     held that cut.
     */
    method BuildOnDevice(build: Batch, plan: SidePlan, upload: Answer) returns (r: Result<DeviceBuild>)
      requires plan.SubBatch(build).Ok?
      modifies this`deviceBuild
      ensures r.Ok? ==> deviceBuild == Some(r.value)
      ensures old(deviceBuild).Some? || r.Err? ==> deviceBuild == old(deviceBuild)
      ensures r.Err? <==> !upload.Works? && !(old(deviceBuild).Some? && old(deviceBuild).value.plan == plan)
      ensures r.Err? ==> r.error.UnsupportedError? == upload.Declines?
      ensures r.Ok? ==> (r.value == DeviceBuild(plan, plan.SubBatch(build).value)
                         <==> old(deviceBuild) in {None, Some(DeviceBuild(plan, plan.SubBatch(build).value))})
    {
      if deviceBuild.Some? && deviceBuild.value.plan == plan {
        return Ok(deviceBuild.value);
      }
      var sub := plan.SubBatch(build).value;
      if !upload.Works? {
        return Err(if upload.Declines? then UnsupportedError else ExecutionError);
      }
      if deviceBuild.None? {
        deviceBuild := Some(DeviceBuild(plan, sub));
      }
      return Ok(deviceBuild.value);
    }

    /** Cuts the probe batch, joins on the device and reassembles the selected columns. */
    method HashJoinOnDevice(left: Batch, build: JoinBuild, leftKey: nat, projection: Option<seq<nat>>,
                            device: JoinDevice)
      returns (r: Result<Outcome>)
      requires Valid(left) && Built(build) && Arranges(device)
      requires ServesJoin(deviceBuild, left, build, projection)
      modifies this`deviceBuild
      ensures ServesJoin(deviceBuild, left, build, projection)
      ensures r.Err? ==>
        device.upload.Fails? || device.kernel.Fails?
        || !Joinable(left, leftKey, build.batch, Selected(projection, left, build.batch))
      ensures Joinable(left, leftKey, build.batch, Selected(projection, left, build.batch)) ==>
        device.upload.Works? && device.kernel.Works? ==> r.Ok? && r.value.Ran?
      ensures r == Ok(Declined) ==>
        device.upload.Declines? || device.kernel.Declines?
        || !Joinable(left, leftKey, build.batch, Selected(projection, left, build.batch))
      ensures r.Ok? && r.value.Ran? ==>
        var sel := Selected(projection, left, build.batch);
        device.kernel.Works? && Joinable(left, leftKey, build.batch, sel) && JoinOf(r.value.batch, left, leftKey, build, sel)
    {
      var sel := Selected(projection, left, build.batch);
      if !ColsInRange(sel, |left.schema| + |build.batch.schema|) {
        return Err(PlanError);
      }
      var cut := CutLeft(left, leftKey, build, sel);
      if cut.Err? {
        return Err(cut.error);
      }
      var dev := BuildOnDevice(build.batch, cut.value.1, device.upload);
      if dev.Err? {
        if dev.error.UnsupportedError? {
          return Ok(Declined);
        }
        return Err(dev.error);
      }
      r := ProbeOnDevice(left, leftKey, build, sel, JoinCut(cut.value.0, cut.value.2, cut.value.1, dev.value.batch), device);
    }

    /**
     Joins a batch with what was collected, on the device or by the
     reference kernel: the same bag of rows either way, and in the kernel's order
     when the kernel ran.
     */
    method HashJoin(left: Batch, build: JoinBuild, leftKey: nat, projection: Option<seq<nat>>,
                    device: JoinDevice) returns (r: Result<Batch>)
      requires Valid(left) && Built(build) && Arranges(device) && Consistent()
      requires ServesJoin(deviceBuild, left, build, projection)
      modifies this
      ensures Consistent() && ServesJoin(deviceBuild, left, build, projection)
      ensures r.Ok? ==> batches == old(batches) + 1 && rowsOut == old(rowsOut) + r.value.rows
      ensures r.Ok? ==>
        var sel := Selected(projection, left, build.batch);
        Joinable(left, leftKey, build.batch, sel) && JoinOf(r.value, left, leftKey, build, sel)
      ensures r.Err? ==>
        device.upload.Fails? || device.kernel.Fails? || ProbeFails(left, leftKey, build.batch, build.key, projection)
      ensures Joinable(left, leftKey, build.batch, Selected(projection, left, build.batch)) ==>
        && (!onGpu ==> fallbacks == old(fallbacks) + 1)
        && (onGpu && device.upload.Works? && device.kernel.Works? ==> r.Ok? && fallbacks == old(fallbacks))
      ensures !onGpu || device.kernel.Declines? ==>
        r.Ok? ==> r.value == JoinBatch(left, build.batch, Selected(projection, left, build.batch),
                                       MatchPairs(left.columns[leftKey], build.batch.columns[build.key]))
    {
      NotJoinable(left, leftKey, build, projection);
      var outcome := Ok(Declined);
      if onGpu {
        outcome := HashJoinOnDevice(left, build, leftKey, projection, device);
      }
      r := Settle(outcome, left, build, leftKey, projection);
    }

    /** Records what ran, or falls back to the reference kernel. */
    method Settle(outcome: Result<Outcome>, left: Batch, build: JoinBuild, leftKey: nat,
                  projection: Option<seq<nat>>) returns (r: Result<Batch>)
      requires Valid(left) && Built(build) && Consistent()
      modifies this`fallbacks, this`warned, this`warnings, this`batches, this`rowsOut
      ensures Consistent() && fallbacks == old(fallbacks) + if outcome == Ok(Declined) then 1 else 0
      ensures r.Ok? ==> batches == old(batches) + 1 && rowsOut == old(rowsOut) + r.value.rows
      ensures outcome.Err? ==> r == Err(outcome.error)
      ensures outcome.Ok? && outcome.value.Ran? ==> r == Ok(outcome.value.batch)
      ensures outcome == Ok(Declined) ==> HostJoin(r, left, build, leftKey, projection)
    {
      if outcome.Err? {
        return Err(outcome.error);
      }
      if outcome.value.Ran? {
        r := Ok(outcome.value.batch);
      } else {
        FellBack();
        r := JoinOnHost(left, build, leftKey, projection);
      }
      if r.Ok? {
        Record(r.value);
      }
    }

    /**
     Grouped aggregation of one batch. The reference kernel refuses a sum outside
     64 bits where a device wraps; everything else is the same bag of groups.
     */
    method AggregateBatch(b: Batch, spec: AggregateSpec, device: AggregateOperator.AggDevice) returns (r: Result<Batch>)
      requires Valid(b) && AggregateKernel.IntInputs(b.schema, spec) && AggregateOperator.Computes(device)
        && Consistent()
      modifies this
      ensures Consistent() && deviceBuild == old(deviceBuild)
      ensures r.Ok? ==>
        && SpecTyped(b.schema, spec) && r.value.schema == OutputSchema(b.schema, spec).value
        && Perm(RowsOf(r.value), Group(SpecGrouping(spec), RowsOf(b)))
        && batches == old(batches) + 1 && rowsOut == old(rowsOut) + r.value.rows
      ensures r.Err? ==>
        (onGpu && device.answer.Fails?) || !SpecTyped(b.schema, spec) || !SumsFit(SpecGrouping(spec), RowsOf(b))
      ensures SpecTyped(b.schema, spec) ==>
        (r.Ok? <==> if onGpu && !device.answer.Declines? then device.answer.Works? else SumsFit(SpecGrouping(spec), RowsOf(b)))
      ensures SpecTyped(b.schema, spec) ==>
        fallbacks == old(fallbacks) + if onGpu && !device.answer.Declines? then 0 else 1
    {
      var outcome := Ok(Declined);
      if onGpu {
        outcome := AggregateOperator.AggregateOnDevice(b, spec, device);
      }
      if outcome.Err? {
        return Err(outcome.error);
      }
      if outcome.value.Ran? {
        Record(outcome.value.batch);
        return Ok(outcome.value.batch);
      }
      FellBack();
      r := AggregateKernel.Aggregate(b, spec);
      if r.Ok? {
        Record(r.value);
      }
    }

    /** Fused filter and projection of one batch, with the same fallback. */
    method FilterBatch(b: Batch, p: Predicate, projection: seq<nat>,
                       device: FilterOperator.Device) returns (r: Result<Batch>)
      requires Valid(b) && Consistent()
      modifies this
      ensures Consistent() && deviceBuild == old(deviceBuild)
      ensures r.Ok? ==>
        r == FilterKernel.FilterProject(b, p, projection) && batches == old(batches) + 1
        && rowsOut == old(rowsOut) + r.value.rows
      ensures r.Err? ==> FilterKernel.FilterProject(b, p, projection).Err? || device.Fails? || projection == []
      ensures FilterKernel.FilterProject(b, p, projection).Ok? && projection != [] ==>
        && (r.Err? <==> onGpu && device.Fails?)
        && fallbacks == old(fallbacks) + if onGpu && !device.Declines? then 0 else 1
    {
      var outcome := Ok(Declined);
      if onGpu {
        outcome := FilterProjectOnDevice(b, p, projection, device);
      }
      if outcome.Err? {
        return Err(outcome.error);
      }
      r := Ok(Batch([], [], 0));
      if outcome.value.Ran? {
        r := Ok(outcome.value.batch);
      } else {
        FellBack();
        r := FilterKernel.FilterProject(b, p, projection);
        if r.Err? {
          return;
        }
      }
      Record(r.value);
    }
  }

  /** `r` is what the reference kernel returns. */
  ghost predicate HostJoin(r: Result<Batch>, left: Batch, build: JoinBuild, leftKey: nat, projection: Option<seq<nat>>)
    requires Built(build)
  {
    var sel := Selected(projection, left, build.batch);
    && (r.Err? <==> ProbeFails(left, leftKey, build.batch, build.key, projection))
    && (r.Ok? ==>
          && Joinable(left, leftKey, build.batch, sel) && JoinOf(r.value, left, leftKey, build, sel)
          && r.value == JoinBatch(left, build.batch, sel, MatchPairs(left.columns[leftKey], build.batch.columns[build.key])))
  }

  lemma {:induction false} NotJoinable(left: Batch, leftKey: nat, build: JoinBuild, projection: Option<seq<nat>>)
    requires Built(build)
    ensures !Joinable(left, leftKey, build.batch, Selected(projection, left, build.batch)) ==>
      ProbeFails(left, leftKey, build.batch, build.key, projection)
  {
  }

  /** The reference kernel on a prepared build side. */
  method JoinOnHost(left: Batch, build: JoinBuild, leftKey: nat,
                    projection: Option<seq<nat>>) returns (r: Result<Batch>)
    requires Valid(left) && Built(build)
    ensures HostJoin(r, left, build, leftKey, projection)
  {
    r := HashJoinProbe(left, leftKey, build.batch, build.table, projection, build.key);
    if r.Ok? {
      GatheredJoin(left, leftKey, build, Selected(projection, left, build.batch),
                   MatchPairs(left.columns[leftKey], build.batch.columns[build.key]));
    }
  }

  method CutLeft(left: Batch, leftKey: nat, build: JoinBuild,
                 sel: seq<nat>) returns (r: Result<(SidePlan, SidePlan, Batch)>)
    requires Valid(left) && Built(build) && ColsInRange(sel, |left.columns| + |build.batch.columns|)
    ensures r.Ok? <==> leftKey < |left.columns|
    ensures r.Ok? ==>
      && r.value.0.SubBatch(left) == Ok(r.value.2) && Serves(r.value.0, leftKey, LeftOf(sel, |left.columns|))
      && Serves(r.value.1, build.key, RightOf(sel, |left.columns|))
      && ColsInRange(RightOf(sel, |left.columns|), |build.batch.schema|)
      && r.value.1 == SideOf(build.batch.schema, build.key, RightOf(sel, |left.columns|))
      && r.value.1.SubBatch(build.batch).Ok?
  {
    SidesInRange(sel, |left.columns|, |build.batch.columns|);
    var leftPlan := PlanSide(left.schema, leftKey, LeftOf(sel, |left.columns|));
    var rightPlan := PlanSide(build.batch.schema, build.key, RightOf(sel, |left.columns|));
    SideServes(left.schema, leftKey, LeftOf(sel, |left.columns|));
    SideServes(build.batch.schema, build.key, RightOf(sel, |left.columns|));
    SideCut(left, leftKey, LeftOf(sel, |left.columns|));
    SideCut(build.batch, build.key, RightOf(sel, |left.columns|));
    var leftSub := leftPlan.value.SubBatch(left);
    if leftSub.Err? {
      return Err(leftSub.error);
    }
    return Ok((leftPlan.value, rightPlan.value, leftSub.value));
  }

  /** Uploads the probe cut, joins it with the uploaded build, downloads and reassembles. */
  method ProbeOnDevice(left: Batch, leftKey: nat, build: JoinBuild, sel: seq<nat>, cut: JoinCut, device: JoinDevice)
    returns (r: Result<Outcome>)
    requires Valid(left) && Built(build) && Arranges(device) && leftKey < |left.columns|
    requires CutsJoin(cut, left, leftKey, build.batch, build.key, sel)
    requires ColsInRange(sel, |left.columns| + |build.batch.columns|)
    ensures r.Err? ==> device.kernel.Fails? || sel == []
    ensures device.kernel.Works? && Joinable(left, leftKey, build.batch, sel) ==> r.Ok? && r.value.Ran?
    ensures r == Ok(Declined) ==> device.kernel.Declines? || !Joinable(left, leftKey, build.batch, sel) || sel == []
    ensures r.Ok? && r.value.Ran? ==>
      device.kernel.Works? && Joinable(left, leftKey, build.batch, sel) && JoinOf(r.value.batch, left, leftKey, build, sel)
  {
    SubBatchShape(cut.leftPlan, left);
    SubBatchShape(cut.rightPlan, build.batch);
    var (leftPos, rightPos) := (cut.leftPlan.Position(leftKey).value, cut.rightPlan.Position(build.key).value);
    // A key the device cannot hash is `Unsupported` there.
    if device.kernel.Declines? || cut.leftSub.schema[leftPos].dtype != Int64 {
      return Ok(Declined);
    }
    if device.kernel.Fails? {
      return Err(ExecutionError);
    }
    var arranged := device.order(cut.leftSub.columns[leftPos], cut.rightSub.columns[rightPos]);
    ArrangedInRange(left.columns[leftKey], build.batch.columns[build.key], arranged);
    var out := DeviceJoin(cut.leftSub, cut.rightSub, arranged);
    var columns := ReassembleJoin(cut, left, leftKey, build.batch, build.key, sel, out, arranged);
    if sel == [] {
      // A batch without columns has no length.
      return Err(PlanError);
    }
    GatheredJoin(left, leftKey, build, sel, arranged);
    GatheredLength(left, build.batch, sel, arranged);
    return Ok(Ran(Batch(ProjectSchema(left.schema + build.batch.schema, sel), columns.value, |columns.value[0]|)));
  }

  lemma {:induction false} GatheredLength(l: Batch, r: Batch, sel: seq<nat>, arranged: seq<RowPair>)
    requires sel != []
    ensures JoinColumns(l, r, sel, arranged) != [] && |JoinColumns(l, r, sel, arranged)[0]| == |arranged|
  {
  }
}
