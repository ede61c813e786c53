/**
 The device side of a filter: only the columns the kernel reads travel, plus a
 row-id column when a projected column cannot leave the host. The result is
 reassembled from device columns and host gathers.
 */
module FilterOperator {
  import opened Core
  import opened Plans
  import opened Execs
  import opened Batches
  import opened FilterKernel

  // -------------------------------------------------------------- side plans

  const ROW_ID: string := "__oxide_row"

  predicate DeviceEligible(t: DataType) {
    t.Int64? || t.Float64? || t.Float32? || (t.FixedSizeList? && t.dim > 0)
  }

  /** No column twice. */
  ghost predicate Once(cols: seq<nat>) {
    forall i, k :: 0 <= i < k < |cols| ==> cols[i] != cols[k]
  }

  /** What a device can hold: 64-bit numbers, 32-bit floats, and vectors of them that are not empty. */
  lemma {:induction false} EligibleIff(t: DataType)
    ensures DeviceEligible(t) <==>
      t in {Int64, Float64, Float32} || exists dim: nat :: dim > 0 && t == FixedSizeList(dim)
  {
    if t.FixedSizeList? {
      assert t == FixedSizeList(t.dim);
    }
  }

  function PushUnique(cols: seq<nat>, c: nat): (r: seq<nat>)
    ensures c in r && (forall d :: d in cols ==> d in r) && (forall d :: d in r ==> d in cols || d == c)
    ensures r != []
  {
    if c in cols then cols else cols + [c]
  }

  /** A cut of a batch: which of its columns the device gets, and whether it also gets row numbers. */
  datatype SidePlan = SidePlan(deviceCols: seq<nat>, rowIds: bool) {
    function Position(c: nat): (r: Option<nat>)
      ensures r.Some? ==> r.value < |deviceCols| && deviceCols[r.value] == c
      ensures r.Some? <==> c in deviceCols
    {
      FirstIndex(deviceCols, c)
    }

    function RowIdPosition(): Option<nat> {
      if rowIds then Some(|deviceCols|) else None
    }

    function Width(): nat {
      |deviceCols| + if rowIds then 1 else 0
    }

    /** The cut itself; a row number column, if any, comes last. */
    function SubBatch(b: Batch): (r: Result<Batch>) {
      if !ColsInRange(deviceCols, |b.schema|) then Err(PlanError)
      else if rowIds && b.rows > I64_MAX then Err(ExecutionError)
      else
        TryNew(
          ProjectSchema(b.schema, deviceCols) + (if rowIds then [Field(ROW_ID, Int64, false)] else []),
          Projected(b, deviceCols) + (if rowIds then [RowIds(b.rows)] else []))
    }
  }

  function Projected(b: Batch, cols: seq<nat>): (r: seq<seq<Value>>)
    ensures |r| == |cols|
    ensures forall k :: 0 <= k < |cols| ==> r[k] == ColumnAt(b, cols[k])
  {
    seq(|cols|, k requires 0 <= k < |cols| => ColumnAt(b, cols[k]))
  }

  function RowIds(n: nat): (r: seq<Value>)
    requires n <= I64_MAX
    ensures |r| == n && forall i :: 0 <= i < n ==> r[i] == I64(i)
  {
    seq(n, i requires 0 <= i < n => I64(i))
  }

  /** A downloaded row-id column as positions. */
  function AsIds(col: seq<Value>): (r: seq<nat>)
    ensures |r| == |col|
    ensures forall i :: 0 <= i < |col| ==> r[i] == if col[i].I64? && col[i].i >= 0 then col[i].i else 0
  {
    seq(|col|, i requires 0 <= i < |col| => if col[i].I64? && col[i].i >= 0 then col[i].i else 0)
  }

  function Remap(p: Predicate, plan: SidePlan): Result<Predicate> {
    match p
    case Compare(c, op, lit) =>
      (match plan.Position(c)
       case Some(k) => Ok(Compare(k, op, lit))
       case None => Err(PlanError))
    case And(l, r) =>
      var l' :- Remap(l, plan);
      var r' :- Remap(r, plan);
      Ok(And(l', r'))
  }

  // -------------------------------------------------- what the cut preserves

  lemma {:induction false} SubBatchShape(plan: SidePlan, b: Batch)
    requires Valid(b) && plan.Width() > 0
    ensures plan.SubBatch(b).Ok? <==> ColsInRange(plan.deviceCols, |b.schema|)
    ensures plan.SubBatch(b).Ok? ==>
      var sub := plan.SubBatch(b).value;
      && Valid(sub) && sub.rows == b.rows && |sub.columns| == plan.Width()
      && (forall k :: 0 <= k < |plan.deviceCols| ==>
            sub.columns[k] == b.columns[plan.deviceCols[k]] && sub.schema[k] == b.schema[plan.deviceCols[k]])
      && (plan.rowIds ==> sub.columns[|plan.deviceCols|] == RowIds(b.rows))
  {
    if ColsInRange(plan.deviceCols, |b.schema|) {
      var columns := Projected(b, plan.deviceCols) + if plan.rowIds then [RowIds(b.rows)] else [];
      assert forall c :: 0 <= c < |columns| ==> |columns[c]| == b.rows;
    }
  }

  /** A remapped predicate has the same mask on the sub-batch as the original on the whole batch. */
  lemma {:induction false} RemapMask(p: Predicate, plan: SidePlan, b: Batch)
    requires Valid(b) && plan.SubBatch(b).Ok? && Remap(p, plan).Ok?
    ensures EvaluatePredicate(plan.SubBatch(b).value, Remap(p, plan).value) == EvaluatePredicate(b, p)
  {
    assert plan.Width() > 0;
    SubBatchShape(plan, b);
    match p
    case Compare(_, _, _) =>
    case And(l, r) =>
      RemapMask(l, plan, b);
      RemapMask(r, plan, b);
  }

  lemma {:induction false} RemapOk(p: Predicate, plan: SidePlan)
    ensures Remap(p, plan).Ok? <==> forall c :: c in p.Columns() ==> c in plan.deviceCols
  {
    match p
    case Compare(c, _, _) => assert p.Columns() == [c];
    case And(l, r) =>
      RemapOk(l, plan);
      RemapOk(r, plan);
      assert p.Columns() == l.Columns() + r.Columns();
  }

  lemma {:induction false} TypedColumns(s: Schema, p: Predicate)
    requires LeavesTyped(s, p)
    ensures forall c :: c in p.Columns() ==> c < |s|
    ensures p.Columns() != []
  {
    match p
    case Compare(c, _, _) => assert p.Columns() == [c];
    case And(l, r) =>
      TypedColumns(s, l);
      TypedColumns(s, r);
      assert p.Columns() == l.Columns() + r.Columns();
  }

  // ------------------------------------------------------------- the device

  /** A backend either runs the kernel, answers `Unsupported`, or fails. */
  datatype Device = Runs | Declines | Fails

  datatype Outcome = Ran(batch: Batch) | Declined

  /** Uploads, runs and downloads; a running device computes the reference kernel. */
  function RoundTripFilter(device: Device, sub: Batch, p: Predicate, cols: seq<nat>): Result<Outcome> {
    match device
    case Declines => Ok(Declined)
    case Fails => Err(ExecutionError)
    case Runs =>
      match FilterProject(sub, p, cols)
      case Ok(b) => Ok(Ran(b))
      case Err(e) => if e.UnsupportedError? then Ok(Declined) else Err(e)
  }

  /** Everything a filter sends to the device. */
  datatype FilterCut = FilterCut(plan: SidePlan, eligible: seq<bool>, sub: Batch, predicate_: Predicate, cols: seq<nat>)

  ghost predicate CutFor(b: Batch, p: Predicate, projection: seq<nat>, cut: FilterCut) {
    && |cut.eligible| == |projection| && ColsInRange(projection, |b.columns|)
    && cut.plan.Width() > 0 && cut.plan.SubBatch(b) == Ok(cut.sub)
    && Remap(p, cut.plan) == Ok(cut.predicate_)
    && ProjectsEligible(cut.plan, projection, cut.eligible, cut.cols)
    && (forall k :: 0 <= k < |projection| && !cut.eligible[k] ==> cut.plan.rowIds)
  }

  /** Decides which columns travel and re-expresses predicate and projection over them. */
  method PlanFilter(b: Batch, p: Predicate, projection: seq<nat>) returns (r: Result<FilterCut>)
    requires Valid(b)
    ensures r.Ok? ==> CutFor(b, p, projection, r.value)
    ensures FilterProject(b, p, projection).Ok? ==> r.Ok?
  {
    FilterProjectOk(b, p, projection);
    var eligible: seq<bool> := [];
    for k := 0 to |projection|
      invariant |eligible| == k
      invariant forall i :: 0 <= i < k ==> projection[i] < |b.schema|
    {
      if projection[k] >= |b.schema| {
        return Err(PlanError);
      }
      eligible := eligible + [DeviceEligible(b.schema[projection[k]].dtype)];
    }
    var unique := UniqueColumns(p, projection, eligible);
    var plan := SidePlan(unique, exists k :: 0 <= k < |eligible| && !eligible[k]);
    CutSucceeds(b, p, projection, eligible, plan);
    var sub := plan.SubBatch(b);
    if sub.Err? {
      return Err(sub.error);
    }
    RemapOk(p, plan);
    var cols := DeviceProjection(plan, projection, eligible);
    return Ok(FilterCut(plan, eligible, sub.value, Remap(p, plan).value, cols));
  }

  /** Cuts the batch for the device, filters there, and reassembles in projection order. */
  method FilterProjectOnDevice(b: Batch, p: Predicate, projection: seq<nat>,
                               device: Device) returns (r: Result<Outcome>)
    requires Valid(b)
    ensures r.Ok? && r.value.Ran? ==> FilterProject(b, p, projection) == Ok(r.value.batch)
    ensures FilterProject(b, p, projection).Ok? && projection != [] ==>
      (match device
       case Runs => r == Ok(Ran(FilterProject(b, p, projection).value))
       case Declines => r == Ok(Declined)
       case Fails => r.Err?)
  {
    var planned := PlanFilter(b, p, projection);
    if planned.Err? {
      return Err(planned.error);
    }
    var cut := planned.value;
    CutMirrors(b, p, projection, cut);
    match RoundTripFilter(device, cut.sub, cut.predicate_, cut.cols) {
      case Err(e) =>
        return Err(e);
      case Ok(Declined) =>
        return Ok(Declined);
      case Ok(Ran(devOut)) =>
        if projection == [] {
          // A batch without columns has no length to rebuild from.
          return Err(PlanError);
        }
        ghost var ids := Kept(EvaluatePredicate(b, p).value);
        MaskMeaning(b, p);
        var columns := RebuildFiltered(b, projection, cut, devOut.columns, ids);
        return Ok(Ran(Batch(ProjectSchema(b.schema, projection), columns, |columns[0]|)));
    }
  }

  /** On the cut the kernel computes the mask it computes on the whole batch, and fails when it would fail there. */
  lemma {:induction false} CutMirrors(b: Batch, p: Predicate, projection: seq<nat>, cut: FilterCut)
    requires Valid(b) && CutFor(b, p, projection, cut)
    ensures EvaluatePredicate(cut.sub, cut.predicate_) == EvaluatePredicate(b, p)
    ensures FilterProject(cut.sub, cut.predicate_, cut.cols).Ok? <==> FilterProject(b, p, projection).Ok?
    ensures FilterProject(b, p, projection).Ok? ==>
      var ids := Kept(EvaluatePredicate(b, p).value);
      FilterProject(b, p, projection).value
      == Batch(ProjectSchema(b.schema, projection), TakeAll(b, projection, ids), |ids|)
  {
    RemapMask(p, cut.plan, b);
    SubBatchShape(cut.plan, b);
  }

  /** Rebuilds the columns at `ids` from what the device returned for the cut. */
  method RebuildFiltered(b: Batch, projection: seq<nat>, cut: FilterCut, devOut: seq<seq<Value>>,
                         ghost ids: seq<nat>) returns (columns: seq<seq<Value>>)
    requires Valid(b) && cut.plan.Width() > 0 && cut.plan.SubBatch(b) == Ok(cut.sub)
    requires |cut.eligible| == |projection| && ColsInRange(projection, |b.columns|)
      && ProjectsEligible(cut.plan, projection, cut.eligible, cut.cols)
    requires forall k :: 0 <= k < |projection| && !cut.eligible[k] ==> cut.plan.rowIds
    requires forall j :: 0 <= j < |ids| ==> ids[j] < b.rows
    requires devOut == TakeAll(cut.sub, cut.cols, ids)
    ensures columns == TakeAll(b, projection, ids)
  {
    DeviceOutput(b, cut.plan, cut.sub, projection, cut.eligible, cut.cols, ids);
    columns := Reassemble(b, projection, cut.eligible, devOut, ids);
  }

  /** Predicate columns in evaluation order, then eligible projected columns, each once. */
  method UniqueColumns(p: Predicate, projection: seq<nat>, eligible: seq<bool>) returns (unique: seq<nat>)
    requires |eligible| == |projection|
    ensures forall c :: c in p.Columns() ==> c in unique
    ensures forall k :: 0 <= k < |projection| && eligible[k] ==> projection[k] in unique
    ensures forall c :: c in unique ==>
      c in p.Columns() || exists k :: 0 <= k < |projection| && eligible[k] && projection[k] == c
    ensures p.Columns() != [] ==> unique != []
    ensures Once(unique)
  {
    unique := [];
    var cols := p.Columns();
    for k := 0 to |cols|
      invariant Once(unique)
      invariant forall i :: 0 <= i < k ==> cols[i] in unique
      invariant forall c :: c in unique ==> c in cols
      invariant k > 0 ==> unique != []
    {
      unique := PushUnique(unique, cols[k]);
    }
    for k := 0 to |projection|
      invariant Once(unique)
      invariant forall c :: c in cols ==> c in unique
      invariant forall i :: 0 <= i < k && eligible[i] ==> projection[i] in unique
      invariant forall c :: c in unique ==> c in cols || exists i :: 0 <= i < k && eligible[i] && projection[i] == c
      invariant cols != [] ==> unique != []
    {
      if eligible[k] {
        unique := PushUnique(unique, projection[k]);
      }
    }
  }

  /** The cut succeeds whenever the reference kernel does. */
  lemma {:induction false} CutSucceeds(b: Batch, p: Predicate, projection: seq<nat>, eligible: seq<bool>,
                                       plan: SidePlan)
    requires Valid(b) && |eligible| == |projection|
    requires forall c :: c in p.Columns() ==> c in plan.deviceCols
    requires forall c :: c in plan.deviceCols ==>
      c in p.Columns() || exists k :: 0 <= k < |projection| && eligible[k] && projection[k] == c
    ensures FilterProject(b, p, projection).Ok? ==> plan.SubBatch(b).Ok?
  {
    FilterProjectOk(b, p, projection);
    if FilterProject(b, p, projection).Ok? {
      TypedColumns(b.schema, p);
      assert p.Columns()[0] in plan.deviceCols;
      forall i | 0 <= i < |plan.deviceCols| ensures plan.deviceCols[i] < |b.schema| {
        assert plan.deviceCols[i] in plan.deviceCols;
      }
      SubBatchShape(plan, b);
    }
  }

  /** How many of the first `k` projected columns come from the device. */
  function DeviceRank(eligible: seq<bool>, k: nat): nat
    requires k <= |eligible|
  {
    if k == 0 then 0 else DeviceRank(eligible, k - 1) + if eligible[k - 1] then 1 else 0
  }

  /** `cols` asks the device for what it can hold of the projection, and for the row numbers if it got them. */
  ghost predicate ProjectsEligible(plan: SidePlan, projection: seq<nat>, eligible: seq<bool>, cols: seq<nat>)
    requires |eligible| == |projection|
  {
    && |cols| == DeviceRank(eligible, |projection|) + (if plan.rowIds then 1 else 0)
    && (forall k :: 0 <= k < |projection| && eligible[k] ==>
          DeviceRank(eligible, k) < |cols| && cols[DeviceRank(eligible, k)] < |plan.deviceCols|
          && plan.deviceCols[cols[DeviceRank(eligible, k)]] == projection[k])
    && (plan.rowIds ==> cols[|cols| - 1] == |plan.deviceCols|)
    && (forall i :: 0 <= i < |cols| ==> cols[i] < plan.Width())
  }

  method DeviceProjection(plan: SidePlan, projection: seq<nat>, eligible: seq<bool>) returns (cols: seq<nat>)
    requires |eligible| == |projection|
    requires forall k :: 0 <= k < |projection| && eligible[k] ==> projection[k] in plan.deviceCols
    ensures ProjectsEligible(plan, projection, eligible, cols)
  {
    cols := [];
    for k := 0 to |projection|
      invariant |cols| == DeviceRank(eligible, k)
      invariant forall i :: 0 <= i < k && eligible[i] ==>
        DeviceRank(eligible, i) < |cols| && cols[DeviceRank(eligible, i)] < |plan.deviceCols|
        && plan.deviceCols[cols[DeviceRank(eligible, i)]] == projection[i]
      invariant forall i :: 0 <= i < |cols| ==> cols[i] < |plan.deviceCols|
    {
      if eligible[k] {
        cols := cols + [plan.Position(projection[k]).value];
      }
    }
    if plan.RowIdPosition().Some? {
      cols := cols + [plan.RowIdPosition().value];
    }
  }

  /** What the downloaded columns hold: the kept cells of the originals, and the kept row ids. */
  lemma {:induction false} DeviceOutput(b: Batch, plan: SidePlan, sub: Batch, projection: seq<nat>, eligible: seq<bool>,
                                        devProjection: seq<nat>, ids: seq<nat>)
    requires Valid(b) && plan.Width() > 0 && plan.SubBatch(b) == Ok(sub)
    requires |eligible| == |projection| && ColsInRange(projection, |b.columns|)
    requires ProjectsEligible(plan, projection, eligible, devProjection)
    requires forall j :: 0 <= j < |ids| ==> ids[j] < b.rows
    ensures var out := TakeAll(sub, devProjection, ids);
            && (forall k :: 0 <= k < |projection| && eligible[k] ==>
                  out[DeviceRank(eligible, k)] == Pick(b.columns[projection[k]], ids))
            && (plan.rowIds ==> AsIds(out[|out| - 1]) == ids)
  {
    SubBatchShape(plan, b);
    var out := TakeAll(sub, devProjection, ids);
    if plan.rowIds {
      assert out[|out| - 1] == Pick(RowIds(b.rows), ids);
      assert AsIds(out[|out| - 1]) == ids;
    }
  }

  /** Puts the output together: a column comes from the device if it was there, else from the host's own copy. */
  method Reassemble(b: Batch, projection: seq<nat>, eligible: seq<bool>, devOut: seq<seq<Value>>, ghost ids: seq<nat>)
    returns (columns: seq<seq<Value>>)
    requires |eligible| == |projection| && ColsInRange(projection, |b.columns|)
    requires forall k :: 0 <= k < |projection| && eligible[k] ==>
      DeviceRank(eligible, k) < |devOut| && devOut[DeviceRank(eligible, k)] == Pick(b.columns[projection[k]], ids)
    requires forall k :: 0 <= k < |projection| && !eligible[k] ==> |devOut| > 0 && AsIds(devOut[|devOut| - 1]) == ids
    ensures columns == TakeAll(b, projection, ids)
  {
    columns := [];
    var nextDevice := 0;
    for k := 0 to |projection|
      invariant nextDevice == DeviceRank(eligible, k)
      invariant |columns| == k
      invariant forall i :: 0 <= i < k ==> columns[i] == Pick(ColumnAt(b, projection[i]), ids)
    {
      if eligible[k] {
        columns := columns + [devOut[nextDevice]];
        nextDevice := nextDevice + 1;
      } else {
        var rowIds := AsIds(devOut[|devOut| - 1]);
        columns := columns + [Pick(b.columns[projection[k]], rowIds)];
      }
    }
  }
}
